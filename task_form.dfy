/** The task form of src/components/tasks/TaskForm.tsx: its schema, the values it starts
    with, the project selector, and its submit label. */
module TaskForm {
  import opened Values
  import opened Entities
  import Schema
  import TaskCard

  datatype Fields = Fields(title: string, description: string, status: Option<string>, projectId: string)

  /** The message shown under each field, if any. */
  datatype Errors = Errors(title: Option<string>, description: Option<string>, projectId: Option<string>)

  const NoErrors := Errors(None, None, None)

  /** `taskSchema`: title 3..100 characters, description 10..500, a project chosen, and any
      status or none. */
  function Validate(v: Fields): (e: Errors)
    ensures e == NoErrors <==> 3 <= |v.title| <= 100 && 10 <= |v.description| <= 500 && v.projectId != ""
    ensures |v.title| < 3 ==> e.title == Some("Title must be at least 3 characters")
    ensures |v.title| > 100 ==> e.title == Some("Title must be less than 100 characters")
    ensures |v.description| < 10 ==> e.description == Some("Description must be at least 10 characters")
    ensures |v.description| > 500 ==> e.description == Some("Description must be less than 500 characters")
    ensures v.projectId == "" <==> e.projectId == Some("Project is required")
    ensures e.title.None? <==> 3 <= |v.title| <= 100
    ensures e.description.None? <==> 10 <= |v.description| <= 500
    ensures e.projectId.None? <==> v.projectId != ""
  {
    Errors(
      Schema.Between(v.title, 3, 100, "Title must be at least 3 characters", "Title must be less than 100 characters"),
      Schema.Between(v.description, 10, 500, "Description must be at least 10 characters",
                     "Description must be less than 500 characters"),
      Schema.Min(v.projectId, 1, "Project is required"))
  }

  /** The status does not take part in validation. */
  lemma StatusIsFree(v: Fields, status: Option<string>)
    ensures Validate(v.(status := status)) == Validate(v)
  {
  }

  function TruthyString(s: Option<string>): bool {
    s.Some? && s.value != ""
  }

  /** The default values: the task's fields (or empty, status "TODO"), and as project the
      selected one, else the task's, else the first project, else none. */
  function Defaults(task: Option<Task>, projects: seq<Project>, selectedProjectId: Option<string>): (d: Fields)
    ensures task.None? ==> d.title == "" && d.description == "" && d.status == Some("TODO")
    ensures task.Some? ==> d.title == task.value.title && d.description == task.value.description
    ensures task.Some? && task.value.status != "" ==> d.status == Some(task.value.status)
    ensures task.Some? && task.value.status == "" ==> d.status == Some("TODO")
    ensures TruthyString(selectedProjectId) ==> d.projectId == selectedProjectId.value
    ensures !TruthyString(selectedProjectId) && task.Some? && task.value.projectId != "" ==>
              d.projectId == task.value.projectId
    ensures !TruthyString(selectedProjectId) && (task.None? || task.value.projectId == "") ==>
              d.projectId == (if |projects| > 0 then projects[0].id else "")
  {
    var title := if task.Some? then task.value.title else "";
    var description := if task.Some? then task.value.description else "";
    var status := if task.Some? && task.value.status != "" then task.value.status else "TODO";
    var projectId :=
      if TruthyString(selectedProjectId) then selectedProjectId.value
      else if task.Some? && task.value.projectId != "" then task.value.projectId
      else if |projects| > 0 then projects[0].id
      else "";
    Fields(title, description, Some(status), projectId)
  }

  /** The effect that re-applies a truthy `selectedProjectId` to the form. */
  function ApplySelectedProject(v: Fields, selectedProjectId: Option<string>): (r: Fields)
    ensures TruthyString(selectedProjectId) ==> r == v.(projectId := selectedProjectId.value)
    ensures !TruthyString(selectedProjectId) ==> r == v
  {
    if TruthyString(selectedProjectId) then v.(projectId := selectedProjectId.value) else v
  }

  /** On the default values the effect changes nothing: it only re-applies the default. */
  lemma EffectKeepsDefaults(task: Option<Task>, projects: seq<Project>, selectedProjectId: Option<string>)
    ensures var d := Defaults(task, projects, selectedProjectId);
            ApplySelectedProject(d, selectedProjectId) == d
  {
  }

  /** A new task with no preselected project starts on the first project the selector
      offers, and its project is then valid whenever that project has an id. */
  lemma NewTaskStartsOnFirstOption(projects: seq<Project>)
    requires |projects| > 0
    ensures var d := Defaults(None, projects, None);
            && d.projectId == ProjectOptions(projects)[0].0
            && (projects[0].id != "" ==> Validate(d).projectId.None?)
  {
  }

  /** The status selector's options are the task card's. */
  lemma StatusOptionsAreTaskCards()
    ensures StatusOptions == TaskCard.StatusOptions
  {
  }

  const StatusOptions: seq<(string, string)> :=
    [("TODO", "To Do"), ("IN_PROGRESS", "In Progress"), ("REVIEW", "In Review"), ("DONE", "Done")]

  /** One (value, label) option per project, in order: the id and the name. */
  function ProjectOptions(projects: seq<Project>): (r: seq<(string, string)>)
    ensures |r| == |projects|
    ensures forall i :: 0 <= i < |projects| ==> r[i] == (projects[i].id, projects[i].name)
  {
    seq(|projects|, i requires 0 <= i < |projects| => (projects[i].id, projects[i].name))
  }

  /** The project selector is locked exactly when a project was preselected. */
  function ProjectSelectDisabled(selectedProjectId: Option<string>): (r: bool)
    ensures r <==> TruthyString(selectedProjectId)
  {
    TruthyString(selectedProjectId)
  }

  /** A locked selector already holds the preselected project. */
  lemma LockedSelectorHoldsSelection(task: Option<Task>, projects: seq<Project>, selectedProjectId: Option<string>)
    requires ProjectSelectDisabled(selectedProjectId)
    ensures Defaults(task, projects, selectedProjectId).projectId == selectedProjectId.value
    ensures Validate(Defaults(task, projects, selectedProjectId)).projectId.None?
  {
  }

  function SubmitLabel(task: Option<Task>): (r: string)
    ensures r == "Update Task" <==> task.Some?
    ensures task.None? ==> r == "Create Task"
  {
    if task.Some? then "Update Task" else "Create Task"
  }
}
