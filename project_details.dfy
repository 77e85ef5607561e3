/** The project page of src/pages/projects/ProjectDetails.tsx: what it shows, the task
    statistics it computes (the dashboard's rule applied to the project's tasks), and the
    requests its handlers send. Modal and selection flags are not modelled. */
module ProjectDetails {
  import opened Values
  import opened Gateway
  import opened Entities
  import TaskService
  import Dashboard

  /** What the page renders. */
  datatype View =
    | Loading
    | ProjectNotFound
    | Shown(project: Project, stats: Dashboard.Stats, completionRate: real, selectedTask: Option<Task>)

  /** The page once its project and task queries are in: statistics are computed only for a
      project that was found. */
  function Page(isLoadingProject: bool, isLoadingTasks: bool, project: Option<Project>, tasks: seq<Task>,
                selectedTaskId: Option<string>): (v: View)
    ensures v == Loading <==> isLoadingProject || isLoadingTasks
    ensures v == ProjectNotFound <==> !isLoadingProject && !isLoadingTasks && project.None?
    ensures v.Shown? ==> v.project == project.value
    ensures v.Shown? ==> v.stats.total == |tasks| && v.stats.completed == multiset(Statuses(tasks))["DONE"]
    ensures v.Shown? ==> v.stats.inProgress == multiset(Statuses(tasks))["IN_PROGRESS"]
    ensures v.Shown? ==> v.stats.todo == multiset(Statuses(tasks))["TODO"] && v.stats.review == multiset(Statuses(tasks))["REVIEW"]
    ensures v.Shown? && |tasks| == 0 ==> v.completionRate == 0.0
    ensures v.Shown? ==> v.stats == Dashboard.StatsOf(tasks) && v.completionRate == Dashboard.CompletionRate(v.stats)
    ensures v.Shown? && v.selectedTask.Some? ==> v.selectedTask.value in tasks && Some(v.selectedTask.value.id) == selectedTaskId
    ensures v.Shown? && (selectedTaskId.None? || selectedTaskId == Some("")) ==> v.selectedTask.None?
    ensures v.Shown? ==> v.selectedTask == SelectedTask(tasks, selectedTaskId)
  {
    if isLoadingProject || isLoadingTasks then Loading
    else if project.None? then ProjectNotFound
    else
      var stats := Dashboard.StatsOf(tasks);
      Shown(project.value, stats, Dashboard.CompletionRate(stats), SelectedTask(tasks, selectedTaskId))
  }

  /** The page's statistics are the dashboard's for the same tasks: the same counts, and a
      completion rate within 0..100 that is 100 exactly when every task is done. */
  lemma StatisticsMatchDashboard(project: Project, tasks: seq<Task>, selectedTaskId: Option<string>)
    ensures var v := Page(false, false, Some(project), tasks, selectedTaskId);
            && v.Shown?
            && v.stats == Dashboard.StatsOf(tasks)
            && 0.0 <= v.completionRate <= 100.0
            && (v.completionRate == 100.0 <==> |tasks| > 0 && forall t :: t in tasks ==> t.status == "DONE")
  {
    Dashboard.CompletionRateBounds(tasks);
  }

  /** `{ ...data, projectId: project.id }`. */
  function CreateTaskPayload(data: Value, project: Project): (body: Value)
    ensures body.Obj? && body.fields.Keys == Spread(data).Keys + {"projectId"}
    ensures body.fields["projectId"] == Str(project.id)
    ensures forall k :: k in Spread(data) && k != "projectId" ==> body.fields[k] == Spread(data)[k]
  {
    Obj(Spread(data)["projectId" := Str(project.id)])
  }

  /** `handleCreateTask`: creates the task in this project, whatever project the form chose. */
  function HandleCreateTask(project: Project, data: Value): (effects: seq<Effect>)
    ensures |effects| == 1 && effects[0].Send?
    ensures effects[0].request.verb == POST && effects[0].request.url == TaskService.TasksPath
    ensures effects[0].request.body == Some(CreateTaskPayload(data, project))
  {
    [Send(TaskService.CreateTask(CreateTaskPayload(data, project)))]
  }

  /** `handleUpdateTask`: sends the form data for the selected task; nothing without one. */
  function HandleUpdateTask(selectedTaskId: Option<string>, data: Value): (effects: seq<Effect>)
    ensures selectedTaskId.None? || selectedTaskId == Some("") <==> effects == []
    ensures effects != [] ==> effects == [Send(HttpRequest(PUT, TaskService.TaskPrefix + selectedTaskId.value, Some(data)))]
  {
    if selectedTaskId.Some? && selectedTaskId.value != "" then
      [Send(TaskService.UpdateTask(selectedTaskId.value, data))]
    else []
  }

  /** `handleDeleteTask`: deletes the selected task; nothing without one. */
  function HandleDeleteTask(selectedTaskId: Option<string>): (effects: seq<Effect>)
    ensures selectedTaskId.None? || selectedTaskId == Some("") <==> effects == []
    ensures effects != [] ==> effects == [Send(HttpRequest(DELETE, TaskService.TaskPrefix + selectedTaskId.value, None))]
  {
    if selectedTaskId.Some? && selectedTaskId.value != "" then
      [Send(TaskService.DeleteTask(selectedTaskId.value))]
    else []
  }

  /** `handleStatusChange`: updates the task with a payload holding the status and nothing
      else. */
  function HandleStatusChange(taskId: string, status: string): (effects: seq<Effect>)
    ensures |effects| == 1 && effects[0].Send?
    ensures effects[0].request.verb == PUT && effects[0].request.url == TaskService.TaskPrefix + taskId
    ensures effects[0].request.body.Some? && effects[0].request.body.value.Obj?
    ensures effects[0].request.body.value.fields.Keys == {"status"}
    ensures effects[0].request.body.value.fields["status"] == Str(status)
  {
    [Send(TaskService.UpdateTask(taskId, Obj(map["status" := Str(status)])))]
  }

  /** The edit-project form's submit only closes its modal: the project is not updated. */
  function EditProjectSubmit(data: Value): (effects: seq<Effect>)
    ensures SendsNothing(effects) && effects == [CloseModal]
  {
    [CloseModal]
  }

  /** The delete-project confirmation only navigates to the project list: nothing is deleted. */
  function DeleteProjectConfirm(): (effects: seq<Effect>)
    ensures SendsNothing(effects) && effects == [NavigateTo("/projects")]
  {
    [NavigateTo("/projects")]
  }
}
