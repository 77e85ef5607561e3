/** The task page of src/pages/tasks/TaskDetails.tsx: what it shows for a task id, its own
    copies of the status helpers, and its two handlers, which are stubs. */
module TaskDetails {
  import opened Values
  import opened Entities
  import TaskCard

  /** This page's own `getStatusBadgeVariant`. */
  function BadgeVariant(status: string): string {
    match status
    case "TODO" => "default"
    case "IN_PROGRESS" => "primary"
    case "REVIEW" => "warning"
    case "DONE" => "success"
    case _ => "default"
  }

  /** This page's own `getStatusLabel`. */
  function Label(status: string): string {
    match status
    case "TODO" => "To Do"
    case "IN_PROGRESS" => "In Progress"
    case "REVIEW" => "In Review"
    case "DONE" => "Done"
    case _ => status
  }

  /** This page's own `getProgressPercentage`. */
  function Progress(status: string): int {
    match status
    case "TODO" => 0
    case "IN_PROGRESS" => 33
    case "REVIEW" => 66
    case "DONE" => 100
    case _ => 0
  }

  /** The page's copies agree with the task card's for every status. */
  lemma HelpersMatchTaskCard(status: string)
    ensures BadgeVariant(status) == TaskCard.BadgeVariant(status)
    ensures Label(status) == TaskCard.Label(status)
    ensures Progress(status) == TaskCard.Progress(status)
  {
  }

  /** What the page renders. */
  datatype View =
    | Loading
    | TaskNotFound
    | Shown(task: Task, project: Option<Project>, badge: string, statusLabel: string,
            progress: int, color: string, showsCompletedAt: bool)

  /** The page for a task and the project list, once both queries settled: the task's
      project is the first one with its id ("Project not found" when there is none). */
  function Page(isLoadingTask: bool, isLoadingProjects: bool, task: Option<Task>, projects: seq<Project>): (v: View)
    ensures v == Loading <==> isLoadingTask || isLoadingProjects
    ensures v == TaskNotFound <==> !isLoadingTask && !isLoadingProjects && task.None?
    ensures v.Shown? ==> v.task == task.value
    ensures v.Shown? && v.project.Some? ==> v.project.value in projects && v.project.value.id == task.value.projectId
    ensures v.Shown? && v.project.None? ==> forall p :: p in projects ==> p.id != task.value.projectId
    ensures v.Shown? ==> v.project == FindProject(projects, task.value.projectId)
    ensures v.Shown? ==> v.progress == TaskCard.Progress(task.value.status) && v.statusLabel == TaskCard.Label(task.value.status)
    ensures v.Shown? ==> v.badge == TaskCard.BadgeVariant(task.value.status)
    ensures v.Shown? ==> (v.color == "green" <==> task.value.status == "DONE")
    ensures v.Shown? ==> (v.showsCompletedAt <==> task.value.completedAt.Some?)
  {
    if isLoadingTask || isLoadingProjects then Loading
    else if task.None? then TaskNotFound
    else
      var t := task.value;
      Shown(t, FindProject(projects, t.projectId), BadgeVariant(t.status), Label(t.status),
            Progress(t.status), if t.status == "DONE" then "green" else "blue", t.completedAt.Some?)
  }

  /** `handleUpdateTask`: only closes the edit modal; the task is not updated. */
  function HandleUpdateTask(data: Value): (effects: seq<Effect>)
    ensures SendsNothing(effects) && effects == [CloseModal]
  {
    [CloseModal]
  }

  /** `handleDeleteTask`: only navigates back to the task list; the task is not deleted. */
  function HandleDeleteTask(): (effects: seq<Effect>)
    ensures SendsNothing(effects) && effects == [NavigateTo("/tasks")]
  {
    [NavigateTo("/tasks")]
  }
}
