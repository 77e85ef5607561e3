/** The records the pages work with (src/types/task.ts, src/types/project.ts), the list
    operations several pages share (`filter` by status, `find` by id), and the effects a
    page handler can have. */
module Entities {
  import opened Values
  import opened Gateway

  /** A task; its timestamps are integers (date parsing is not modelled). */
  datatype Task = Task(
    id: string, title: string, description: string, status: string,
    projectId: string, userId: string, createdAt: int, updatedAt: int, completedAt: Option<int>)

  /** A project; `taskCount` is computed by the server. */
  datatype Project = Project(
    id: string, name: string, description: string, userId: string,
    createdAt: int, updatedAt: int, taskCount: Option<int>)

  /** What a page handler does: close its modal, navigate, or send a request. */
  datatype Effect = CloseModal | NavigateTo(path: string) | Send(request: HttpRequest)

  predicate SendsNothing(effects: seq<Effect>) {
    forall e :: e in effects ==> !e.Send?
  }

  /** `tasks.filter(t => t.status === status)`. */
  function WithStatus(tasks: seq<Task>, status: string): (r: seq<Task>)
    ensures |r| <= |tasks|
    ensures forall t :: t in r <==> t in tasks && t.status == status
    decreases |tasks|
  {
    if tasks == [] then []
    else (if tasks[0].status == status then [tasks[0]] else []) + WithStatus(tasks[1..], status)
  }

  /** Filtering distributes over concatenation: it keeps the order of the tasks it keeps. */
  lemma {:induction false} WithStatusConcat(a: seq<Task>, b: seq<Task>, status: string)
    ensures WithStatus(a + b, status) == WithStatus(a, status) + WithStatus(b, status)
    decreases |a|
  {
    if a == [] {
      assert a + b == b;
    } else {
      assert (a + b)[0] == a[0];
      assert (a + b)[1..] == a[1..] + b;
      WithStatusConcat(a[1..], b, status);
    }
  }

  /** The statuses of a task list, in order. */
  function Statuses(tasks: seq<Task>): seq<string> {
    seq(|tasks|, i requires 0 <= i < |tasks| => tasks[i].status)
  }

  /** The number of tasks a status filter keeps is the number of times that status occurs. */
  lemma {:induction false} WithStatusCount(tasks: seq<Task>, status: string)
    ensures |WithStatus(tasks, status)| == multiset(Statuses(tasks))[status]
    decreases |tasks|
  {
    if tasks != [] {
      WithStatusCount(tasks[1..], status);
      assert Statuses(tasks) == [tasks[0].status] + Statuses(tasks[1..]);
    }
  }

  /** The index of the first element satisfying `p`. */
  function FirstMatch<T>(xs: seq<T>, p: T -> bool): (r: Option<nat>)
    ensures r.Some? ==> r.value < |xs| && p(xs[r.value]) && forall j :: 0 <= j < r.value ==> !p(xs[j])
    ensures r.None? ==> forall j :: 0 <= j < |xs| ==> !p(xs[j])
    decreases |xs|
  {
    if xs == [] then None
    else if p(xs[0]) then Some(0)
    else
      match FirstMatch(xs[1..], p)
      case None => None
      case Some(i) => Some(i + 1)
  }

  /** `tasks.find(t => t.id === id)`. */
  function FindTask(tasks: seq<Task>, id: string): (r: Option<Task>)
    ensures r.Some? ==> r.value in tasks && r.value.id == id
    ensures r.None? <==> forall t :: t in tasks ==> t.id != id
    ensures r.Some? ==> exists i :: 0 <= i < |tasks| && tasks[i] == r.value && forall j :: 0 <= j < i ==> tasks[j].id != id
  {
    match FirstMatch(tasks, (t: Task) => t.id == id)
    case None => None
    case Some(i) => Some(tasks[i])
  }

  /** `projects.find(p => p.id === id)`. */
  function FindProject(projects: seq<Project>, id: string): (r: Option<Project>)
    ensures r.Some? ==> r.value in projects && r.value.id == id
    ensures r.None? <==> forall p :: p in projects ==> p.id != id
    ensures r.Some? ==> exists i :: 0 <= i < |projects| && projects[i] == r.value && forall j :: 0 <= j < i ==> projects[j].id != id
  {
    match FirstMatch(projects, (p: Project) => p.id == id)
    case None => None
    case Some(i) => Some(projects[i])
  }

  /** `selectedTaskId ? tasks.find(t => t.id === selectedTaskId) : null`: nothing when no
      task is selected (an empty id is falsy), else the first task with that id. */
  function SelectedTask(tasks: seq<Task>, selectedTaskId: Option<string>): (r: Option<Task>)
    ensures selectedTaskId.None? || selectedTaskId == Some("") ==> r.None?
    ensures r.Some? ==> r.value in tasks && Some(r.value.id) == selectedTaskId
    ensures selectedTaskId.Some? && selectedTaskId.value != "" ==> r == FindTask(tasks, selectedTaskId.value)
    ensures selectedTaskId.Some? && selectedTaskId.value != "" && (exists t :: t in tasks && t.id == selectedTaskId.value) ==>
              r.Some?
  {
    if selectedTaskId.Some? && selectedTaskId.value != "" then FindTask(tasks, selectedTaskId.value) else None
  }
}
