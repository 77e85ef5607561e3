/** Task requests (src/services/taskService.ts). Each function issues one gateway call and
    returns what the gateway returns, untouched; the model gives the request it issues. */
module TaskService {
  import opened Values
  import opened Gateway

  const TasksPath := "/tasks"
  const ProjectQuery := "/tasks?projectId="
  const TaskPrefix := "/tasks/"

  /** `getTasks(projectId?)`: the project filter is added only for a truthy id, and the id
      goes into the query string as it is, without percent-encoding. */
  function GetTasks(projectId: Option<string>): HttpRequest {
    var url := if projectId.Some? && projectId.value != "" then ProjectQuery + projectId.value else TasksPath;
    HttpRequest(GET, url, None)
  }

  function GetTaskById(taskId: string): HttpRequest {
    HttpRequest(GET, TaskPrefix + taskId, None)
  }

  function CreateTask(taskData: Value): HttpRequest {
    HttpRequest(POST, TasksPath, Some(taskData))
  }

  function UpdateTask(taskId: string, taskData: Value): HttpRequest {
    HttpRequest(PUT, TaskPrefix + taskId, Some(taskData))
  }

  function DeleteTask(taskId: string): HttpRequest {
    HttpRequest(DELETE, TaskPrefix + taskId, None)
  }

  /** The project filter a list URL carries, read back from the query string. */
  function ProjectFilterOf(url: string): Option<string> {
    if |url| >= |ProjectQuery| && url[..|ProjectQuery|] == ProjectQuery then Some(url[|ProjectQuery|..])
    else None
  }

  /** The task a single-task URL addresses, read back from the path. */
  function TaskIdOf(url: string): Option<string> {
    if |url| >= |TaskPrefix| && url[..|TaskPrefix|] == TaskPrefix then Some(url[|TaskPrefix|..]) else None
  }

  /** The list request is a GET without body; an absent or empty project id requests exactly
      "/tasks", and any other id is read back verbatim from the URL. */
  lemma GetTasksRoundTrip(projectId: Option<string>)
    ensures GetTasks(projectId).verb == GET && GetTasks(projectId).body == None
    ensures projectId.None? || projectId == Some("") ==> GetTasks(projectId).url == TasksPath
    ensures ProjectFilterOf(GetTasks(projectId).url) ==
              if projectId.Some? && projectId.value != "" then projectId else None
    ensures TaskIdOf(GetTasks(projectId).url).None?
  {
    var url := GetTasks(projectId).url;
    if projectId.Some? && projectId.value != "" {
      assert url[..|ProjectQuery|] == ProjectQuery;
      assert url[|TaskPrefix| - 1] == '?';
    }
  }

  /** Reading, updating and deleting a task address "/tasks/" + its id with GET, PUT and
      DELETE; the id is read back verbatim, and only the update carries a body, unchanged. */
  lemma SingleTaskRequests(taskId: string, taskData: Value)
    ensures GetTaskById(taskId).verb == GET && GetTaskById(taskId).body == None
    ensures UpdateTask(taskId, taskData).verb == PUT && UpdateTask(taskId, taskData).body == Some(taskData)
    ensures DeleteTask(taskId).verb == DELETE && DeleteTask(taskId).body == None
    ensures TaskIdOf(GetTaskById(taskId).url) == Some(taskId)
    ensures TaskIdOf(UpdateTask(taskId, taskData).url) == Some(taskId)
    ensures TaskIdOf(DeleteTask(taskId).url) == Some(taskId)
    ensures ProjectFilterOf(GetTaskById(taskId).url).None?
  {
    var url := TaskPrefix + taskId;
    assert url[..|TaskPrefix|] == TaskPrefix;
    assert url[|TaskPrefix| - 1] == '/';
  }

  /** Creating a task POSTs its data unchanged to the list path. */
  lemma CreateTaskRequest(taskData: Value)
    ensures CreateTask(taskData) == HttpRequest(POST, TasksPath, Some(taskData))
    ensures CreateTask(taskData).url == GetTasks(None).url
  {
  }
}
