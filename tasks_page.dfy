/** The task list of src/pages/tasks/Tasks.tsx: the status filter, the selected task and
    the empty-state texts. The filter starts at "ALL"; modal flags are not modelled. */
module TasksPage {
  import opened Values
  import opened Entities
  import Dashboard

  const All := "ALL"

  /** `filteredTasks`: every task under "ALL", otherwise the tasks with exactly that status. */
  function FilteredTasks(tasks: seq<Task>, filter: string): (r: seq<Task>)
    ensures filter == All ==> r == tasks
    ensures filter != All ==> forall t :: t in r <==> t in tasks && t.status == filter
    ensures |r| <= |tasks|
  {
    if filter == All then tasks else WithStatus(tasks, filter)
  }

  /** The filter keeps the tasks' order: filtering a concatenation concatenates the filtered
      parts. */
  lemma FilterKeepsOrder(a: seq<Task>, b: seq<Task>, filter: string)
    ensures FilteredTasks(a + b, filter) == FilteredTasks(a, filter) + FilteredTasks(b, filter)
  {
    if filter != All {
      WithStatusConcat(a, b, filter);
    }
  }

  /** Under a stage filter the list is as long as the dashboard's count for that stage. */
  lemma FilterMatchesCounts(tasks: seq<Task>)
    ensures |FilteredTasks(tasks, "DONE")| == Dashboard.StatsOf(tasks).completed
    ensures |FilteredTasks(tasks, "IN_PROGRESS")| == Dashboard.StatsOf(tasks).inProgress
    ensures |FilteredTasks(tasks, "TODO")| == Dashboard.StatsOf(tasks).todo
    ensures |FilteredTasks(tasks, "REVIEW")| == Dashboard.StatsOf(tasks).review
  {
    WithStatusCount(tasks, "DONE");
    WithStatusCount(tasks, "IN_PROGRESS");
    WithStatusCount(tasks, "TODO");
    WithStatusCount(tasks, "REVIEW");
  }

  function LowerChar(c: char): char {
    if 'A' <= c <= 'Z' then (c as int + 32) as char else c
  }

  /** `toLowerCase`, for ASCII letters. */
  function ToLowerAscii(s: string): (r: string)
    ensures |r| == |s|
    ensures forall i :: 0 <= i < |s| ==> r[i] == LowerChar(s[i])
    ensures forall i :: 0 <= i < |r| ==> !('A' <= r[i] <= 'Z')
  {
    seq(|s|, i requires 0 <= i < |s| => LowerChar(s[i]))
  }

  /** `replace(a, b)` with a one-character pattern: only the first occurrence is replaced. */
  function ReplaceFirst(s: string, a: char, b: char): (r: string)
    ensures |r| == |s|
    ensures forall i :: 0 <= i < |s| ==> r[i] == (if IndexOf(s, a) == Some(i) then b else s[i])
  {
    match IndexOf(s, a)
    case None => s
    case Some(i) => s[..i] + [b] + s[i + 1..]
  }

  /** Lower-casing moves no underscore, so the first one sits where it did. */
  lemma LowerKeepsFirstUnderscore(s: string)
    ensures IndexOf(ToLowerAscii(s), '_') == IndexOf(s, '_')
  {
    var lower := ToLowerAscii(s);
    match IndexOf(s, '_')
    case None =>
      assert '_' !in lower by {
        forall i | 0 <= i < |lower| ensures lower[i] != '_' {
          assert s[i] != '_';
        }
      }
    case Some(k) =>
      assert lower[k] == '_';
      assert '_' !in lower[..k] by {
        forall i | 0 <= i < k ensures lower[..k][i] != '_' {
          assert s[..k][i] == s[i];
        }
      }
  }

  /** The empty-state title: "No tasks found" under "ALL", otherwise "No <stage> tasks" with
      the stage lower-cased and its first underscore turned into a space. */
  function EmptyTitle(filter: string): (r: string)
    ensures filter == All ==> r == "No tasks found"
    ensures filter != All ==> |r| == |filter| + 9 && r[..3] == "No " && r[|filter| + 3..] == " tasks"
    ensures filter != All ==> forall i :: 0 <= i < |filter| ==>
              r[3 + i] == (if IndexOf(filter, '_') == Some(i) then ' ' else LowerChar(filter[i]))
  {
    if filter == All then "No tasks found"
    else
      LowerKeepsFirstUnderscore(filter);
      "No " + ReplaceFirst(ToLowerAscii(filter), '_', ' ') + " tasks"
  }

  /** The empty-state description. */
  function EmptyDescription(filter: string): (r: string)
    ensures r == "Create your first task to get started" <==> filter == All
    ensures filter != All ==> r == "Change the filter or create a new task"
  {
    if filter == All then "Create your first task to get started" else "Change the filter or create a new task"
  }

  lemma ReplaceFirstAbsent(s: string, a: char, b: char)
    requires a !in s
    ensures ReplaceFirst(s, a, b) == s
  {
    assert IndexOf(s, a).None?;
  }

  lemma ReplaceFirstAt(s: string, a: char, b: char, i: nat)
    requires i < |s| && s[i] == a && a !in s[..i]
    ensures IndexOf(s, a) == Some(i)
    ensures ReplaceFirst(s, a, b) == s[..i] + [b] + s[i + 1..]
  {
    assert s[i] in s;
  }

  /** The titles shown for each filter the page offers. */
  lemma EmptyTitleAll()
    ensures EmptyTitle(All) == "No tasks found"
  {
  }

  lemma EmptyTitleTodo()
    ensures EmptyTitle("TODO") == "No todo tasks"
  {
    assert ToLowerAscii("TODO") == "todo";
    ReplaceFirstAbsent("todo", '_', ' ');
  }

  lemma EmptyTitleInProgress()
    ensures EmptyTitle("IN_PROGRESS") == "No in progress tasks"
  {
    var lower := ToLowerAscii("IN_PROGRESS");
    assert lower == "in_progress";
    ReplaceFirstAt(lower, '_', ' ', 2);
    var r := ReplaceFirst(lower, '_', ' ');
    assert r == "in progress";
    assert "No " + r + " tasks" == "No in progress tasks";
  }

  lemma EmptyTitleReview()
    ensures EmptyTitle("REVIEW") == "No review tasks"
  {
    assert ToLowerAscii("REVIEW") == "review";
    ReplaceFirstAbsent("review", '_', ' ');
  }

  lemma EmptyTitleDone()
    ensures EmptyTitle("DONE") == "No done tasks"
  {
    assert ToLowerAscii("DONE") == "done";
    ReplaceFirstAbsent("done", '_', ' ');
  }

  /** Only the first underscore becomes a space. */
  lemma OnlyFirstUnderscoreReplaced()
    ensures EmptyTitle("A_B_C") == "No a b_c tasks"
  {
    var lower := ToLowerAscii("A_B_C");
    assert lower == "a_b_c";
    ReplaceFirstAt(lower, '_', ' ', 1);
    var r := ReplaceFirst(lower, '_', ' ');
    assert r == "a b_c";
    assert "No " + r + " tasks" == "No a b_c tasks";
  }

}
