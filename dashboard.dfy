/** The statistics of src/pages/dashboard/Dashboard.tsx: per-status counts, the completion
    rate, the bar scale, and the newest projects and tasks. The same counting rule serves
    src/pages/projects/ProjectDetails.tsx. */
module Dashboard {
  import opened Entities
  import TaskCard

  /** `totalTasks` and the four `filter(..).length` counts. */
  datatype Stats = Stats(total: nat, completed: nat, inProgress: nat, todo: nat, review: nat)

  function StatsOf(tasks: seq<Task>): (s: Stats)
    ensures s.total == |tasks|
    ensures s.completed == multiset(Statuses(tasks))["DONE"]
    ensures s.inProgress == multiset(Statuses(tasks))["IN_PROGRESS"]
    ensures s.todo == multiset(Statuses(tasks))["TODO"]
    ensures s.review == multiset(Statuses(tasks))["REVIEW"]
  {
    WithStatusCount(tasks, "DONE");
    WithStatusCount(tasks, "IN_PROGRESS");
    WithStatusCount(tasks, "TODO");
    WithStatusCount(tasks, "REVIEW");
    Stats(|tasks|, |WithStatus(tasks, "DONE")|, |WithStatus(tasks, "IN_PROGRESS")|,
          |WithStatus(tasks, "TODO")|, |WithStatus(tasks, "REVIEW")|)
  }

  /** How many tasks are in one of the four stages, stage by stage. */
  function StageCount(tasks: seq<Task>): nat {
    |WithStatus(tasks, "TODO")| + |WithStatus(tasks, "IN_PROGRESS")|
      + |WithStatus(tasks, "REVIEW")| + |WithStatus(tasks, "DONE")|
  }

  lemma {:induction false} StageCountBound(tasks: seq<Task>)
    ensures StageCount(tasks) <= |tasks|
    ensures (forall i :: 0 <= i < |tasks| ==> tasks[i].status in TaskCard.Stages) ==> StageCount(tasks) == |tasks|
    decreases |tasks|
  {
    if tasks != [] {
      var tail := tasks[1..];
      StageCountBound(tail);
      var head := tasks[0].status;
      assert StageCount(tasks) == (if head in TaskCard.Stages then 1 else 0) + StageCount(tail);
      if forall i :: 0 <= i < |tasks| ==> tasks[i].status in TaskCard.Stages {
        forall i | 0 <= i < |tail| ensures tail[i].status in TaskCard.Stages {
          assert tail[i] == tasks[i + 1];
        }
      }
    }
  }

  /** The four counts never exceed the number of tasks, and add up to it exactly when every
      task is in one of the four stages. */
  lemma CountsSum(tasks: seq<Task>)
    ensures var s := StatsOf(tasks);
            s.completed + s.inProgress + s.todo + s.review <= s.total
    ensures var s := StatsOf(tasks);
            (forall t :: t in tasks ==> t.status in TaskCard.Stages) ==>
              s.completed + s.inProgress + s.todo + s.review == s.total
  {
    StageCountBound(tasks);
  }

  /** `completedTasks / totalTasks * 100`, or 0 without tasks (exact arithmetic; the
      browser's floating point is not modelled). */
  function CompletionRate(s: Stats): real {
    if s.total > 0 then (s.completed as real / s.total as real) * 100.0 else 0.0
  }

  lemma RatioBounds(c: nat, n: nat)
    requires 0 < n && c <= n
    ensures 0.0 <= (c as real / n as real) * 100.0 <= 100.0
    ensures (c as real / n as real) * 100.0 == 100.0 <==> c == n
  {
    var q := c as real / n as real;
    assert q * n as real == c as real;
    assert q >= 0.0;
    if q == 1.0 {
      assert c as real == n as real;
    }
  }

  /** The completion rate is 0 without tasks, within 0..100 always, and 100 exactly when
      every task is done. */
  lemma CompletionRateBounds(tasks: seq<Task>)
    ensures |tasks| == 0 ==> CompletionRate(StatsOf(tasks)) == 0.0
    ensures 0.0 <= CompletionRate(StatsOf(tasks)) <= 100.0
    ensures CompletionRate(StatsOf(tasks)) == 100.0 <==> |tasks| > 0 && forall t :: t in tasks ==> t.status == "DONE"
  {
    var s := StatsOf(tasks);
    WithStatusAll(tasks, "DONE");
    assert s.completed == |WithStatus(tasks, "DONE")|;
    if s.total > 0 {
      RatioBounds(s.completed, s.total);
    }
  }

  /** A filter keeps every task exactly when every task has the status. */
  lemma {:induction false} WithStatusAll(tasks: seq<Task>, status: string)
    ensures |WithStatus(tasks, status)| == |tasks| <==> forall t :: t in tasks ==> t.status == status
    decreases |tasks|
  {
    if tasks != [] {
      WithStatusAll(tasks[1..], status);
      assert forall t :: t in tasks <==> t == tasks[0] || t in tasks[1..];
    }
  }

  /** `max={totalTasks || 1}` of the per-status bars. */
  function BarMax(total: nat): (m: nat)
    ensures m >= 1
    ensures total > 0 ==> m == total
    ensures total == 0 ==> m == 1
  {
    if total != 0 then total else 1
  }

  // ---------------------------------------------------------------------------------
  // Newest first
  // ---------------------------------------------------------------------------------

  predicate NewestFirst<T>(s: seq<T>, createdAt: T -> int) {
    forall i, j :: 0 <= i < j < |s| ==> createdAt(s[i]) >= createdAt(s[j])
  }

  /** Inserts `x` before the first element that is not newer than it. */
  function Insert<T>(x: T, sorted: seq<T>, createdAt: T -> int): seq<T>
    decreases |sorted|
  {
    if sorted == [] || createdAt(x) >= createdAt(sorted[0]) then [x] + sorted
    else [sorted[0]] + Insert(x, sorted[1..], createdAt)
  }

  /** `[...xs].sort((a, b) => b.createdAt - a.createdAt)`: a sort, newest first, on a copy. */
  function SortNewestFirst<T>(xs: seq<T>, createdAt: T -> int): seq<T>
    decreases |xs|
  {
    if xs == [] then [] else Insert(xs[0], SortNewestFirst(xs[1..], createdAt), createdAt)
  }

  lemma {:induction false} InsertPermutes<T>(x: T, sorted: seq<T>, createdAt: T -> int)
    ensures multiset(Insert(x, sorted, createdAt)) == multiset(sorted) + multiset{x}
    ensures |Insert(x, sorted, createdAt)| == |sorted| + 1
    decreases |sorted|
  {
    if sorted != [] && createdAt(x) < createdAt(sorted[0]) {
      InsertPermutes(x, sorted[1..], createdAt);
      assert sorted == [sorted[0]] + sorted[1..];
    }
  }

  lemma InsertHead<T>(x: T, sorted: seq<T>, createdAt: T -> int)
    ensures |Insert(x, sorted, createdAt)| > 0
    ensures Insert(x, sorted, createdAt)[0] == x || (sorted != [] && Insert(x, sorted, createdAt)[0] == sorted[0])
  {
  }

  lemma {:induction false} InsertKeepsOrder<T>(x: T, sorted: seq<T>, createdAt: T -> int)
    requires NewestFirst(sorted, createdAt)
    ensures NewestFirst(Insert(x, sorted, createdAt), createdAt)
    decreases |sorted|
  {
    if sorted != [] && createdAt(x) < createdAt(sorted[0]) {
      var tail := sorted[1..];
      InsertKeepsOrder(x, tail, createdAt);
      InsertPermutes(x, tail, createdAt);
      InsertHead(x, tail, createdAt);
      var ins := Insert(x, tail, createdAt);
      assert createdAt(ins[0]) <= createdAt(sorted[0]) by {
        if ins[0] != x {
          assert ins[0] == sorted[1];
        }
      }
      var r := [sorted[0]] + ins;
      assert Insert(x, sorted, createdAt) == r;
      forall i, j | 0 <= i < j < |r| ensures createdAt(r[i]) >= createdAt(r[j]) {
        assert r[j] == ins[j - 1];
        if i == 0 {
          if j > 1 {
            assert createdAt(ins[0]) >= createdAt(ins[j - 1]);
          }
        } else {
          assert r[i] == ins[i - 1];
        }
      }
    }
  }

  /** The sort returns the same elements, newest first. */
  lemma {:induction false} SortIsNewestFirstPermutation<T>(xs: seq<T>, createdAt: T -> int)
    ensures NewestFirst(SortNewestFirst(xs, createdAt), createdAt)
    ensures multiset(SortNewestFirst(xs, createdAt)) == multiset(xs)
    ensures |SortNewestFirst(xs, createdAt)| == |xs|
    decreases |xs|
  {
    if xs != [] {
      SortIsNewestFirstPermutation(xs[1..], createdAt);
      InsertKeepsOrder(xs[0], SortNewestFirst(xs[1..], createdAt), createdAt);
      InsertPermutes(xs[0], SortNewestFirst(xs[1..], createdAt), createdAt);
      assert xs == [xs[0]] + xs[1..];
    }
  }

  /** `[...xs].sort(..).slice(0, n)`. */
  function Newest<T>(xs: seq<T>, createdAt: T -> int, n: nat): seq<T> {
    var sorted := SortNewestFirst(xs, createdAt);
    SortIsNewestFirstPermutation(xs, createdAt);
    sorted[..if n < |sorted| then n else |sorted|]
  }

  /** The newest `n`: at most `n` of the given elements (all of them when there are fewer),
      newest first, and any element newer than one that is kept is kept too. */
  lemma NewestSelection<T>(xs: seq<T>, createdAt: T -> int, n: nat)
    ensures var r := Newest(xs, createdAt, n);
            && |r| == (if n < |xs| then n else |xs|)
            && multiset(r) <= multiset(xs)
            && NewestFirst(r, createdAt)
            && forall x, y :: x in r && y in xs && createdAt(y) > createdAt(x) ==> y in r
  {
    var sorted := SortNewestFirst(xs, createdAt);
    SortIsNewestFirstPermutation(xs, createdAt);
    var m := if n < |sorted| then n else |sorted|;
    var r := sorted[..m];
    assert r == Newest(xs, createdAt, n);
    PrefixIsSubMultiset(sorted, m);
    forall x, y | x in r && y in xs && createdAt(y) > createdAt(x) ensures y in r {
      var i :| 0 <= i < |r| && r[i] == x;
      assert y in multiset(sorted);
      var j :| 0 <= j < |sorted| && sorted[j] == y;
      assert r[j] == y;
    }
  }

  lemma PrefixIsSubMultiset<T>(s: seq<T>, m: nat)
    requires m <= |s|
    ensures multiset(s[..m]) <= multiset(s)
  {
    assert s == s[..m] + s[m..];
  }

  /** The three newest projects: all of them when there are fewer, newest first, and no
      project newer than a shown one is left out. */
  function RecentProjects(projects: seq<Project>): (r: seq<Project>)
    ensures |r| == (if |projects| < 3 then |projects| else 3)
    ensures multiset(r) <= multiset(projects)
    ensures NewestFirst(r, (p: Project) => p.createdAt)
    ensures forall x, y :: x in r && y in projects && y.createdAt > x.createdAt ==> y in r
  {
    NewestSelection(projects, (p: Project) => p.createdAt, 3);
    Newest(projects, (p: Project) => p.createdAt, 3)
  }

  /** The five newest tasks, in the same sense. */
  function RecentTasks(tasks: seq<Task>): (r: seq<Task>)
    ensures |r| == (if |tasks| < 5 then |tasks| else 5)
    ensures multiset(r) <= multiset(tasks)
    ensures NewestFirst(r, (t: Task) => t.createdAt)
    ensures forall x, y :: x in r && y in tasks && y.createdAt > x.createdAt ==> y in r
  {
    NewestSelection(tasks, (t: Task) => t.createdAt, 5);
    Newest(tasks, (t: Task) => t.createdAt, 5)
  }

  /** What the dashboard renders. */
  datatype View =
    | Loading
    | Shown(totalProjects: nat, stats: Stats, completionRate: real, barMax: nat,
            recentProjects: seq<Project>, recentTasks: seq<Task>)

  function Page(isLoadingProjects: bool, isLoadingTasks: bool, projects: seq<Project>, tasks: seq<Task>): (v: View)
    ensures v == Loading <==> isLoadingProjects || isLoadingTasks
    ensures v.Shown? ==> v.totalProjects == |projects| && v.stats == StatsOf(tasks)
    ensures v.Shown? ==> v.completionRate == CompletionRate(StatsOf(tasks)) && 0.0 <= v.completionRate <= 100.0
    ensures v.Shown? ==> v.barMax == BarMax(|tasks|) && v.barMax >= 1
    ensures v.Shown? ==> v.recentProjects == RecentProjects(projects) && v.recentTasks == RecentTasks(tasks)
  {
    if isLoadingProjects || isLoadingTasks then Loading
    else
      var stats := StatsOf(tasks);
      CompletionRateBounds(tasks);
      Shown(|projects|, stats, CompletionRate(stats), BarMax(stats.total), RecentProjects(projects), RecentTasks(tasks))
  }
}
