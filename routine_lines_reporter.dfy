/**
 * src/reporters/DefaultReporter.ts: the default reporter that keeps one
 * line per running routine, each with the tasks of that routine that are
 * in progress. Routines and tasks are compared by identity (`===`), so
 * they are modelled by type parameters with equality. The line list
 * behaves as that of packages/core/src/Reporter.ts: lines are appended at
 * the end (`addLine`) and removed with `Without` (`removeLine`).
 */
module RoutineLines {
  import opened Types
  import opened Routines
  import opened CoreReporter

  /**
   * calculateKeyLength: the widest `key.length + depth` over the routine
   * forest, where children sit one level below their parent.
   */
  function KeyLength(routines: seq<RoutineTree>, depth: nat := 0): (r: nat)
    ensures routines == [] ==> r == 0
    ensures forall i :: 0 <= i < |routines| ==> |routines[i].key| + depth <= r
  {
    if routines == [] then 0
    else
      var last := routines[|routines| - 1];
      Max(Max(KeyLength(routines[..|routines| - 1], depth), |last.key| + depth), KeyLength(last.routines, depth + 1))
  }

  /** KeyLength is 0 for no routines, and otherwise the maximum over every routine of the tree. */
  lemma {:induction false} KeyLengthIsMaximum(routines: seq<RoutineTree>, depth: nat)
    ensures routines == [] ==> KeyLength(routines, depth) == 0
    ensures forall e :: e in Entries(routines, depth) ==> |e.key| + e.depth <= KeyLength(routines, depth)
    ensures routines != [] ==>
      exists e :: e in Entries(routines, depth) && |e.key| + e.depth == KeyLength(routines, depth)
  {
    if routines != [] {
      var n := |routines| - 1;
      var last := routines[n];
      KeyLengthIsMaximum(routines[..n], depth);
      KeyLengthIsMaximum(last.routines, depth + 1);
      var here := KeyAt(last.key, depth);
      assert Entries(routines, depth) == Entries(routines[..n], depth) + [here] + Entries(last.routines, depth + 1);
      assert here in Entries(routines, depth);
    }
  }

  /** A task counts as completed once it has passed or been skipped. */
  predicate Completed(s: Status)
  {
    s == Passed || s == Skipped
  }

  /**
   * calculateTaskCompletion (the same in src/DefaultReporter.ts): the
   * number of tasks, given by their statuses, that have completed.
   */
  function CalculateTaskCompletion(tasks: seq<Status>): (r: nat)
    ensures r <= |tasks|
  {
    if tasks == [] then 0
    else
      var n := |tasks| - 1;
      CalculateTaskCompletion(tasks[..n]) + (if Completed(tasks[n]) then 1 else 0)
  }

  /** The completion count is the number of passed tasks plus the number of skipped ones. */
  lemma {:induction false} CompletionCountsPassedAndSkipped(tasks: seq<Status>)
    ensures CalculateTaskCompletion(tasks) == multiset(tasks)[Passed] + multiset(tasks)[Skipped]
  {
    if tasks != [] {
      var n := |tasks| - 1;
      CompletionCountsPassedAndSkipped(tasks[..n]);
      assert tasks == tasks[..n] + [tasks[n]];
      assert multiset(tasks) == multiset(tasks[..n]) + multiset{tasks[n]};
    }
  }

  /** Every task is counted exactly when every task has completed. */
  lemma {:induction false} CompletionIsTotalIffAllCompleted(tasks: seq<Status>)
    ensures CalculateTaskCompletion(tasks) == |tasks| <==> forall i :: 0 <= i < |tasks| ==> Completed(tasks[i])
  {
    if tasks != [] {
      var n := |tasks| - 1;
      CompletionIsTotalIffAllCompleted(tasks[..n]);
      assert forall i :: 0 <= i < n ==> tasks[..n][i] == tasks[i];
    }
  }

  /** One rendered routine: the depth it was started at, the routine and its running tasks. */
  datatype Line<R, T> = Line(depth: int, routine: R, tasks: seq<T>)

  /** `row => row.routine === routine` */
  function LineOf<R(==), T>(routine: R): Line<R, T> -> bool
  {
    (row: Line<R, T>) => row.routine == routine
  }

  /** `t => t === task` */
  function Is<T(==)>(task: T): T -> bool
  {
    t => t == task
  }

  class DefaultReporter<R(==), T(==)> {
    var depth: int
    var keyLength: nat
    var lines: seq<Line<R, T>>
    /** The console's `verbose` option. */
    const verbose: int

    constructor (verbose: int)
      ensures depth == 0 && keyLength == 0 && lines == [] && this.verbose == verbose
    {
      depth := 0;
      keyLength := 0;
      lines := [];
      this.verbose := verbose;
    }

    /** handleStart: the key column is as wide as the widest routine key at its depth. */
    method HandleStart(routines: seq<RoutineTree>)
      modifies this`keyLength
      ensures keyLength == KeyLength(routines)
    {
      keyLength := KeyLength(routines);
    }

    /**
     * handleTask: the task joins the first line of its routine; with no
     * such line, nothing changes.
     */
    method HandleTask(task: T, routine: R)
      modifies this`lines
      ensures var i := FirstMatch(old(lines), LineOf(routine));
        if i.None? then lines == old(lines)
        else lines == old(lines)[i.value := old(lines)[i.value].(tasks := old(lines)[i.value].tasks + [task])]
    {
      var i := FirstMatch(lines, LineOf(routine));
      if i.Some? {
        var line := lines[i.value];
        lines := lines[i.value := line.(tasks := line.tasks + [task])];
      }
    }

    /**
     * handleTaskComplete: every occurrence of the task leaves the first
     * line of its routine; no other line changes.
     */
    method HandleTaskComplete(task: T, routine: R)
      modifies this`lines
      ensures |lines| == |old(lines)|
      ensures var i := FirstMatch(old(lines), LineOf(routine));
        if i.None? then lines == old(lines)
        else
          lines == old(lines)[i.value := old(lines)[i.value].(tasks := Without(old(lines)[i.value].tasks, Is(task)))] &&
          task !in lines[i.value].tasks
    {
      var i := FirstMatch(lines, LineOf(routine));
      if i.Some? {
        var line := lines[i.value];
        var kept := Without(line.tasks, Is(task));
        assert forall k :: 0 <= k < |kept| ==> !Is(task)(kept[k]);
        lines := lines[i.value := line.(tasks := kept)];
      }
    }

    /**
     * handleRoutine: a line for the routine at the current depth, with no
     * tasks; a routine run in series opens one level deeper.
     */
    method HandleRoutine(routine: R, wasParallel: bool)
      modifies this`lines, this`depth
      ensures lines == old(lines) + [Line(old(depth), routine, [])]
      ensures depth == if wasParallel then old(depth) else old(depth) + 1
    {
      lines := lines + [Line(depth, routine, [])];
      if !wasParallel {
        depth := depth + 1;
      }
    }

    /**
     * handleRoutineComplete: a routine run in series closes its level; its
     * lines are removed only below the top level and below verbosity 3.
     */
    method HandleRoutineComplete(routine: R, wasParallel: bool)
      modifies this`lines, this`depth
      ensures depth == if wasParallel then old(depth) else old(depth) - 1
      ensures lines == if depth > 0 && verbose < 3 then Without(old(lines), LineOf(routine)) else old(lines)
    {
      if !wasParallel {
        depth := depth - 1;
      }
      if depth > 0 && verbose < 3 {
        lines := Without(lines, LineOf(routine));
      }
    }
  }

  /** A routine and its completion, reported with the same flag, leave the depth as it was. */
  method RoutinePairRestoresDepth<R(==), T(==)>(reporter: DefaultReporter<R, T>, routine: R, wasParallel: bool)
    modifies reporter
    ensures reporter.depth == old(reporter.depth)
  {
    reporter.HandleRoutine(routine, wasParallel);
    reporter.HandleRoutineComplete(routine, wasParallel);
  }
}
