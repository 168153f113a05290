/**
 * src/DefaultReporter.ts: the default reporter that keeps one line per
 * running routine or task, with the depth it is drawn at. Routines and
 * tasks share the line list and are compared by identity (`===`), so both
 * are modelled by one type parameter with equality. The line list
 * behaves as that of packages/core/src/Reporter.ts: lines are appended at
 * the end (`addLine`) and removed with `Without` (`removeLine`).
 */
module TaskLines {
  import opened Types
  import opened Routines
  import opened CoreReporter
  import RoutineLines

  /** calculateKeyLength: the widest raw key over the whole `subroutines` tree, with no depth offset. */
  function KeyLength(routines: seq<RoutineTree>): (r: nat)
    ensures routines == [] ==> r == 0
    ensures forall i :: 0 <= i < |routines| ==> |routines[i].key| <= r
  {
    if routines == [] then 0
    else
      var last := routines[|routines| - 1];
      Max(Max(KeyLength(routines[..|routines| - 1]), |last.key|), KeyLength(last.routines))
  }

  /** KeyLength is 0 for no routines, and otherwise the longest key of the tree. */
  lemma {:induction false} KeyLengthIsLongestKey(routines: seq<RoutineTree>, depth: nat)
    ensures routines == [] ==> KeyLength(routines) == 0
    ensures forall e :: e in Entries(routines, depth) ==> |e.key| <= KeyLength(routines)
    ensures routines != [] ==> exists e :: e in Entries(routines, depth) && |e.key| == KeyLength(routines)
  {
    if routines != [] {
      var n := |routines| - 1;
      var last := routines[n];
      KeyLengthIsLongestKey(routines[..n], depth);
      KeyLengthIsLongestKey(last.routines, depth + 1);
      var here := KeyAt(last.key, depth);
      assert Entries(routines, depth) == Entries(routines[..n], depth) + [here] + Entries(last.routines, depth + 1);
      assert here in Entries(routines, depth);
    }
  }

  /**
   * The key column of this reporter is never wider than that of the
   * routine-line reporter, which adds each routine's depth to its key.
   */
  lemma KeyLengthWithoutDepthIsNarrower(routines: seq<RoutineTree>)
    ensures KeyLength(routines) <= RoutineLines.KeyLength(routines, 0)
  {
    KeyLengthIsLongestKey(routines, 0);
    RoutineLines.KeyLengthIsMaximum(routines, 0);
  }

  /** getStatusColor: the chalk colour a routine's key is drawn on. */
  function GetStatusColor(s: Status): (c: string)
    ensures c == "yellow" <==> s == Skipped
    ensures c == "green" <==> s == Passed
    ensures c == "red" <==> s == Failed
    ensures c == "white" <==> !IsTerminal(s)
  {
    if s == Skipped then "yellow"
    else if s == Passed then "green"
    else if s == Failed then "red"
    else "white"
  }

  /**
   * The status colours are those of the core reporter's default palette for
   * every finished status; an unfinished status is white here and gray there.
   */
  lemma StatusColorAgreesWithPalette(s: Status)
    ensures IsTerminal(s) ==> GetStatusColor(s) == DefaultPalette(GetColorType(s))
    ensures !IsTerminal(s) ==> GetStatusColor(s) == "white" && DefaultPalette(GetColorType(s)) == "gray"
  {
  }

  /** One rendered routine or task and the depth it is drawn at. */
  datatype Line<U> = Line(depth: int, task: U)

  /** `line => line.task === task` */
  function LineOf<U(==)>(task: U): Line<U> -> bool
  {
    (line: Line<U>) => line.task == task
  }

  class DefaultReporter<U(==)> {
    var depth: int
    var keyLength: nat
    var lines: seq<Line<U>>

    constructor ()
      ensures depth == 0 && keyLength == 0 && lines == []
    {
      depth := 0;
      keyLength := 0;
      lines := [];
    }

    /** handleStart: the key column is as wide as the longest routine key. */
    method HandleStart(routines: seq<RoutineTree>)
      modifies this`keyLength
      ensures keyLength == KeyLength(routines)
    {
      keyLength := KeyLength(routines);
    }

    /** handleTask: a line for the task, one level above the current depth. */
    method HandleTask(task: U)
      modifies this`lines
      ensures lines == old(lines) + [Line(depth - 1, task)]
    {
      lines := lines + [Line(depth - 1, task)];
    }

    /** handleTaskComplete: every line holding the task goes; the others stay, in order. */
    method HandleTaskComplete(task: U)
      modifies this`lines
      ensures lines == Without(old(lines), LineOf(task))
      ensures forall j :: 0 <= j < |lines| ==> lines[j].task != task
    {
      lines := Without(lines, LineOf(task));
      assert forall j :: 0 <= j < |lines| ==> !LineOf(task)(lines[j]);
    }

    /** handleRoutine: a line for the routine at the current depth, then one level deeper. */
    method HandleRoutine(routine: U)
      modifies this`lines, this`depth
      ensures lines == old(lines) + [Line(old(depth), routine)]
      ensures depth == old(depth) + 1
    {
      lines := lines + [Line(depth, routine)];
      depth := depth + 1;
    }

    /** handleRoutineComplete: one level up; no line is removed. */
    method HandleRoutineComplete(routine: U)
      modifies this`depth
      ensures depth == old(depth) - 1
    {
      depth := depth - 1;
    }
  }
}
