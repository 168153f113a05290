/**
 * packages/reporter-nyan/src/NyanReporter.ts: the state behind the nyan
 * cat animation. A tick cycles through 1..4, four rainbow lines grow by one
 * glyph per frame up to the rainbow's width and then scroll, a colour index
 * picks each frame's colour, and the cat's face follows the active routine.
 *
 * A rainbow glyph is kept as the character and the colour applyColor gives
 * it; the escape sequences it is printed with are left out.
 */
module Nyan {
  import opened Wrappers
  import opened Types
  import CoreReporter

  const CAT_WIDTH := 11

  function Min(a: int, b: int): (r: int)
    ensures r <= a && r <= b && (r == a || r == b)
  {
    if a < b then a else b
  }

  /** increaseTick: the tick after `tick`. */
  function NextTick(tick: int): (r: int)
    requires 1 <= tick <= 4
    ensures 1 <= r <= 4
  {
    var t := tick + 1;
    if t == 5 then 1 else t
  }

  /** isInterval: the second half of the tick cycle. */
  predicate IsIntervalTick(tick: int): (b: bool)
    ensures 1 <= tick <= 4 ==> (b <==> tick == 3 || tick == 4)
  {
    tick >= 3
  }

  /**
   * The tick runs 1, 2, 3, 4 and back to 1: it never stays put, and four
   * steps return to the start. The interval holds on ticks 3 and 4 only, so
   * it flips every two steps.
   */
  lemma TickCycles(tick: int)
    requires 1 <= tick <= 4
    ensures NextTick(tick) != tick
    ensures NextTick(tick) == (tick % 4) + 1
    ensures NextTick(NextTick(NextTick(NextTick(tick)))) == tick
    ensures IsIntervalTick(tick) <==> tick == 3 || tick == 4
    ensures IsIntervalTick(NextTick(NextTick(tick))) != IsIntervalTick(tick)
  {
  }

  /** The colour applyColor uses: absent when the terminal has no colour support. */
  datatype Paint =
    | Uncolored            // text returned unchanged
    | Colored(code: int)   // `rainbowColors[colorIndex % rainbowColors.length]`
    | UndefinedColor       // an empty colour list: the index is not a number

  /** One rainbow glyph as applyColor leaves it. */
  datatype Segment = Segment(glyph: char, paint: Paint)

  /** The position in the colour list that the colour index selects. */
  function ColorChoice(colorIndex: nat, colors: seq<int>): (r: Option<nat>)
    ensures r.None? <==> |colors| == 0
    ensures r.Some? ==> r.value < |colors|
  {
    if |colors| == 0 then None else Some(colorIndex % |colors|)
  }

  /** applyColor on one glyph. */
  function PaintFor(colorSupport: bool, colorIndex: nat, colors: seq<int>): (p: Paint)
    ensures !colorSupport <==> p == Uncolored
    ensures colorSupport && |colors| > 0 ==> p == Colored(colors[colorIndex % |colors|])
  {
    if !colorSupport then Uncolored
    else
      var i := ColorChoice(colorIndex, colors);
      if i.Some? then Colored(colors[i.value]) else UndefinedColor
  }

  /** `Array.prototype.shift`: drops the first element; an empty array stays empty. */
  function Shift<X>(line: seq<X>): (r: seq<X>)
    ensures |r| == if line == [] then 0 else |line| - 1
    ensures forall i :: 0 <= i < |r| ==> r[i] == line[i + 1]
  {
    if line == [] then [] else line[1..]
  }

  /** The length a rainbow line settles at: its width, and at least one glyph. */
  function Capacity(width: int): (c: nat)
    ensures c >= 1 && c >= width
    ensures width >= 1 ==> c == width
  {
    if width < 1 then 1 else width
  }

  /** One rainbow line after one frame: the oldest glyph goes once the width is reached, then `s` is added. */
  function Grow(line: seq<Segment>, width: int, s: Segment): (r: seq<Segment>)
    ensures |r| > 0 && r[|r| - 1] == s
    ensures |line| < width ==> r == line + [s]
    ensures |line| >= width && line != [] ==> r == line[1..] + [s]
    ensures |line| <= Capacity(width) ==> |r| == Min(|line| + 1, Capacity(width))
  {
    (if |line| >= width then Shift(line) else line) + [s]
  }

  /** A rainbow line after one frame per glyph of `segs`, oldest first. */
  function GrowAll(line: seq<Segment>, width: int, segs: seq<Segment>): (r: seq<Segment>)
    ensures segs != [] ==> |r| > 0 && r[|r| - 1] == segs[|segs| - 1]
  {
    if segs == [] then line
    else Grow(GrowAll(line, width, segs[..|segs| - 1]), width, segs[|segs| - 1])
  }

  /** A rainbow line started empty holds exactly the newest glyphs, as many as its capacity allows. */
  lemma {:induction false} RainbowKeepsNewest(width: int, segs: seq<Segment>)
    ensures GrowAll([], width, segs) == segs[|segs| - Min(|segs|, Capacity(width))..]
  {
    if segs != [] {
      var n := |segs| - 1;
      RainbowKeepsNewest(width, segs[..n]);
      var k := Min(n, Capacity(width));
      assert segs[..n][n - k..] == segs[n - k..n];
      GrowWindow(segs, n, width);
    }
  }

  /** One frame moves the window of newest glyphs along by one. */
  lemma GrowWindow(segs: seq<Segment>, n: nat, width: int)
    requires n < |segs|
    ensures Grow(segs[n - Min(n, Capacity(width))..n], width, segs[n]) ==
            segs[n + 1 - Min(n + 1, Capacity(width))..n + 1]
  {
    var c := Capacity(width);
    if n < c {
      assert Min(n, c) == n && Min(n + 1, c) == n + 1;
      GrowBelowCapacity(segs, n, width);
    } else {
      assert Min(n, c) == c && Min(n + 1, c) == c;
      GrowAtCapacity(segs, n, width);
    }
  }

  /** Below its capacity a line keeps every glyph and gains the new one. */
  lemma GrowBelowCapacity(segs: seq<Segment>, n: nat, width: int)
    requires n < |segs| && n < Capacity(width)
    ensures Grow(segs[0..n], width, segs[n]) == segs[0..n + 1]
  {
    var prev := segs[0..n];
    if width < 1 {
      assert n == 0 && prev == [];
      assert Grow(prev, width, segs[n]) == [segs[0]];
      assert segs[0..1] == [segs[0]];
    } else {
      assert |prev| < width;
      assert prev + [segs[n]] == segs[0..n + 1];
    }
  }

  /** At its capacity a line drops its oldest glyph and gains the new one. */
  lemma GrowAtCapacity(segs: seq<Segment>, n: nat, width: int)
    requires Capacity(width) <= n < |segs|
    ensures Grow(segs[n - Capacity(width)..n], width, segs[n]) == segs[n + 1 - Capacity(width)..n + 1]
  {
    var c := Capacity(width);
    var prev := segs[n - c..n];
    assert |prev| == c && |prev| >= width && prev != [];
    assert Grow(prev, width, segs[n]) == prev[1..] + [segs[n]];
    assert prev[1..] + [segs[n]] == segs[n + 1 - c..n + 1];
  }

  /**
   * getCatFace's eyes: the reporter's `failed` flag wins; otherwise they
   * follow the active routine's status, and are neutral without one.
   */
  function CatEyes(failed: bool, routine: Option<Status>): (eyes: string)
    ensures failed ==> eyes == "x .x"
    ensures !failed && routine.None? ==> eyes == "- .-"
  {
    var eyes :=
      if routine.None? then "- .-"
      else if routine.value == Failed then "x .x"
      else if routine.value == Skipped || routine.value == Pending then "o .o"
      else if routine.value == Passed then "^ .^"
      else "- .-";
    if failed then "x .x" else eyes
  }

  /**
   * Without the failed flag the face agrees with the colour type the core
   * reporter gives the routine: happy exactly on success, crossed exactly
   * on failure, and neutral exactly while it runs.
   */
  lemma CatEyesAgreeWithColorType(s: Status)
    ensures CatEyes(false, Some(s)) == "^ .^" <==> CoreReporter.GetColorType(s) == CoreReporter.Success
    ensures CatEyes(false, Some(s)) == "x .x" <==> CoreReporter.GetColorType(s) == CoreReporter.Failure
    ensures CatEyes(false, Some(s)) == "- .-" <==> s == Running
    ensures CatEyes(false, Some(s)) == "o .o" <==> s == Skipped || s == Pending
  {
  }

  class NyanReporter<R, T> {
    var activeRoutine: Option<R>
    var activeTask: Option<T>
    var colorIndex: nat
    var failed: bool
    var tick: int
    const rainbows: array<seq<Segment>>
    /** The colour list generateColors computes. */
    const rainbowColors: seq<int>
    const rainbowWidth: int
    /** Whether the terminal supports colour. */
    const colorSupport: bool

    ghost predicate Valid()
      reads this, rainbows
    {
      rainbows.Length == 4 && 1 <= tick <= 4 &&
      forall i :: 0 <= i < 4 ==> |rainbows[i]| <= Capacity(rainbowWidth)
    }

    /** The reporter once bootstrapped on a terminal `columns` wide. */
    constructor (columns: int, rainbowColors: seq<int>, colorSupport: bool)
      ensures Valid() && fresh(rainbows)
      ensures rainbowWidth == columns - CAT_WIDTH * 2
      ensures this.rainbowColors == rainbowColors && this.colorSupport == colorSupport
      ensures activeRoutine == None && activeTask == None
      ensures colorIndex == 0 && !failed && tick == 1
      ensures forall i :: 0 <= i < 4 ==> rainbows[i] == []
    {
      activeRoutine := None;
      activeTask := None;
      colorIndex := 0;
      failed := false;
      tick := 1;
      rainbows := new seq<Segment>[4](_ => []);
      this.rainbowColors := rainbowColors;
      rainbowWidth := columns - CAT_WIDTH * 2;
      this.colorSupport := colorSupport;
    }

    /** handleStop: the run failed exactly when it stopped with an error. */
    method HandleStop<E>(error: Option<E>)
      modifies this`failed
      ensures failed == error.Some?
    {
      failed := error.Some?;
    }

    /** handleRoutine (also on routine.pass and routine.fail): the latest routine. */
    method HandleRoutine(routine: R)
      modifies this`activeRoutine
      ensures activeRoutine == Some(routine)
    {
      activeRoutine := Some(routine);
    }

    /** handleTask: the latest task. */
    method HandleTask(task: T)
      modifies this`activeTask
      ensures activeTask == Some(task)
    {
      activeTask := Some(task);
    }

    /** isInterval: the second half of the tick cycle, ticks 3 and 4. */
    predicate IsInterval(): (b: bool)
      reads this
      ensures 1 <= tick <= 4 ==> (b <==> tick == 3 || tick == 4)
    {
      IsIntervalTick(tick)
    }

    /** The face for the routines' current statuses, given by `statusOf`. */
    function GetCatFace(statusOf: R -> Status): (face: string)
      reads this
      ensures failed ==> face == "( x .x)"
      ensures !failed && activeRoutine.None? ==> face == "( - .-)"
      ensures !failed && activeRoutine.Some? && statusOf(activeRoutine.value) == Passed ==> face == "( ^ .^)"
      ensures !failed && activeRoutine.Some? && statusOf(activeRoutine.value) == Failed ==> face == "( x .x)"
      ensures !failed && activeRoutine.Some? && statusOf(activeRoutine.value) == Skipped ==> face == "( o .o)"
      ensures !failed && activeRoutine.Some? && statusOf(activeRoutine.value) == Pending ==> face == "( o .o)"
      ensures !failed && activeRoutine.Some? && statusOf(activeRoutine.value) == Running ==> face == "( - .-)"
    {
      "( " + CatEyes(failed, if activeRoutine.Some? then Some(statusOf(activeRoutine.value)) else None) + ")"
    }

    /** The glyph this frame adds to every rainbow line. */
    function FrameSegment(): Segment
      reads this
    {
      Segment(if IsInterval() then '_' else '-', PaintFor(colorSupport, colorIndex, rainbowColors))
    }

    method IncreaseTick()
      requires Valid()
      modifies this`tick
      ensures Valid()
      ensures tick == NextTick(old(tick))
    {
      tick := tick + 1;
      if tick == 5 {
        tick := 1;
      }
    }

    /** increaseRainbowWidth: every line grows by this frame's glyph, then the colour moves on. */
    method IncreaseRainbowWidth()
      requires Valid()
      modifies rainbows, this`colorIndex
      ensures Valid()
      ensures colorIndex == old(colorIndex) + 1
      ensures forall i :: 0 <= i < 4 ==> rainbows[i] == Grow(old(rainbows[i]), rainbowWidth, old(FrameSegment()))
    {
      for i := 0 to 4
        invariant forall j :: 0 <= j < i ==> rainbows[j] == Grow(old(rainbows[j]), rainbowWidth, FrameSegment())
        invariant forall j :: i <= j < 4 ==> rainbows[j] == old(rainbows[j])
        invariant forall j :: 0 <= j < 4 ==> |rainbows[j]| <= Capacity(rainbowWidth)
        invariant colorIndex == old(colorIndex)
      {
        var line := rainbows[i];
        if |line| >= rainbowWidth {
          line := Shift(line);
        }
        line := line + [Segment(if IsInterval() then '_' else '-', PaintFor(colorSupport, colorIndex, rainbowColors))];
        rainbows[i] := line;
      }
      colorIndex := colorIndex + 1;
    }

    /** The state renderLines changes: the tick advances before the rainbow grows. */
    method RenderLines()
      requires Valid()
      modifies rainbows, this`tick, this`colorIndex
      ensures Valid()
      ensures tick == NextTick(old(tick)) && colorIndex == old(colorIndex) + 1
      ensures forall i :: 0 <= i < 4 ==>
        rainbows[i] == Grow(old(rainbows[i]), rainbowWidth,
                            Segment(if IsIntervalTick(NextTick(old(tick))) then '_' else '-',
                                    PaintFor(colorSupport, old(colorIndex), rainbowColors)))
    {
      IncreaseTick();
      IncreaseRainbowWidth();
    }
  }
}
