/**
 * packages/core/src/Reporter.ts: the list of lines a reporter renders and
 * the small helpers every reporter shares. The list operations are also
 * given as functions on sequences, so that the default reporters, which
 * keep their own line lists, use the same definitions.
 */
module CoreReporter {
  import opened Wrappers
  import opened Types

  /** The index of the first element matching `p`, as `Array.prototype.find` scans. */
  function FirstMatch<T>(xs: seq<T>, p: T -> bool): (r: Option<nat>)
    ensures r.Some? ==> r.value < |xs| && p(xs[r.value])
    ensures r.Some? ==> forall j :: 0 <= j < r.value ==> !p(xs[j])
    ensures r.None? <==> forall j :: 0 <= j < |xs| ==> !p(xs[j])
  {
    if xs == [] then None
    else if p(xs[0]) then Some(0)
    else
      var rest := FirstMatch(xs[1..], p);
      if rest.Some? then Some(rest.value + 1) else None
  }

  /** The elements of `xs` that do not match `p`, in their order (`filter(x => !p(x))`). */
  function Without<T>(xs: seq<T>, p: T -> bool): (r: seq<T>)
    ensures |r| <= |xs|
    ensures forall i :: 0 <= i < |r| ==> r[i] in xs && !p(r[i])
    ensures forall i :: 0 <= i < |xs| && !p(xs[i]) ==> xs[i] in r
  {
    if xs == [] then []
    else if p(xs[0]) then Without(xs[1..], p)
    else [xs[0]] + Without(xs[1..], p)
  }

  /**
   * Without is the filter of a single element, lifted over concatenation;
   * together these two facts fix its result, order included.
   */
  lemma {:induction false} WithoutDistributes<T>(a: seq<T>, b: seq<T>, p: T -> bool)
    ensures Without(a + b, p) == Without(a, p) + Without(b, p)
  {
    if a != [] {
      assert (a + b)[1..] == a[1..] + b;
      WithoutDistributes(a[1..], b, p);
    } else {
      assert a + b == b;
    }
  }

  lemma WithoutSingle<T>(x: T, p: T -> bool)
    ensures Without([x], p) == if p(x) then [] else [x]
  {
  }

  /** Removing the same lines twice removes nothing more. */
  lemma {:induction false} WithoutIdempotent<T>(xs: seq<T>, p: T -> bool)
    ensures Without(Without(xs, p), p) == Without(xs, p)
  {
    if xs != [] {
      WithoutIdempotent(xs[1..], p);
      if !p(xs[0]) {
        assert ([xs[0]] + Without(xs[1..], p))[1..] == Without(xs[1..], p);
      }
    }
  }

  /** A list in which nothing matches is left as it is. */
  lemma {:induction false} WithoutNoMatch<T>(xs: seq<T>, p: T -> bool)
    requires forall j :: 0 <= j < |xs| ==> !p(xs[j])
    ensures Without(xs, p) == xs
  {
    if xs != [] {
      WithoutNoMatch(xs[1..], p);
      assert [xs[0]] + xs[1..] == xs;
    }
  }

  /** After the lines matching `p` are removed, no line matches `p`. */
  lemma FindAfterRemove<T>(xs: seq<T>, p: T -> bool)
    ensures FirstMatch(Without(xs, p), p) == None
  {
  }

  /** The colour type a status is rendered in. */
  datatype ColorType = Failure | Pending | Success | Warning

  /** getColorType: skipped, passed and failed have their own colour; every other status is pending. */
  function GetColorType(s: Status): (c: ColorType)
    ensures c == Warning <==> s == Skipped
    ensures c == Success <==> s == Passed
    ensures c == Failure <==> s == Failed
    ensures c == ColorType.Pending <==> !IsTerminal(s)
  {
    if s == Skipped then Warning
    else if s == Passed then Success
    else if s == Failed then Failure
    else ColorType.Pending
  }

  /**
   * The colour type tells the three terminal statuses apart, and gives a
   * status that has not finished the pending colour.
   */
  lemma ColorTypeDistinguishesTerminal(s: Status, s': Status)
    ensures IsTerminal(s) && IsTerminal(s') && GetColorType(s) == GetColorType(s') ==> s == s'
    ensures GetColorType(s) == ColorType.Pending <==> !IsTerminal(s)
  {
  }

  /** The palette used when the theme's own palette does not apply. */
  function DefaultPalette(c: ColorType): (r: string)
    ensures r == "red" <==> c == Failure
    ensures r == "green" <==> c == Success
    ensures r == "yellow" <==> c == Warning
    ensures r == "gray" <==> c.Pending?
  {
    if c.Failure? then "red"
    else if c.Success? then "green"
    else if c.Warning? then "yellow"
    else "gray"
  }

  /** `' '.repeat(length)` throws a RangeError for a negative count. */
  datatype RangeError = RangeError

  /** An indentation of `length` spaces. */
  function Indent(length: int := 0): (r: Result<string, RangeError>)
    ensures r.Err? <==> length < 0
    ensures r.Ok? ==> |r.value| == length && forall i :: 0 <= i < |r.value| ==> r.value[i] == ' '
  {
    if length < 0 then Err(RangeError) else Ok(seq(length, _ => ' '))
  }

  /** The default indentation is empty, and indentations add up. */
  lemma IndentAdds(m: nat, n: nat)
    ensures Indent() == Ok("")
    ensures Indent(m + n).value == Indent(m).value + Indent(n).value
  {
  }

  class Reporter<T> {
    var lines: seq<T>

    constructor ()
      ensures lines == []
    {
      lines := [];
    }

    /** Appends one line at the end; returns the reporter itself. */
    method AddLine(line: T) returns (self: Reporter<T>)
      modifies this`lines
      ensures self == this
      ensures lines == old(lines) + [line]
    {
      lines := lines + [line];
      return this;
    }

    /** The first line matching `callback`, if any. */
    function FindLine(callback: T -> bool): (r: Option<T>)
      reads this
      ensures r.Some? ==> r.value in lines && callback(r.value)
      ensures r.Some? ==> exists i :: 0 <= i < |lines| && lines[i] == r.value && forall j :: 0 <= j < i ==> !callback(lines[j])
      ensures r.None? <==> forall j :: 0 <= j < |lines| ==> !callback(lines[j])
    {
      var i := FirstMatch(lines, callback);
      if i.Some? then Some(lines[i.value]) else None
    }

    /** Keeps exactly the lines that do not match `callback`; returns the reporter itself. */
    method RemoveLine(callback: T -> bool) returns (self: Reporter<T>)
      modifies this`lines
      ensures self == this
      ensures lines == Without(old(lines), callback)
    {
      lines := Without(lines, callback);
      return this;
    }
  }
}
