/**
 * The work-unit status machine of src/Task.ts: a task with a title, an
 * optional action, a status, a free-form status text, the context of its
 * last run and the frame of its progress spinner.
 *
 * The action is a caller-supplied function from the input value and the
 * context to an outcome (`Ok` for a resolved value, `Err` for a thrown or
 * rejected error). The spinner's frames, which the source takes from the
 * elegant-spinner package, are given when the task is built.
 */
module Tasks {
  import opened Wrappers
  import opened Types

  /** The `title` argument as the constructor sees it at run time. */
  datatype TitleArg = StringTitle(s: string) | NonStringTitle

  /** The `action` argument: `null` (also its default), a function, or any other value. */
  datatype ActionArg<F> = NullAction | FunctionAction(f: F) | NonFunctionAction

  const TITLE_ERROR := "Tasks require a title."
  const ACTION_ERROR := "Tasks require an executable function."

  /**
   * The constructor's validation and its choice of initial status: the
   * title is checked first, then the action; a task with a function starts
   * pending and a task without one starts skipped.
   */
  function InitialStatus<F>(title: TitleArg, action: ActionArg<F>): (r: Result<Status, string>)
    ensures r == Err(TITLE_ERROR) <==> title.NonStringTitle? || title.s == ""
    ensures r == Err(ACTION_ERROR) <==> title.StringTitle? && title.s != "" && action.NonFunctionAction?
    ensures r.Ok? <==> title.StringTitle? && title.s != "" && !action.NonFunctionAction?
    ensures r == Ok(Pending) <==> r.Ok? && action.FunctionAction?
    ensures r == Ok(Skipped) <==> r.Ok? && action.NullAction?
  {
    if title.NonStringTitle? || title.s == "" then Err(TITLE_ERROR)
    else if action.NonFunctionAction? then Err(ACTION_ERROR)
    else if action.FunctionAction? then Ok(Pending)
    else Ok(Skipped)
  }

  /** The action a task stores for an accepted `action` argument. */
  function StoredAction<F>(action: ActionArg<F>): (r: Option<F>)
    ensures r.Some? <==> action.FunctionAction?
    ensures r.Some? ==> r.value == action.f
  {
    if action.FunctionAction? then Some(action.f) else None
  }

  class Task<V, C, E> {
    var action: Option<(V, C) -> Result<V, E>>
    var title: string
    var status: Status
    var statusText: string
    var context: Option<C>
    var frame: nat
    const frames: seq<string>

    /** Every status the task has been given, oldest first. */
    ghost var trace: seq<Status>
    /** The arguments of every call of the action, oldest first. */
    ghost var invocations: seq<(V, C)>

    ghost predicate Valid()
      reads this
    {
      frame < |frames| && |trace| > 0 && trace[|trace| - 1] == status
    }

    /** The constructor for arguments it accepts (see Create for the throwing path). */
    constructor (title: string, action: ActionArg<(V, C) -> Result<V, E>>, frames: seq<string>)
      requires InitialStatus(StringTitle(title), action).Ok?
      requires |frames| > 0
      ensures Valid()
      ensures this.title == title && this.action == StoredAction(action) && this.frames == frames
      ensures status == InitialStatus(StringTitle(title), action).value
      ensures statusText == "" && context == None && frame == 0
      ensures trace == [status] && invocations == []
    {
      this.action := StoredAction(action);
      this.title := title;
      this.frames := frames;
      status := if action.FunctionAction? then Pending else Skipped;
      statusText := "";
      context := None;
      frame := 0;
      trace := [if action.FunctionAction? then Pending else Skipped];
      invocations := [];
    }

    /** `new Task(title, action)`: a new task, or the error the constructor throws. */
    static method Create(title: TitleArg, action: ActionArg<(V, C) -> Result<V, E>>, frames: seq<string>)
      returns (r: Result<Task<V, C, E>, string>)
      requires |frames| > 0
      ensures InitialStatus(title, action).Err? ==> r == Err(InitialStatus(title, action).error)
      ensures InitialStatus(title, action).Ok? ==>
        r.Ok? && fresh(r.value) && r.value.Valid() &&
        r.value.title == title.s && r.value.action == StoredAction(action) &&
        r.value.status == InitialStatus(title, action).value &&
        r.value.statusText == "" && r.value.context == None && r.value.frame == 0
    {
      var init := InitialStatus(title, action);
      if init.Err? {
        return Err(init.error);
      }
      var t := new Task(title.s, action, frames);
      return Ok(t);
    }

    /** hasFailed, hasPassed and isSkipped are finished states; isPending and isRunning are not. */
    predicate HasFailed(): (b: bool) reads this ensures b ==> IsTerminal(status) { status == Failed }
    predicate HasPassed(): (b: bool) reads this ensures b ==> IsTerminal(status) { status == Passed }
    predicate IsPending(): (b: bool) reads this ensures b ==> !IsTerminal(status) { status == Pending }
    predicate IsRunning(): (b: bool) reads this ensures b ==> !IsTerminal(status) { status == Running }
    predicate IsSkipped(): (b: bool) reads this ensures b ==> IsTerminal(status) { status == Skipped }

    /**
     * Runs the task. A skipped task, or one without an action, becomes
     * skipped and passes its input through without calling the action.
     * Otherwise the task becomes running, the action is called with the
     * input and the context, and the task ends passed (clearing its status
     * text) or failed, returning the action's own outcome. No status is
     * guarded: a task that has passed or failed runs again.
     */
    method Run(value: V, ctx: C) returns (r: Result<V, E>)
      requires Valid()
      modifies this
      ensures Valid()
      ensures context == Some(ctx)
      ensures action == old(action) && title == old(title) && frame == old(frame)
      ensures IsTerminal(status)
      ensures old(status) == Skipped || old(action).None? ==>
        status == Skipped && r == Ok(value) && statusText == old(statusText) &&
        trace == old(trace) + [Skipped] && invocations == old(invocations)
      ensures old(status) != Skipped && old(action).Some? ==>
        r == old(action).value(value, ctx) &&
        invocations == old(invocations) + [(value, ctx)] &&
        trace == old(trace) + [Running, status] &&
        (r.Ok? ==> status == Passed && statusText == "") &&
        (r.Err? ==> status == Failed && statusText == old(statusText))
    {
      context := Some(ctx);
      if IsSkipped() || action.None? {
        status := Skipped;
        trace := trace + [Skipped];
        return Ok(value);
      }
      status := Running;
      trace := trace + [Running];
      invocations := invocations + [(value, ctx)];
      r := action.value(value, ctx);
      if r.Ok? {
        status := Passed;
        statusText := "";
      } else {
        status := Failed;
      }
      trace := trace + [status];
    }

    /** Marks the task skipped when `condition` holds, whatever its status; returns the task itself. */
    method Skip(condition: bool := true) returns (self: Task<V, C, E>)
      requires Valid()
      modifies this`status, this`trace
      ensures Valid() && self == this
      ensures condition ==> status == Skipped && trace == old(trace) + [Skipped]
      ensures !condition ==> status == old(status) && trace == old(trace)
    {
      if condition {
        status := Skipped;
        trace := trace + [Skipped];
      }
      return this;
    }

    /** Advances the spinner one frame, wrapping around, and returns the new frame. */
    method Spinner() returns (s: string)
      requires Valid()
      modifies this`frame
      ensures Valid()
      ensures frame == (old(frame) + 1) % |frames|
      ensures s == frames[frame]
    {
      frame := (frame + 1) % |frames|;
      s := frames[frame];
    }
  }

  /** Exactly one of the five status queries holds of a task at any time. */
  lemma ExactlyOneQueryHolds<V, C, E>(t: Task<V, C, E>)
    ensures (if t.HasFailed() then 1 else 0) + (if t.HasPassed() then 1 else 0) +
            (if t.IsPending() then 1 else 0) + (if t.IsRunning() then 1 else 0) +
            (if t.IsSkipped() then 1 else 0) == 1
  {
  }
}
