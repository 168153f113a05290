/**
 * packages/pipeline/src/createWorkUnit.ts: turn the arguments of
 * `pipe`/`add` into a work unit. A work unit is returned as it is, a string
 * title with a function becomes a new task, and anything else is refused.
 */
module WorkUnits {
  import opened Wrappers

  /** The action of a task built here: the function itself, or the function bound to a scope. */
  datatype Action<F, S> = Unbound(f: F) | BoundTo(f: F, scope: S)

  /**
   * A work unit: one built elsewhere (a Routine, a Task or a custom
   * WorkUnit subclass), or a Task built here from a title and an action.
   */
  datatype WorkUnit<U, F, S> = OtherUnit(unit: U) | TaskUnit(title: string, action: Action<F, S>)

  /** The first argument at run time: a work unit, a string, or any other value. */
  datatype UnitArg<U, F, S> = WorkUnitArg(w: WorkUnit<U, F, S>) | StringArg(s: string) | OtherArg

  /** The `action` argument: a function, or anything else (including `undefined`). */
  datatype FunctionArg<F> = FunctionValue(f: F) | NotAFunction

  /** The `scope` argument, by its JavaScript truthiness. */
  datatype ScopeArg<S> = Truthy(s: S) | Falsy

  const UNKNOWN_TYPE_ERROR := "Unknown work unit type. Must be a `Routine`, `Task`, `WorkUnit`, or function."

  function CreateWorkUnit<U, F, S>(titleOrWorkUnit: UnitArg<U, F, S>, action: FunctionArg<F>, scope: ScopeArg<S>)
    : (r: Result<WorkUnit<U, F, S>, string>)
    ensures titleOrWorkUnit.WorkUnitArg? ==> r == Ok(titleOrWorkUnit.w)
    ensures titleOrWorkUnit.StringArg? && action.FunctionValue? ==>
      r.Ok? && r.value.TaskUnit? && r.value.title == titleOrWorkUnit.s && r.value.action.f == action.f &&
      (r.value.action.BoundTo? <==> scope.Truthy?) &&
      (scope.Truthy? ==> r.value.action.scope == scope.s)
    ensures r.Err? <==> !titleOrWorkUnit.WorkUnitArg? && !(titleOrWorkUnit.StringArg? && action.FunctionValue?)
    ensures r.Err? ==> r.error == UNKNOWN_TYPE_ERROR
  {
    if titleOrWorkUnit.WorkUnitArg? then Ok(titleOrWorkUnit.w)
    else if titleOrWorkUnit.StringArg? && action.FunctionValue? then
      Ok(TaskUnit(titleOrWorkUnit.s, if scope.Truthy? then BoundTo(action.f, scope.s) else Unbound(action.f)))
    else Err(UNKNOWN_TYPE_ERROR)
  }

  /**
   * Whatever `createWorkUnit` builds goes through it again unchanged, with
   * any other arguments: a successful result is a fixed point.
   */
  lemma CreatedUnitIsFixedPoint<U, F, S>(x: UnitArg<U, F, S>, a: FunctionArg<F>, s: ScopeArg<S>,
                                         a': FunctionArg<F>, s': ScopeArg<S>)
    requires CreateWorkUnit(x, a, s).Ok?
    ensures CreateWorkUnit(WorkUnitArg(CreateWorkUnit(x, a, s).value), a', s') == CreateWorkUnit(x, a, s)
  {
  }
}
