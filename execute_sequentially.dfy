/**
 * src/helpers/executeSequentially.js: run an accumulator over a list of
 * processes. The helper attaches every accumulator call to the one
 * promise made from the initial value, so each call receives that initial
 * value and the helper resolves to it. ExecuteChained is the behaviour its
 * doc comment describes, where each call receives the previous output.
 *
 * Promises are modelled by how they settle; the order in which the
 * attached callbacks run is the order they were attached in.
 */
module Sequential {

  /** What one accumulator call gives back. */
  datatype Produced<V, E> =
    | PromiseResolving(v: V)   // a Promise that resolves with v
    | PromiseRejecting(e: E)   // a Promise that rejects with e
    | NotAPromise              // any value that is not a Promise
    | Threw(e: E)              // the call itself throws e

  /** How a promise settles; `TypeErrorRejected` is the helper's own TypeError. */
  datatype Settlement<V, E> = Fulfilled(v: V) | Rejected(e: E) | TypeErrorRejected

  /** The settlement of the promise `then` derives from one accumulator call. */
  function Settle<V, E>(p: Produced<V, E>): (s: Settlement<V, E>)
    ensures s.Fulfilled? <==> p.PromiseResolving?
    ensures s == TypeErrorRejected <==> p.NotAPromise?
    ensures s.Fulfilled? ==> s.v == p.v
    ensures s.Rejected? ==> (p.PromiseRejecting? || p.Threw?) && s.e == p.e
  {
    match p
    case PromiseResolving(v) => Fulfilled(v)
    case PromiseRejecting(e) => Rejected(e)
    case NotAPromise => TypeErrorRejected
    case Threw(e) => Rejected(e)
  }

  /**
   * One run of the helper: how the returned promise settles, the arguments
   * of every accumulator call in the order they happen, and how each
   * derived promise that the helper drops settles.
   */
  datatype Execution<V, P, E> = Execution(result: Settlement<V, E>, calls: seq<(V, P)>, discarded: seq<Settlement<V, E>>)

  /** executeSequentially as written. */
  function ExecuteSequentially<V, P, E>(processes: seq<P>, initialValue: V, accumulator: (V, P) -> Produced<V, E>)
    : (x: Execution<V, P, E>)
    ensures x.result == Fulfilled(initialValue)
    ensures |x.calls| == |processes| && |x.discarded| == |processes|
    ensures forall i :: 0 <= i < |processes| ==> x.calls[i] == (initialValue, processes[i])
    ensures forall i :: 0 <= i < |processes| ==> x.discarded[i] == Settle(accumulator(initialValue, processes[i]))
  {
    if processes == [] then Execution(Fulfilled(initialValue), [], [])
    else
      var n := |processes| - 1;
      var before := ExecuteSequentially(processes[..n], initialValue, accumulator);
      Execution(before.result,
                before.calls + [(initialValue, processes[n])],
                before.discarded + [Settle(accumulator(initialValue, processes[n]))])
  }

  /** A run of the chained helper: how its promise settles and the accumulator calls made. */
  datatype Chain<V, P, E> = Chain(result: Settlement<V, E>, calls: seq<(V, P)>)

  /**
   * The chained helper the doc comment describes (`promise = promise.then(…)`):
   * each call receives the previous call's resolved value, and the first
   * rejection or non-Promise ends the chain.
   */
  function ExecuteChained<V, P, E>(processes: seq<P>, initialValue: V, accumulator: (V, P) -> Produced<V, E>)
    : (x: Chain<V, P, E>)
    ensures |x.calls| <= |processes|
    ensures processes != [] <==> x.calls != []
    ensures forall i :: 0 <= i < |x.calls| ==> x.calls[i].1 == processes[i]
    ensures x.calls != [] ==> x.calls[0].0 == initialValue
    ensures forall i :: 0 < i < |x.calls| ==>
      Settle(accumulator(x.calls[i - 1].0, x.calls[i - 1].1)) == Fulfilled(x.calls[i].0)
    ensures x.calls == [] ==> x.result == Fulfilled(initialValue)
    ensures x.calls != [] ==> x.result == Settle(accumulator(x.calls[|x.calls| - 1].0, x.calls[|x.calls| - 1].1))
    ensures |x.calls| < |processes| ==> !x.result.Fulfilled?
  {
    if processes == [] then Chain(Fulfilled(initialValue), [])
    else
      var n := |processes| - 1;
      var before := ExecuteChained(processes[..n], initialValue, accumulator);
      if before.result.Fulfilled? then
        var v := before.result.v;
        Chain(Settle(accumulator(v, processes[n])), before.calls + [(v, processes[n])])
      else before
  }

  /** Left fold: the value a chain of always-resolving steps ends with. */
  function FoldLeft<V, P>(processes: seq<P>, initialValue: V, step: (V, P) -> V): (r: V)
  {
    if processes == [] then initialValue
    else step(FoldLeft(processes[..|processes| - 1], initialValue, step), processes[|processes| - 1])
  }

  /** When every accumulator call resolves, the chained helper resolves to the left fold. */
  lemma {:induction false} ChainedIsFold<V, P, E>(processes: seq<P>, initialValue: V,
                                                  accumulator: (V, P) -> Produced<V, E>, step: (V, P) -> V)
    requires forall v, p :: accumulator(v, p) == PromiseResolving(step(v, p))
    ensures ExecuteChained(processes, initialValue, accumulator).result == Fulfilled(FoldLeft(processes, initialValue, step))
    ensures |ExecuteChained(processes, initialValue, accumulator).calls| == |processes|
  {
    if processes != [] {
      ChainedIsFold(processes[..|processes| - 1], initialValue, accumulator, step);
    }
  }

  /**
   * The helper as written does not chain: with processes [1, 2], initial
   * value 0 and an accumulator that resolves to value + process, the second
   * call receives 0 and the helper resolves to 0, where the chained helper
   * gives the second call 1 and resolves to 3.
   */
  lemma SequentialDoesNotChain()
    ensures ExecuteSequentially<int, int, string>([1, 2], 0, (v, p) => PromiseResolving(v + p)).calls[1] == (0, 2)
    ensures ExecuteSequentially<int, int, string>([1, 2], 0, (v, p) => PromiseResolving(v + p)).result == Fulfilled(0)
    ensures ExecuteChained<int, int, string>([1, 2], 0, (v, p) => PromiseResolving(v + p)).calls[1] == (1, 2)
    ensures ExecuteChained<int, int, string>([1, 2], 0, (v, p) => PromiseResolving(v + p)).result == Fulfilled(3)
  {
  }
}
