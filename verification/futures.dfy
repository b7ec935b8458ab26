/** The `Future` of the `monads` library: a single-shot deferred computation.

    A future is modelled by what driving it to completion produces: the
    `value` it resolves to and the ordered log of `effects` (external stage
    calls) performed on the way. Building a future performs nothing; the
    log is what happens once it is awaited. There is no scheduler: the
    chain is strictly sequential, so a log is all that can be observed.
 */
module Futures {

  datatype Future<T, L> = Future(value: T, effects: seq<L>)

  /** Awaiting a future yields the value it resolves to. */
  function Await<T, L>(m: Future<T, L>): T
  {
    m.value
  }

  /** `Future.pure`: already resolved, so driving it performs no effect. */
  function Pure<T, L>(v: T): (m: Future<T, L>)
    ensures Await(m) == v
    ensures m.effects == []
  {
    Future(v, [])
  }

  /** `Future.map`: drives the source, then applies `f` to its value; `f`
      itself performs no external call. */
  function Map<T, L, U>(m: Future<T, L>, f: T -> U): (r: Future<U, L>)
    ensures Await(r) == f(Await(m))
    ensures r.effects == m.effects
  {
    Future(f(m.value), m.effects)
  }

  /** `Future.bind`: drives the source, hands its value to `f`, then drives
      the future `f` returns. The second future's effects come strictly
      after all of the first's. */
  function Bind<T, L, U>(m: Future<T, L>, f: T -> Future<U, L>): (r: Future<U, L>)
    ensures Await(r) == Await(f(Await(m)))
    ensures |r.effects| == |m.effects| + |f(Await(m)).effects|
    ensures r.effects[..|m.effects|] == m.effects
    ensures r.effects[|m.effects|..] == f(Await(m)).effects
  {
    var n := f(m.value);
    Future(n.value, m.effects + n.effects)
  }

  /** `Map` is `Bind` with a continuation that resolves immediately. */
  lemma MapIsBindPure<T, L, U>(m: Future<T, L>, f: T -> U)
    ensures Map(m, f) == Bind(m, (x: T) => Pure(f(x)))
  {
  }

  /** `Pure` is a left and right unit of `Bind`. */
  lemma BindUnits<T, L, U>(v: T, m: Future<T, L>, f: T -> Future<U, L>)
    ensures Bind(Pure(v), f) == f(v)
    ensures Bind(m, (x: T) => Pure(x)) == m
  {
  }

  /** Bind associativity for `Future`, effect logs included. */
  lemma BindAssociative<T, L, U, V>(m: Future<T, L>, f: T -> Future<U, L>, g: U -> Future<V, L>)
    ensures Bind(Bind(m, f), g) == Bind(m, (x: T) => Bind(f(x), g))
  {
  }
}
