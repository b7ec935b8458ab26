/** The `FutureResult` monad transformer: a thin wrapper around one
    `Future<Result<T, E>>` whose `Map` and `Bind` read like `Result`'s but
    run step by step through the future and short-circuit on `Err`
    without ever building or driving the next stage.
 */
module FutureResults {
  import opened Results
  import Futures

  datatype FutureResult<T, E, L> = FutureResult(futRes: Futures.Future<Result<T, E>, L>)

  /** `__await__` delegates to the wrapped future: once driven, the
      transformer is a plain `Result`. */
  function Await<T, E, L>(m: FutureResult<T, E, L>): (r: Result<T, E>)
    ensures r == Futures.Await(m.futRes)
  {
    Futures.Await(m.futRes)
  }

  /** The external calls performed while driving `m`, in order. */
  function Effects<T, E, L>(m: FutureResult<T, E, L>): seq<L>
  {
    m.futRes.effects
  }

  /** A transformer value that is already resolved to `Ok(v)`. */
  function Return<T, E, L>(v: T): (m: FutureResult<T, E, L>)
    ensures Await(m) == Ok(v)
    ensures Effects(m) == []
  {
    FutureResult(Futures.Pure(Ok(v)))
  }

  /** `FutureResult.map`. The code applies `Result.map`, so whatever `f`
      returns is wrapped in `Ok`: `f` cannot switch the chain to failure. */
  function Map<T, E, L, U>(m: FutureResult<T, E, L>, f: T -> U): (r: FutureResult<U, E, L>)
    ensures Await(m).Ok? ==> Await(r) == Ok(f(Await(m).value))
    ensures Await(m).Err? ==> Await(r) == Err(Await(m).error)
    ensures Effects(r) == Effects(m)
  {
    FutureResult(Futures.Map(m.futRes, (res: Result<T, E>) => Results.Map(res, f)))
  }

  /** The continuation `FutureResult.bind` hands to `Future.bind`: run the
      next stage on a success, or resolve at once to the same error. */
  function Continue<T, E, L, U>(f: T -> FutureResult<U, E, L>, r: Result<T, E>): Futures.Future<Result<U, E>, L>
  {
    if r.Ok? then f(r.value).futRes else Futures.Pure(Err(r.error))
  }

  /** `FutureResult.bind`. On an inner `Err(e)` the outcome is `Err(e)` with
      exactly the effects already performed: `f` is never invoked and none
      of the next stage's work happens. On `Ok(v)` the outcome is the
      outcome of `f(v)`, whose effects follow the source's. */
  function Bind<T, E, L, U>(m: FutureResult<T, E, L>, f: T -> FutureResult<U, E, L>): (r: FutureResult<U, E, L>)
    ensures Await(m).Err? ==> Await(r) == Err(Await(m).error) && Effects(r) == Effects(m)
    ensures Await(m).Ok? ==> Await(r) == Await(f(Await(m).value))
    ensures Await(m).Ok? ==> Effects(r) == Effects(m) + Effects(f(Await(m).value))
  {
    FutureResult(Futures.Bind(m.futRes, (r: Result<T, E>) => Continue(f, r)))
  }

  /** Short-circuiting: once `m` resolves to an error, the continuation has
      no influence at all on the chain, neither on its value nor on its
      effects. */
  lemma BindIgnoresContinuationOnErr<T, E, L, U>(m: FutureResult<T, E, L>, f: T -> FutureResult<U, E, L>, g: T -> FutureResult<U, E, L>)
    requires Await(m).Err?
    ensures Bind(m, f) == Bind(m, g)
    ensures Bind(m, f) == FutureResult(Futures.Future(Err(Await(m).error), Effects(m)))
  {
  }

  /** Awaiting a transformer chain gives the same answer as binding the
      awaited `Result`s synchronously: the transformer adds sequencing of
      effects and nothing else. */
  lemma AwaitIsResultBind<T, E, L, U>(m: FutureResult<T, E, L>, f: T -> FutureResult<U, E, L>)
    ensures Await(Bind(m, f)) == Results.Bind(Await(m), (x: T) => Await(f(x)))
    ensures Await(Map(m, (x: T) => x)) == Await(m)
  {
  }

  /** Bind associativity for the transformer, effect logs included:
      `m.bind(f).bind(g)` is `m.bind(x -> f(x).bind(g))`. */
  lemma BindAssociative<T, E, L, U, V>(m: FutureResult<T, E, L>, f: T -> FutureResult<U, E, L>, g: U -> FutureResult<V, E, L>)
    ensures Bind(Bind(m, f), g) == Bind(m, (x: T) => Bind(f(x), g))
  {
  }

  /** `Return` is a left and right unit of `Bind`. */
  lemma BindUnits<T, E, L, U>(v: T, m: FutureResult<T, E, L>, f: T -> FutureResult<U, E, L>)
    ensures Bind(Return(v), f) == f(v)
    ensures Bind(m, (x: T) => Return(x)) == m
  {
  }
}
