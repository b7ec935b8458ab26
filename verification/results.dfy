/** The synchronous `Result` type of the `monads` library, with the semantics
    the pipeline relies on: a success value or a typed error, failure carried
    as a value and never raised.
 */
module Results {

  datatype Result<T, E> = Ok(value: T) | Err(error: E)

  /** `Result.map`: transforms a success value; an error passes through
      unchanged and the function takes no part in the outcome. */
  function Map<T, E, U>(r: Result<T, E>, f: T -> U): (r': Result<U, E>)
    ensures r.Ok? ==> r' == Ok(f(r.value))
    ensures r.Err? ==> r' == Err(r.error)
  {
    match r
    case Ok(v) => Ok(f(v))
    case Err(e) => Err(e)
  }

  /** `Result.bind`: the continuation decides the outcome of a success and
      may itself fail; an error short-circuits past it. */
  function Bind<T, E, U>(r: Result<T, E>, f: T -> Result<U, E>): (r': Result<U, E>)
    ensures r.Ok? ==> r' == f(r.value)
    ensures r.Err? ==> r' == Err(r.error)
  {
    match r
    case Ok(v) => f(v)
    case Err(e) => Err(e)
  }

  /** `Result.mapError`: the dual of `Map`, touching only the error channel. */
  function MapError<T, E, F>(r: Result<T, E>, f: E -> F): (r': Result<T, F>)
    ensures r.Ok? ==> r' == Ok(r.value)
    ensures r.Err? ==> r' == Err(f(r.error))
  {
    match r
    case Ok(v) => Ok(v)
    case Err(e) => Err(f(e))
  }

  /** `MapError` with the identity is the identity, and it commutes with
      `Map`: the success and error channels never interfere. */
  lemma MapErrorLaws<T, E, U, F>(r: Result<T, E>, f: T -> U, g: E -> F)
    ensures MapError(r, (e: E) => e) == r
    ensures MapError(Map(r, f), g) == Map(MapError(r, g), f)
  {
  }

  /** On an error, `Map` and `Bind` give the same answer whatever the
      continuation: it is never consulted. */
  lemma ErrIgnoresContinuation<T, E, U>(e: E, f: T -> Result<U, E>, g: T -> Result<U, E>, h: T -> U, k: T -> U)
    ensures Bind(Err(e), f) == Bind(Err(e), g) == Err(e)
    ensures Map(Err(e), h) == Map(Err(e), k) == Err(e)
  {
  }

  /** `Map` is a special case of `Bind` whose continuation always succeeds. */
  lemma MapIsBindOk<T, E, U>(r: Result<T, E>, f: T -> U)
    ensures Map(r, f) == Bind(r, (x: T) => Ok(f(x)))
  {
  }

  /** Bind associativity for `Result`. */
  lemma BindAssociative<T, E, U, V>(r: Result<T, E>, f: T -> Result<U, E>, g: U -> Result<V, E>)
    ensures Bind(Bind(r, f), g) == Bind(r, (x: T) => Bind(f(x), g))
  {
  }

  /** `Ok` is a left and right unit of `Bind`. */
  lemma BindUnits<T, E, U>(v: T, r: Result<T, E>, f: T -> Result<U, E>)
    ensures Bind(Ok(v), f) == f(v)
    ensures Bind(r, (x: T) => Ok(x)) == r
  {
  }
}
