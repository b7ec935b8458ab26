# FutureResult pipeline: a Dafny model

A model of the `FutureResult` monad transformer in `python-monad/main.py` and
of the three-stage URL pipeline built on it: `check_url`, `download_url`,
`validate_http_response`, composed once with the transformer's `bind`
(`download_valid_url_and_validate`) and once by branching on the `Result` by
hand inside `Future.bind` (`download_valid_url_and_validate_2`).

Modules:

- `Results` (`results.dfy`): `Result<T, E> = Ok(value) | Err(error)` with
  `Map`, `Bind` and `MapError`, the semantics the code relies on from the
  `monads` library it imports.
- `Futures` (`futures.dfy`): `Future<T, L>` is modelled by what driving it
  produces: the `value` it resolves to and the ordered log `effects` of the
  external calls performed on the way. `Pure`, `Map`, `Bind` follow the
  library's `Future.pure/map/bind`. There is no scheduler; the chain is
  strictly sequential, so the log is all that can be observed.
- `FutureResults` (`future_results.dfy`): the transformer, wrapping one
  `Future<Result<T, E>, L>`, with `Map`, `Bind` and `Await`.
- `Pipeline` (`pipeline.dfy`): `ErrorKind`, the response and payload
  records, the stages, and both pipeline styles. The HTTP transport is a
  parameter `string -> TransportOutcome` (`Responded(response)` or `Failed`);
  `download_url`'s `try/except` boundary turns `Failed` into `Err(IoError)`,
  so "the transport's only error is `IoError`" is proved rather than assumed.
  Each stage that does asynchronous work logs one `Event` (`Fetch(url)`,
  `Validate(response)`) when it is driven. "The next stage is never invoked"
  therefore means: its event is absent from the log and its function has no
  influence on the outcome.
- `Scenarios` (`scenarios.dfy`): concrete runs with stub transports.

Where a reader might expect otherwise, or the code's type annotations say otherwise, the model follows the code:

- `check_url` tests whether `"https://"` occurs anywhere in the URL (Python's
  `in`), not whether the URL starts with it, so `"ftp://mirror?next=https://a"`
  is accepted.
- `FutureResult.map` is annotated as taking a function returning a `Result`,
  but the code applies `Result.map`, so the function's return value is
  wrapped in `Ok` and cannot switch the chain to failure.
- In `download_valid_url_and_validate_2`, an error is passed on as
  `Future.pure(r)`, the same `Err` object. Dafny is typed, so the model builds
  `Err(r.error)` at the next stage's success type; the value is the same.

## Model

| member | source | states |
|---|---|---|
| Results.Map | python-monad/main.py:21 | `Result.map` turns `Ok(v)` into `Ok(f(v))` and passes `Err(e)` through unchanged |
| Results.Bind | python-monad/main.py:9 | `Result.bind` gives `f(v)` on `Ok(v)` (so `f` may fail) and `Err(e)` on `Err(e)` |
| Results.MapError | python-monad/main.py:9 | `Result.mapError` leaves `Ok(v)` alone and turns `Err(e)` into `Err(f(e))` |
| Results.MapErrorLaws | python-monad/main.py:9 | `mapError` with the identity changes nothing, and it commutes with `map`: the two channels are independent |
| Results.ErrIgnoresContinuation | python-monad/main.py:9 | on an error, `map` and `bind` yield that error whatever function they are given |
| Results.MapIsBindOk | python-monad/main.py:9 | `map(f)` is `bind` with a continuation that always succeeds with `f`'s value |
| Results.BindAssociative | python-monad/main.py:9 | `r.bind(f).bind(g)` equals `r.bind(x -> f(x).bind(g))` |
| Results.BindUnits | python-monad/main.py:9 | `Ok` is a left and right unit of `bind` |
| Futures.Pure | python-monad/main.py:73 | `Future.pure(v)` resolves to `v` and performs no external call |
| Futures.Map | python-monad/main.py:21 | `Future.map(f)` resolves to `f` of the source's value and performs exactly the source's calls |
| Futures.Bind | python-monad/main.py:25 | `Future.bind(f)` resolves to the value of `f`'s future; the source's calls all come first, followed by exactly the calls of `f`'s future |
| Futures.MapIsBindPure | python-monad/main.py:9 | `map(f)` equals `bind` with a continuation returning `pure(f(x))` |
| Futures.BindUnits | python-monad/main.py:9 | `pure` is a left and right unit of `Future.bind`, effect log included |
| Futures.BindAssociative | python-monad/main.py:9 | `Future.bind` is associative, effect log included |
| FutureResults.Await | python-monad/main.py:28-29 | awaiting the transformer yields the Result held by its wrapped future |
| FutureResults.Map | python-monad/main.py:20-21 | on `Ok(v)` the transformer resolves to `Ok(f(v))`; on `Err(e)` to `Err(e)`; no call is added to the log |
| FutureResults.Bind | python-monad/main.py:23-26 | on `Err(e)` the result is `Err(e)` with the log unchanged, so nothing of `f` runs; on `Ok(v)` it is the outcome of `f(v)`, whose calls follow the source's |
| FutureResults.BindIgnoresContinuationOnErr | python-monad/main.py:25 | once the source resolves to `Err(e)`, any two continuations give the identical chain: an already-resolved `Err(e)` after the source's calls |
| FutureResults.AwaitIsResultBind | python-monad/main.py:23-29 | awaiting `m.bind(f)` gives the synchronous `Result.bind` of the awaited values; mapping the identity changes nothing |
| FutureResults.BindAssociative | python-monad/main.py:23-26 | `m.bind(f).bind(g)` equals `m.bind(x -> f(x).bind(g))`, value and call log |
| FutureResults.BindUnits | python-monad/main.py:23-26 | an already-resolved `Ok` is a left and right unit of the transformer's `bind` |
| Pipeline.ContainsIffOccurs | python-monad/main.py:42 | a reference search that gives the same answer as Python's `"https://" in url` succeeds exactly when the pattern occurs at some index |
| Pipeline.CheckUrl | python-monad/main.py:41-42 | `Ok(url)` exactly when `"https://"` occurs at some index of `url`, otherwise `Err(BadUrl)` |
| Pipeline.DownloadUrl | python-monad/main.py:45-55 | driving it performs one fetch of `url`; `Ok(response)` when the transport responded, otherwise `Err(IoError)`, its only error |
| Pipeline.CheckResponse | python-monad/main.py:60-65 | accepts exactly a JSON response with status below 400, as a payload of its status, body and headers; every rejection is `InvalidResponse` |
| Pipeline.ContentTypeDecidesFirst | python-monad/main.py:60-63 | a non-JSON response is rejected whatever its status; a JSON one is rejected exactly when its status is 400 or more |
| Pipeline.ValidateHttpResponse | python-monad/main.py:58-67 | driving it logs one validation of the response and yields the decision above |
| Pipeline.DownloadValidUrlAndValidate | python-monad/main.py:70-76 | a URL without `"https://"` gives `Err(BadUrl)` with no call; a failed fetch gives `Err(IoError)` with only the fetch logged; otherwise fetch then validation, with the validation's decision |
| Pipeline.DownloadValidUrlAndValidate2 | python-monad/main.py:79-85 | the same outcome, call log included, for the hand-branching style |
| Pipeline.StylesAgree | python-monad/main.py:70-85 | for every URL and transport both styles give the identical `Result` and the identical call log |
| Scenarios.PlainHttpRejected | python-monad/main.py:41-42 | `"http://example.com"` gives `Err(BadUrl)` in both styles and the transport is never called |
| Scenarios.EmbeddedHttpsAccepted | python-monad/main.py:42 | a URL with `"https://"` in its middle passes the check |
| Scenarios.TransportFailure | python-monad/main.py:52-53 | a failing transport ends both styles with `Err(IoError)` after one fetch and no validation |
| Scenarios.HtmlRejected | python-monad/main.py:60-61 | a `text/html` response with status 200 gives `Err(InvalidResponse)` |
| Scenarios.JsonAccepted | python-monad/main.py:65 | a JSON response with status 200 gives `Ok` of its status, body and headers |
| Scenarios.NotFoundRejected | python-monad/main.py:62-63 | a JSON response with status 404 gives `Err(InvalidResponse)` |

## Left out

- The body of `download_url` (aiohttp session and GET): network I/O. It is the `Transport` parameter; any exception it raises is its `Failed` outcome.
- `await res.json()`: the decoded body is an uninterpreted field of `Response`. A decoding failure would raise out of the pipeline; the model assumes the decoder succeeds.
- `res.content_type` parsing: the model takes the media type as the transport reports it and compares it to `"application/json"` exactly.
- The asyncio event loop and real suspension: a future is its resolved value plus its call log; there is no scheduling, cancellation or timeout, and a future that never resolves is not modelled.
- Single-shot awaiting of a future: the model's futures are values and can be inspected any number of times.
- `download_and_print_valid_url` and the `__main__` block: printing, `pprint` and terminal colour codes.
- The `ResultT` dictionary: a lookup from `Future` to `FutureResult`; the model uses `FutureResult` directly.
- The integer values of `ErrorEnum` (1, 2, 3): they are never read by the program; printing an error shows its name.
- `dict(res.headers)`: aiohttp's headers are a case-insensitive mapping that may hold a header several times, and `dict()` keeps only one value per repeated header (such as `Set-Cookie`). The model's `Response.headers` is already a plain `map<string, string>`, so that conversion is the identity here and the loss of repeated values is not modelled.
- The `monads` library itself: only the standard `pure`/`map`/`bind`/`mapError` semantics the call sites rely on are modelled.
