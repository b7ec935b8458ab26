/** The three-stage URL pipeline: check the URL, download it through an
    external transport, validate the HTTP response, composed in two styles
    (with the `FutureResult` transformer, and by branching on the `Result`
    by hand inside `Future.bind`).

    The transport is a parameter: a total function from URL to what the
    HTTP GET produced. Each stage that does real asynchronous work records
    one `Event` in the effect log when it is driven.
 */
module Pipeline {
  import opened Results
  import Futures
  import FutureResults

  /** The closed error taxonomy, one kind per stage. */
  datatype ErrorKind = BadUrl | IoError | InvalidResponse

  /** What the transport returns on success. `contentType` is the media type
      as the transport reports it; `body` is the decoded JSON body, kept
      uninterpreted. */
  datatype Response = Response(status: int, contentType: string, headers: map<string, string>, body: string)

  /** The record a valid response is turned into. */
  datatype Payload = Payload(status: int, body: string, headers: map<string, string>)

  /** The outcome of one GET: a response, or any failure the transport raised. */
  datatype TransportOutcome = Responded(response: Response) | Failed

  /** An external call, logged when the stage performing it is driven. */
  datatype Event = Fetch(url: string) | Validate(response: Response)

  /** A driven stage: its `Result` and the calls it performed. */
  type Run<T> = Futures.Future<Result<T, ErrorKind>, Event>

  type Transport = string -> TransportOutcome

  const Https: string := "https://"
  const Json: string := "application/json"

  // ---------------------------------------------------------------------
  // Substring search (Python's `pat in s` on strings)
  // ---------------------------------------------------------------------

  /** `pat` occurs in `s` starting at index `i`. */
  ghost predicate OccursAt(s: string, pat: string, i: int)
  {
    0 <= i && i + |pat| <= |s| && s[i..i + |pat|] == pat
  }

  /** A reference search that gives the same answer as Python's `pat in s`. */
  function Contains(s: string, pat: string): bool
    decreases |s|
  {
    if |s| < |pat| then false
    else if s[..|pat|] == pat then true
    else Contains(s[1..], pat)
  }

  /** The search finds `pat` exactly when it occurs somewhere in `s`. */
  lemma {:induction false} ContainsIffOccurs(s: string, pat: string)
    ensures Contains(s, pat) <==> exists i :: OccursAt(s, pat, i)
    decreases |s|
  {
    if |s| < |pat| {
    } else if s[..|pat|] == pat {
      assert OccursAt(s, pat, 0);
    } else {
      ContainsIffOccurs(s[1..], pat);
      if j :| OccursAt(s[1..], pat, j) {
        assert s[1..][j..j + |pat|] == s[j + 1..j + 1 + |pat|];
        assert OccursAt(s, pat, j + 1);
      }
      if i :| OccursAt(s, pat, i) {
        assert i != 0;
        assert s[1..][i - 1..i - 1 + |pat|] == s[i..i + |pat|];
        assert OccursAt(s[1..], pat, i - 1);
      }
    }
  }

  // ---------------------------------------------------------------------
  // Stages
  // ---------------------------------------------------------------------

  /** `check_url`: accepts the URL exactly when `"https://"` occurs anywhere
      in it, not only as a prefix. Pure, no effect. */
  function CheckUrl(url: string): (r: Result<string, ErrorKind>)
    ensures r.Ok? <==> exists i :: OccursAt(url, Https, i)
    ensures r.Ok? ==> r.value == url
    ensures r.Err? ==> r.error == BadUrl
  {
    ContainsIffOccurs(url, Https);
    if Contains(url, Https) then Ok(url) else Err(BadUrl)
  }

  /** `download_url`: driving it performs exactly one fetch of `url`; any
      transport failure is caught at this one boundary and becomes
      `Err(IoError)`, the only error this stage produces. */
  function DownloadUrl(transport: Transport, url: string): (r: Run<Response>)
    ensures r.effects == [Fetch(url)]
    ensures r.value.Ok? <==> transport(url).Responded?
    ensures r.value.Ok? ==> r.value.value == transport(url).response
    ensures r.value.Err? ==> r.value.error == IoError
  {
    var outcome := match transport(url)
      case Responded(resp) => Ok(resp)
      case Failed => Err(IoError);
    Futures.Future(outcome, [Fetch(url)])
  }

  /** The decision inside `validate_http_response`: the content type is
      checked first, then the status. Only a JSON response with a status
      below 400 is accepted, and it becomes a payload carrying the
      response's own status, body and headers. */
  function CheckResponse(resp: Response): (r: Result<Payload, ErrorKind>)
    ensures r.Ok? <==> resp.contentType == Json && resp.status < 400
    ensures r.Ok? ==> r.value == Payload(resp.status, resp.body, resp.headers)
    ensures r.Err? ==> r.error == InvalidResponse
  {
    if resp.contentType != Json then Err(InvalidResponse)
    else if resp.status >= 400 then Err(InvalidResponse)
    else Ok(Payload(resp.status, resp.body, resp.headers))
  }

  /** A response that is not JSON is rejected whatever its status, and one
      that is JSON is rejected by status alone. */
  lemma ContentTypeDecidesFirst(resp: Response, status: int)
    ensures resp.contentType != Json ==> CheckResponse(resp.(status := status)) == Err(InvalidResponse)
    ensures resp.contentType == Json ==> (CheckResponse(resp.(status := status)).Err? <==> status >= 400)
  {
  }

  /** `validate_http_response`: driving it performs the validation of
      `resp` (which decodes its body) and yields the decision above. */
  function ValidateHttpResponse(resp: Response): (r: Run<Payload>)
    ensures r.effects == [Validate(resp)]
    ensures r.value.Err? ==> r.value.error == InvalidResponse
    ensures r.value.Ok? <==> resp.contentType == Json && resp.status < 400
    ensures r.value.Ok? ==> r.value.value == Payload(resp.status, resp.body, resp.headers)
  {
    Futures.Future(CheckResponse(resp), [Validate(resp)])
  }

  // ---------------------------------------------------------------------
  // The two pipeline styles
  // ---------------------------------------------------------------------

  /** The outcome every pipeline run must have: the URL check guards the
      fetch, the fetch guards the validation, and each failure is final. */
  ghost predicate PipelineOutcome(transport: Transport, url: string, r: Run<Payload>)
  {
    if !(exists i :: OccursAt(url, Https, i)) then
      r == Futures.Future(Err(BadUrl), [])
    else if transport(url).Failed? then
      r == Futures.Future(Err(IoError), [Fetch(url)])
    else
      var resp := transport(url).response;
      && r.effects == [Fetch(url), Validate(resp)]
      && (r.value.Ok? <==> resp.contentType == Json && resp.status < 400)
      && (r.value.Ok? ==> r.value.value == Payload(resp.status, resp.body, resp.headers))
      && (r.value.Err? ==> r.value.error == InvalidResponse)
  }

  /** `download_valid_url_and_validate`: the stages chained with the
      transformer's `bind`. */
  function DownloadValidUrlAndValidate(transport: Transport, url: string): (r: Run<Payload>)
    ensures PipelineOutcome(transport, url, r)
  {
    var checked := FutureResults.FutureResult(Futures.Pure(CheckUrl(url)));
    var fetched := FutureResults.Bind(checked, (u: string) => FutureResults.FutureResult(DownloadUrl(transport, u)));
    var validated := FutureResults.Bind(fetched, (resp: Response) => FutureResults.FutureResult(ValidateHttpResponse(resp)));
    validated.futRes
  }

  /** `download_valid_url_and_validate_2`: the same stages chained with
      `Future.bind`, branching on the `Result` by hand. An error is passed
      on as an already-resolved future holding the same error. */
  function DownloadValidUrlAndValidate2(transport: Transport, url: string): (r: Run<Payload>)
    ensures PipelineOutcome(transport, url, r)
  {
    Futures.Bind(
      Futures.Bind(
        Futures.Pure(CheckUrl(url)),
        (r: Result<string, ErrorKind>) => if r.Ok? then DownloadUrl(transport, r.value) else Futures.Pure(Err(r.error))),
      (r: Result<Response, ErrorKind>) => if r.Ok? then ValidateHttpResponse(r.value) else Futures.Pure(Err(r.error)))
  }

  /** Both styles produce the same `Result` and perform the same calls in
      the same order, for every URL and every transport. */
  lemma StylesAgree(transport: Transport, url: string)
    ensures DownloadValidUrlAndValidate(transport, url) == DownloadValidUrlAndValidate2(transport, url)
  {
  }
}
