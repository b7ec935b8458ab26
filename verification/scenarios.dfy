/** Concrete runs of the pipeline against stub transports, one per path
    through the pipeline: rejected URL, failing transport,
    non-JSON response, accepted response, JSON response with an error
    status. Each holds for both pipeline styles.
 */
module Scenarios {
  import opened Results
  import Futures
  import opened Pipeline

  /** The URL the source's demo runs fetch (written in two parts only to
      keep each literal short for the verifier). */
  const DemoUrl: string := "https://postman-echo.com/get" + "?foo1=bar1&foo2=bar2"

  /** Every occurrence of a pattern brings each of its characters along. */
  lemma {:induction false} OccurrenceCarriesCharacters(s: string, pat: string, c: char)
    requires exists i :: OccursAt(s, pat, i)
    requires c in pat
    ensures c in s
  {
    var i :| OccursAt(s, pat, i);
    var k :| 0 <= k < |pat| && pat[k] == c;
    assert s[i..i + |pat|][k] == s[i + k];
  }

  /** A plain-HTTP URL contains no `'s'`, so `"https://"` cannot occur in it. */
  lemma PlainHttpRejected(transport: Transport)
    ensures DownloadValidUrlAndValidate(transport, "http://example.com") == Futures.Future(Err(BadUrl), [])
    ensures DownloadValidUrlAndValidate2(transport, "http://example.com") == Futures.Future(Err(BadUrl), [])
  {
    var url := "http://example.com";
    assert 's' in Https;
    assert 's' !in url;
    if exists i :: OccursAt(url, Https, i) {
      OccurrenceCarriesCharacters(url, Https, 's');
    }
  }

  /** The check is a substring test: `"https://"` later in the URL is enough. */
  lemma EmbeddedHttpsAccepted()
    ensures CheckUrl("ftp://mirror?next=https://a") == Ok("ftp://mirror?next=https://a")
  {
    var url := "ftp://mirror?next=https://a";
    assert url[18..26] == Https;
    assert OccursAt(url, Https, 18);
  }

  lemma DemoUrlAccepted()
    ensures exists i :: OccursAt(DemoUrl, Https, i)
  {
    var host := "https://postman-echo.com/get";
    assert host[..8] == Https;
    assert DemoUrl[..8] == host[..8];
    assert OccursAt(DemoUrl, Https, 0);
  }

  /** The transport fails: the run ends with `Err(IoError)` after one fetch,
      and validation is never driven. */
  lemma TransportFailure()
    ensures DownloadValidUrlAndValidate((u: string) => Failed, DemoUrl) == Futures.Future(Err(IoError), [Fetch(DemoUrl)])
    ensures DownloadValidUrlAndValidate2((u: string) => Failed, DemoUrl) == Futures.Future(Err(IoError), [Fetch(DemoUrl)])
  {
    DemoUrlAccepted();
  }

  /** An HTML page is rejected even with status 200. */
  lemma HtmlRejected()
    ensures var resp := Response(200, "text/html", map[], "");
            DownloadValidUrlAndValidate((u: string) => Responded(resp), DemoUrl)
            == Futures.Future(Err(InvalidResponse), [Fetch(DemoUrl), Validate(resp)])
  {
    DemoUrlAccepted();
  }

  /** A JSON response with status 200 becomes the payload of status, body
      and headers. */
  lemma JsonAccepted(body: string, headers: map<string, string>)
    ensures var resp := Response(200, Json, headers, body);
            DownloadValidUrlAndValidate((u: string) => Responded(resp), DemoUrl)
            == Futures.Future(Ok(Payload(200, body, headers)), [Fetch(DemoUrl), Validate(resp)])
  {
    DemoUrlAccepted();
  }

  /** A JSON response with status 404 is rejected by the status check. */
  lemma NotFoundRejected()
    ensures var resp := Response(404, Json, map[], "{}");
            DownloadValidUrlAndValidate2((u: string) => Responded(resp), DemoUrl)
            == Futures.Future(Err(InvalidResponse), [Fetch(DemoUrl), Validate(resp)])
  {
    DemoUrlAccepted();
  }
}
