/**
 * The worker side: the single outbound HTTP request a due job makes, how its
 * response is classified, and the record the job processor returns.
 * Sockets are not modelled: what the server sends back is a parameter.
 */
module HttpCaller {
  import opened Wrappers
  import opened Text
  import opened Jobs

  /** The components of a parsed URL, as the WHATWG `URL` class exposes them. */
  datatype Url = Url(protocol: string, hostname: string, port: string, pathname: string, search: string)

  /** The Node client module the request goes through. */
  datatype Client = Http | Https

  /** The `port` request option: the URL's own port text, or a number. */
  datatype Port = ExplicitPort(text: string) | DefaultPort(number: nat)

  datatype RequestOptions = RequestOptions(httpMethod: string, hostname: string, path: string, port: Port)

  /** The registered default port of a scheme (sections 4.2.1 and 4.2.2 of RFC 9110). */
  function SchemeDefaultPort(scheme: string): Option<nat> {
    if scheme == "http" then Some(80)
    else if scheme == "https" then Some(443)
    else None
  }

  /** HTTPS is used exactly for the protocol `https:`; every other protocol goes out as plain HTTP. */
  function ClientFor(url: Url): (c: Client)
    ensures c == Https <==> url.protocol == "https:"
  {
    if url.protocol == "https:" then Https else Http
  }

  /** The request options for `url`: host, path with query, and port. */
  function RequestFor(url: Url, httpMethod: string): (o: RequestOptions)
    ensures o.httpMethod == httpMethod && o.hostname == url.hostname
    ensures StartsWith(o.path, url.pathname) && o.path[|url.pathname|..] == url.search
    ensures url.port != "" ==> o.port == ExplicitPort(url.port)
    ensures url.port == "" ==> o.port.DefaultPort?
  {
    var isHttps := url.protocol == "https:";
    assert (url.pathname + url.search)[..|url.pathname|] == url.pathname;
    RequestOptions(
      httpMethod,
      url.hostname,
      url.pathname + url.search,
      if url.port != "" then ExplicitPort(url.port) else DefaultPort(if isHttps then 443 else 80))
  }

  /**
   * Without an explicit port, an `http:` or `https:` URL is sent to its scheme's
   * registered port; any other protocol is sent over plain HTTP to port 80.
   */
  lemma DefaultPortIsSchemes(url: Url, httpMethod: string)
    requires url.port == "" && |url.protocol| >= 1 && url.protocol[|url.protocol| - 1] == ':'
    ensures var scheme := url.protocol[..|url.protocol| - 1];
      SchemeDefaultPort(scheme).Some? ==>
        ClientFor(url) == (if scheme == "https" then Https else Http) &&
        RequestFor(url, httpMethod).port == DefaultPort(SchemeDefaultPort(scheme).value)
    ensures var scheme := url.protocol[..|url.protocol| - 1];
      SchemeDefaultPort(scheme).None? ==>
        ClientFor(url) == Http && RequestFor(url, httpMethod).port == DefaultPort(80)
  {
  }

  /** The data chunks joined in arrival order. */
  function Concat(chunks: seq<string>): string {
    if chunks == [] then "" else Concat(chunks[..|chunks| - 1]) + chunks[|chunks| - 1]
  }

  /** `body += chunk` for every `data` event, from an empty body. */
  method CollectBody(chunks: seq<string>) returns (body: string)
    ensures body == Concat(chunks)
  {
    body := "";
    for i := 0 to |chunks|
      invariant body == Concat(chunks[..i])
    {
      assert chunks[..i + 1][..i] == chunks[..i];
      body := body + chunks[i];
    }
    assert chunks[..|chunks|] == chunks;
  }

  /** Joining two runs of chunks is joining their joins. */
  lemma {:induction false} ConcatAppend(a: seq<string>, b: seq<string>)
    ensures Concat(a + b) == Concat(a) + Concat(b)
  {
    if b != [] {
      assert (a + b)[..|a + b| - 1] == a + b[..|b| - 1];
      ConcatAppend(a, b[..|b| - 1]);
    } else {
      assert a + b == a;
    }
  }

  /** Chunk `i` appears whole in the body, right after the chunks that arrived before it. */
  lemma ChunkInPlace(chunks: seq<string>, i: nat)
    requires i < |chunks|
    ensures var at := |Concat(chunks[..i])|;
      at + |chunks[i]| <= |Concat(chunks)| &&
      Concat(chunks)[at..at + |chunks[i]|] == chunks[i]
  {
    assert chunks == chunks[..i] + [chunks[i]] + chunks[i + 1..];
    ConcatAppend(chunks[..i] + [chunks[i]], chunks[i + 1..]);
    ConcatAppend(chunks[..i], [chunks[i]]);
    assert [chunks[i]][..0] == [];
  }

  /** What the server side did: a transport error, or a response that ran to its end. */
  datatype Exchange = TransportError(reason: string) | Response(statusCode: Option<nat>, chunks: seq<string>)

  datatype CallFailure = InvalidUrl | Transport(reason: string) | BadStatus(status: nat, body: string)

  /** The resolved value `{status, body}`, or the reason the promise rejects. */
  datatype CallOutcome = Resolved(status: nat, body: string) | Rejected(failure: CallFailure)

  /** A 2xx status (section 15.3 of RFC 9110). */
  predicate IsSuccessful(status: nat) {
    200 <= status < 300
  }

  const StatusPrefix: string := "Request failed with status "

  /** The `Error` message of a rejection. */
  function FailureMessage(f: CallFailure): (m: string)
    ensures f.InvalidUrl? ==> m == "Invalid URL"
    ensures f.Transport? ==> m == f.reason
    ensures f.BadStatus? ==> StartsWith(m, StatusPrefix) && m[|StatusPrefix|..] != ""
  {
    match f
    case InvalidUrl => "Invalid URL"
    case Transport(reason) => reason
    case BadStatus(status, body) => StatusPrefix + Decimal(status) + (": " + body)
  }

  /** Each part of `a + b + c` is found back at its own offsets. */
  lemma ThreeParts(a: string, b: string, c: string)
    ensures var m := a + b + c;
      m[..|a|] == a && m[|a|..|a| + |b|] == b && m[|a| + |b|..] == c
  {
    var m := a + b + c;
    assert m[..|a|] == a;
    assert m[|a|..|a| + |b|] == b;
    assert m[|a| + |b|..] == c;
  }

  /** A rejected status can be read back from the message, and the body ends it. */
  lemma BadStatusMessage(status: nat, body: string)
    ensures var m, d := FailureMessage(BadStatus(status, body)), Decimal(status);
      StartsWith(m, StatusPrefix) &&
      m[|StatusPrefix|..|StatusPrefix| + |d|] == d && DecimalValue(d) == status &&
      m[|StatusPrefix| + |d|..] == ": " + body
  {
    var d := Decimal(status);
    ThreeParts(StatusPrefix, d, ": " + body);
  }

  /** The `end` handler: 2xx resolves with status and body, anything else rejects with both. */
  function Classify(status: nat, body: string): (o: CallOutcome)
    ensures o.Resolved? <==> IsSuccessful(status)
    ensures o.Resolved? ==> o == Resolved(status, body)
    ensures o.Rejected? ==> o.failure == BadStatus(status, body)
  {
    if IsSuccessful(status) then Resolved(status, body) else Rejected(BadStatus(status, body))
  }

  /**
   * `performHttpCall`: parses the target, makes one request with the options derived
   * from it (no body), gathers the body and classifies the response. A missing status
   * counts as 0. `parseUrl` stands for `new URL`, `None` when it throws.
   */
  method PerformHttpCall(data: JobData, parseUrl: string -> Option<Url>, exchange: Exchange)
    returns (request: Option<(Client, RequestOptions)>, outcome: CallOutcome)
    ensures parseUrl(data.targetUrl).None? ==> request == None && outcome == Rejected(InvalidUrl)
    ensures parseUrl(data.targetUrl).Some? ==>
      var url := parseUrl(data.targetUrl).value;
      request == Some((ClientFor(url), RequestFor(url, data.httpMethod))) &&
      outcome == match exchange
        case TransportError(reason) => Rejected(Transport(reason))
        case Response(code, chunks) => Classify(code.GetOr(0), Concat(chunks))
    ensures outcome.Resolved? ==> IsSuccessful(outcome.status) && exchange.Response?
  {
    var parsed := parseUrl(data.targetUrl);
    if parsed.None? {
      return None, Rejected(InvalidUrl);
    }
    var url := parsed.value;
    request := Some((ClientFor(url), RequestFor(url, data.httpMethod)));
    match exchange {
      case TransportError(reason) =>
        outcome := Rejected(Transport(reason));
      case Response(code, chunks) =>
        var body := CollectBody(chunks);
        outcome := Classify(code.GetOr(0), body);
    }
  }

  /** The value the job processor returns to the store. */
  datatype JobResult = JobResult(jobId: JobId, status: nat, body: string)

  /** The processor either returns its record or lets the call's rejection escape. */
  datatype ProcessOutcome = Returned(result: JobResult) | Threw(failure: CallFailure)

  /**
   * The job processor: exactly one call, a record `{jobId, status, body}` after a
   * successful one, and the call's failure propagated unchanged otherwise (no retry).
   */
  method ProcessJob(job: Job, parseUrl: string -> Option<Url>, exchange: Exchange) returns (outcome: ProcessOutcome)
    ensures outcome.Returned? <==>
      parseUrl(job.data.targetUrl).Some? && exchange.Response? && IsSuccessful(exchange.statusCode.GetOr(0))
    ensures outcome.Returned? ==>
      outcome.result == JobResult(job.id, exchange.statusCode.GetOr(0), Concat(exchange.chunks))
    ensures outcome.Threw? && parseUrl(job.data.targetUrl).None? ==> outcome.failure == InvalidUrl
    ensures outcome.Threw? && exchange.Response? && parseUrl(job.data.targetUrl).Some? ==>
      outcome.failure == BadStatus(exchange.statusCode.GetOr(0), Concat(exchange.chunks))
    ensures parseUrl(job.data.targetUrl).Some? && exchange.TransportError? ==>
      outcome == Threw(Transport(exchange.reason))
  {
    var _, call := PerformHttpCall(job.data, parseUrl, exchange);
    match call {
      case Resolved(status, body) =>
        outcome := Returned(JobResult(job.id, status, body));
      case Rejected(failure) =>
        outcome := Threw(failure);
    }
  }
}
