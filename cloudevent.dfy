/** The exporter itself (exporter/cloudeventhttpexporter/cloudevent.go): building the
    fixed batch of ten sample events, sending it in one POST request, and classifying
    the answer.

    What the exporter calls but does not define is given to it: the cloudevents SDK's
    `ExtensionAs`, the `gob` encoder and `http.NewRequestWithContext` are the total
    function values of a `Collaborators`, and the HTTP client is an object that keeps
    the log of the requests handed to it and answers each from a fixed oracle. */
module CloudEvent {
  import opened Errors
  import opened ExporterConfig

  /** The span data the host hands to the exporter (ptrace.Traces): resource groups of
      scope groups of spans. The fields only stand in for the trace data; pushTraces
      never reads them. */
  datatype Span = Span(traceId: seq<bv8>, name: string)
  datatype ScopeSpans = ScopeSpans(spans: seq<Span>)
  datatype ResourceSpans = ResourceSpans(scopeSpans: seq<ScopeSpans>)
  datatype Traces = Traces(resourceSpans: seq<ResourceSpans>)

  /** The JSON values the sample payload is built from. */
  datatype JsonValue = JsonInt(i: int) | JsonString(s: string)

  /** A cloud event as far as the exporter sets it; `data` is empty until SetData. */
  datatype Event = Event(
    specVersion: string,
    id: string,
    eventType: string,
    source: string,
    dataContentType: string,
    data: map<string, JsonValue>)

  /** Go's zero value `event.Event{}`. */
  const EmptyEvent: Event := Event("", "", "", "", "", map[])

  const SampleSpecVersion: string := "1.0"
  const SampleType: string := "com.cloudevents.sample.sent"
  const SampleSource: string := "https://github.com/cloudevents/sdk-go/v2/samples/httpb/sender"
  const SampleMessage: string := "Hello, World!"
  const ApplicationJson: string := "application/json"

  /** The number of events pushTraces builds, whatever the input. */
  const BatchSize: nat := 10

  /** The library calls the exporter makes but does not define. `extensionAs(e, name, value)`
      is `e.ExtensionAs(name, value)`: it may fail and does not change `e`.
      `encode` is the gob encoding of a batch, whose error the exporter discards.
      `newRequest(method, url)` is the error, if any, of http.NewRequestWithContext. */
  datatype Collaborators = Collaborators(
    extensionAs: (Event, string, string) -> Option<Error>,
    encode: seq<Event> -> seq<bv8>,
    newRequest: (string, string) -> Option<Error>)

  /** A request as it leaves the exporter. */
  datatype WireRequest = WireRequest(
    verb: string, url: string, header: map<string, string>, body: seq<bv8>)

  datatype Response = Response(statusCode: int)

  /** An http.Request under construction: its header is set in place. */
  class Request {
    const verb: string
    const url: string
    const body: seq<bv8>
    var header: map<string, string>

    constructor (verb: string, url: string, body: seq<bv8>)
      ensures this.verb == verb && this.url == url && this.body == body
      ensures header == map[]
    {
      this.verb := verb;
      this.url := url;
      this.body := body;
      header := map[];
    }

    /** req.Header.Set: replaces any value the key had. Go also canonicalises the key;
        the model stores it as given, which is the same for the two keys the exporter
        sets, `Authorization` and `Content-Type`, both already canonical. */
    method SetHeader(key: string, value: string)
      modifies this
      ensures header == old(header)[key := value]
    {
      header := header[key := value];
    }

    function Wire(): WireRequest
      reads this
    {
      WireRequest(verb, url, header, body)
    }
  }

  /** The HTTP client: `sent` is every request handed to Do, in order, and the answer to
      the n-th request (counting from 0) is `respond(n, request)`, either a response or
      a transport error. */
  class HttpClient {
    const respond: (nat, WireRequest) -> Result<Response>
    var sent: seq<WireRequest>

    constructor (respond: (nat, WireRequest) -> Result<Response>)
      ensures this.respond == respond && sent == []
    {
      this.respond := respond;
      sent := [];
    }

    method Do(req: WireRequest) returns (r: Result<Response>)
      modifies this
      ensures sent == old(sent) + [req]
      ensures r == respond(|old(sent)|, req)
    {
      r := respond(|sent|, req);
      sent := sent + [req];
    }
  }

  /** The cloudEventExporter record. Its client is installed by the exporter's start
      routine, which is not part of this model. */
  datatype CloudEventExporter = CloudEventExporter(url: string, token: string, client: HttpClient?)

  /** createCloudEventExporter: the url is the configured endpoint; the token is the
      configuration value the source reads for it, given here as `token`; no client yet.
      It never fails. */
  function CreateCloudEventExporter(cfg: Config, token: string): (ce: CloudEventExporter)
    ensures ce.url == cfg.http.endpoint && ce.token == token && ce.client == null
  {
    CloudEventExporter(cfg.http.endpoint, token, null)
  }

  /** Go's `string(i)` for an integer: the one code point `i`, or U+FFFD when `i` is not
      a Unicode scalar value. */
  function RuneString(i: int): (s: string)
    ensures |s| == 1
    ensures 0 <= i < 0xD800 ==> s[0] as int == i
  {
    if 0 <= i < 0xD800 || 0xE000 <= i < 0x11_0000 then [i as char] else ['\U{FFFD}']
  }

  /** The event createEvent(i) holds when it makes its two ExtensionAs calls. */
  function Stamped(i: int): Event
  {
    EmptyEvent.(specVersion := SampleSpecVersion, id := RuneString(i), eventType := SampleType)
  }

  /** The sample event createEvent(i) returns when both ExtensionAs calls succeed. */
  function SampleEvent(i: int): (e: Event)
    ensures e.specVersion == "1.0" && e.eventType == "com.cloudevents.sample.sent"
    ensures e.source == "https://github.com/cloudevents/sdk-go/v2/samples/httpb/sender"
    ensures e.dataContentType == "application/json"
    ensures e.data == map["id" := JsonInt(i), "message" := JsonString("Hello, World!")]
    ensures e.id == RuneString(i)
  {
    Stamped(i).(source := SampleSource, dataContentType := ApplicationJson,
                data := map["id" := JsonInt(i), "message" := JsonString(SampleMessage)])
  }

  /** The error createEvent(i) returns: that of the first failing ExtensionAs call. */
  function EventError(lib: Collaborators, i: int): (r: Option<Error>)
    ensures r == None <==>
      lib.extensionAs(Stamped(i), "traceid", "test") == None &&
      lib.extensionAs(Stamped(i), "group", "otel") == None
    ensures lib.extensionAs(Stamped(i), "traceid", "test") != None ==>
      r == lib.extensionAs(Stamped(i), "traceid", "test")
    ensures lib.extensionAs(Stamped(i), "traceid", "test") == None ==>
      r == lib.extensionAs(Stamped(i), "group", "otel")
  {
    match lib.extensionAs(Stamped(i), "traceid", "test")
    case Some(err) => Some(err)
    case None => lib.extensionAs(Stamped(i), "group", "otel")
  }

  /** createEvent: sets the event's fields one by one; on the first failing ExtensionAs
      call it returns the empty event with that error, otherwise the sample event for
      `i` with no error. */
  method CreateEvent(lib: Collaborators, i: int) returns (e: Event, err: Option<Error>)
    ensures err == None <==>
      lib.extensionAs(Stamped(i), "traceid", "test") == None &&
      lib.extensionAs(Stamped(i), "group", "otel") == None
    ensures lib.extensionAs(Stamped(i), "traceid", "test").Some? ==>
      err == lib.extensionAs(Stamped(i), "traceid", "test")
    ensures err == EventError(lib, i)
    ensures err == None ==> e == SampleEvent(i)
    ensures err != None ==> e == EmptyEvent
  {
    e := EmptyEvent;
    e := e.(specVersion := SampleSpecVersion);
    e := e.(id := RuneString(i));
    e := e.(eventType := SampleType);
    err := lib.extensionAs(e, "traceid", "test");
    if err != None {
      return EmptyEvent, err;
    }
    var err2 := lib.extensionAs(e, "group", "otel");
    if err2 != None {
      return EmptyEvent, err2;
    }
    e := e.(source := SampleSource);
    e := e.(dataContentType := ApplicationJson,
            data := map["id" := JsonInt(i), "message" := JsonString(SampleMessage)]);
    return e, err;
  }

  /** What the first `n` rounds of pushTraces' loop produce: the events 0..n-1 in order,
      or the error of the first event that could not be built. */
  function BatchOutcome(lib: Collaborators, n: nat): (r: Result<seq<Event>>)
    ensures r.Success? ==> |r.value| == n
    ensures r.Failure? ==> exists k :: 0 <= k < n && EventError(lib, k) == Some(r.error)
  {
    if n == 0 then Success([])
    else
      match BatchOutcome(lib, n - 1)
      case Failure(err) => Failure(err)
      case Success(batch) =>
        match EventError(lib, n - 1)
        case Some(err) => Failure(err)
        case None => Success(batch + [SampleEvent(n - 1)])
  }

  /** The loop succeeds exactly when every event builds, and then the k-th event of the
      batch is the sample event for k. */
  lemma {:induction false} BatchOutcomeSuccess(lib: Collaborators, n: nat)
    ensures BatchOutcome(lib, n).Success? <==> forall k :: 0 <= k < n ==> EventError(lib, k) == None
    ensures BatchOutcome(lib, n).Success? ==>
      |BatchOutcome(lib, n).value| == n &&
      forall k :: 0 <= k < n ==> BatchOutcome(lib, n).value[k] == SampleEvent(k)
  {
    if n > 0 {
      BatchOutcomeSuccess(lib, n - 1);
    }
  }

  /** The loop fails with `err` exactly when `err` is the error of the first event that
      does not build. */
  lemma {:induction false} BatchOutcomeFailure(lib: Collaborators, n: nat, err: Error)
    ensures BatchOutcome(lib, n) == Failure(err) <==>
      exists k :: 0 <= k < n && EventError(lib, k) == Some(err) &&
        forall j :: 0 <= j < k ==> EventError(lib, j) == None
  {
    if n > 0 {
      BatchOutcomeFailure(lib, n - 1, err);
      BatchOutcomeSuccess(lib, n - 1);
      if BatchOutcome(lib, n) == Failure(err) && BatchOutcome(lib, n - 1).Success? {
        assert EventError(lib, n - 1) == Some(err);
      }
    }
  }

  /** Once an event fails, the loop returns: later rounds do not change the outcome. */
  lemma {:induction false} BatchFailureFinal(lib: Collaborators, m: nat, n: nat)
    requires m <= n && BatchOutcome(lib, m).Failure?
    ensures BatchOutcome(lib, n) == BatchOutcome(lib, m)
  {
    if m < n {
      BatchFailureFinal(lib, m, n - 1);
    }
  }

  /** The ten ids of a batch are pairwise distinct: each is the single code point of
      its index. */
  lemma BatchIdsDistinct(lib: Collaborators, batch: seq<Event>)
    requires BatchOutcome(lib, BatchSize) == Success(batch)
    ensures |batch| == 10
    ensures forall j, k :: 0 <= j < k < |batch| ==> batch[j].id != batch[k].id
  {
    BatchOutcomeSuccess(lib, BatchSize);
    forall j, k | 0 <= j < k < |batch| ensures batch[j].id != batch[k].id {
      assert batch[j].id[0] as int == j && batch[k].id[0] as int == k;
    }
  }

  /** The status check of buildAndSendBatch: 2xx is success, anything else an error
      carrying the code. */
  function CheckStatus(code: int): (r: Option<Error>)
    ensures r == None <==> 200 <= code <= 299
    ensures r != None ==> r == Some(StatusCode(code))
  {
    if code < 200 || code > 299 then Some(StatusCode(code)) else None
  }

  const RequestFailedContext: string := "failed to push trace data via Zipkin exporter"
  const SendFailedContext: string := "failed to send cloud event"

  /** The one request buildAndSendBatch sends for an encoded batch. */
  function PostRequest(url: string, token: string, body: seq<bv8>): WireRequest
  {
    WireRequest("POST", url, map["Authorization" := "Bearer " + token, "Content-Type" := ApplicationJson], body)
  }

  /** The result of one delivery, and the requests it handed to the client. */
  datatype Delivery = Delivery(err: Option<Error>, issued: seq<WireRequest>)

  /** buildAndSendBatch as a function of the client's answer to attempt `attempt`. */
  function Deliver(lib: Collaborators, url: string, token: string,
                   respond: (nat, WireRequest) -> Result<Response>, attempt: nat,
                   batch: seq<Event>): (d: Delivery)
    ensures lib.newRequest("POST", url).Some? ==>
      d == Delivery(Some(Wrapped(RequestFailedContext, lib.newRequest("POST", url).value)), [])
    ensures lib.newRequest("POST", url) == None ==>
      d.issued == [PostRequest(url, token, lib.encode(batch))]
    ensures forall req :: req in d.issued ==>
      req.verb == "POST" && req.url == url && req.body == lib.encode(batch) &&
      "Authorization" in req.header && req.header["Authorization"] == "Bearer " + token &&
      "Content-Type" in req.header && req.header["Content-Type"] == "application/json"
    ensures d.issued != [] ==> match respond(attempt, d.issued[0])
      case Failure(te) => d.err == Some(Wrapped("failed to send cloud event", te))
      case Success(resp) => d.err == CheckStatus(resp.statusCode)
    ensures d.err == None <==>
      d.issued != [] && respond(attempt, d.issued[0]).Success? &&
      200 <= respond(attempt, d.issued[0]).value.statusCode <= 299
  {
    match lib.newRequest("POST", url)
    case Some(err) => Delivery(Some(Wrapped(RequestFailedContext, err)), [])
    case None =>
      var req := PostRequest(url, token, lib.encode(batch));
      match respond(attempt, req)
      case Failure(te) => Delivery(Some(Wrapped(SendFailedContext, te)), [req])
      case Success(resp) => Delivery(CheckStatus(resp.statusCode), [req])
  }

  /** pushTraces as a function: the outcome and the requests it hands to the client,
      when the client has already been handed `attempt` requests. */
  function Export(lib: Collaborators, url: string, token: string,
                  respond: (nat, WireRequest) -> Result<Response>, attempt: nat,
                  td: Traces): (d: Delivery)
    ensures |d.issued| <= 1
    ensures BatchOutcome(lib, BatchSize).Failure? ==>
      d == Delivery(Some(BatchOutcome(lib, BatchSize).error), [])
    ensures d.err == None ==> |d.issued| == 1 && BatchOutcome(lib, BatchSize).Success?
  {
    match BatchOutcome(lib, BatchSize)
    case Failure(err) => Delivery(Some(err), [])
    case Success(batch) => Deliver(lib, url, token, respond, attempt, batch)
  }

  /** The trace input is never read: every input gives the same outcome and requests. */
  lemma ExportIgnoresTraces(lib: Collaborators, url: string, token: string,
                            respond: (nat, WireRequest) -> Result<Response>, attempt: nat,
                            td1: Traces, td2: Traces)
    ensures Export(lib, url, token, respond, attempt, td1) == Export(lib, url, token, respond, attempt, td2)
  {
  }

  /** When an event cannot be built, pushTraces returns that event's error and no request
      is made. */
  lemma ExportStopsAtFirstBadEvent(lib: Collaborators, url: string, token: string,
                                   respond: (nat, WireRequest) -> Result<Response>, attempt: nat,
                                   td: Traces, k: nat)
    requires k < BatchSize && EventError(lib, k) != None
    requires forall j :: 0 <= j < k ==> EventError(lib, j) == None
    ensures Export(lib, url, token, respond, attempt, td) == Delivery(EventError(lib, k), [])
  {
    BatchOutcomeFailure(lib, BatchSize, EventError(lib, k).value);
  }

  /** pushTraces succeeds exactly when all ten events build, the request can be built,
      and the one request it sends, a POST of the encoded ten sample events, gets a 2xx
      answer. */
  lemma ExportSucceeds(lib: Collaborators, url: string, token: string,
                       respond: (nat, WireRequest) -> Result<Response>, attempt: nat, td: Traces)
    ensures Export(lib, url, token, respond, attempt, td).err == None <==>
      (forall k :: 0 <= k < BatchSize ==> EventError(lib, k) == None) &&
      lib.newRequest("POST", url) == None &&
      var req := PostRequest(url, token, lib.encode(seq(BatchSize, SampleEvent)));
      respond(attempt, req).Success? && 200 <= respond(attempt, req).value.statusCode <= 299
  {
    BatchOutcomeSuccess(lib, BatchSize);
    if BatchOutcome(lib, BatchSize).Success? {
      assert BatchOutcome(lib, BatchSize).value == seq(BatchSize, SampleEvent);
    }
  }

  /** buildAndSendBatch: encodes the batch, builds the POST request with its headers set
      in place, hands it to the client and classifies the answer. */
  method BuildAndSendBatch(ce: CloudEventExporter, lib: Collaborators, batch: seq<Event>)
    returns (err: Option<Error>)
    requires ce.client != null
    modifies ce.client
    ensures var d := Deliver(lib, ce.url, ce.token, ce.client.respond, |old(ce.client.sent)|, batch);
      err == d.err && ce.client.sent == old(ce.client.sent) + d.issued
  {
    var body := lib.encode(batch);
    var reqErr := lib.newRequest("POST", ce.url);
    if reqErr != None {
      return Some(Wrapped(RequestFailedContext, reqErr.value));
    }
    var req := new Request("POST", ce.url, body);
    req.SetHeader("Authorization", "Bearer " + ce.token);
    req.SetHeader("Content-Type", ApplicationJson);
    var resp := ce.client.Do(req.Wire());
    if resp.Failure? {
      return Some(Wrapped(SendFailedContext, resp.error));
    }
    if resp.value.statusCode < 200 || resp.value.statusCode > 299 {
      return Some(StatusCode(resp.value.statusCode));
    }
    return None;
  }

  /** pushTraces: builds events 0..9 in order, returning at the first that fails, then
      sends the batch. The trace input is not read. */
  method PushTraces(ce: CloudEventExporter, lib: Collaborators, td: Traces) returns (err: Option<Error>)
    requires ce.client != null
    modifies ce.client
    ensures var d := Export(lib, ce.url, ce.token, ce.client.respond, |old(ce.client.sent)|, td);
      err == d.err && ce.client.sent == old(ce.client.sent) + d.issued
  {
    var batch: seq<Event> := [];
    var i := 0;
    while i < BatchSize
      invariant 0 <= i <= BatchSize
      invariant BatchOutcome(lib, i) == Success(batch)
      invariant ce.client.sent == old(ce.client.sent)
    {
      var e, eventErr := CreateEvent(lib, i);
      if eventErr != None {
        BatchFailureFinal(lib, i + 1, BatchSize);
        return eventErr;
      }
      batch := batch + [e];
      i := i + 1;
    }
    err := BuildAndSendBatch(ce, lib, batch);
  }
}
