# Cloud event HTTP exporter, modelled in Dafny

A model of the OpenTelemetry Collector's `cloudeventhttpexporter` as the code stands
in this repository. It has three parts.

- **Export.** `pushTraces` ignores the spans it is given. It builds ten fixed sample
  cloud events, with ids `string(0)` … `string(9)`, and stops at the first event that
  cannot be built. It then sends the whole batch in one POST request to the configured
  URL and classifies the answer. A 2xx status is success. Any other status is an error
  carrying the code. A transport failure is a wrapped error.
- **Configuration.** `Validate` requires a non-empty endpoint and then a non-empty
  access token, in that order.
- **Factory.** `createDefaultConfig` sets a 5-second client timeout and a 512 KiB write
  buffer. `createTracesExporter` refuses an empty endpoint before building anything.

Modules and files:

- `errors.dfy` (`Errors`): `Option`, `Result` and Go-style error values. It also holds
  the `%d` rendering of a status code and its inverse.
- `config.dfy` (`ExporterConfig`): the configuration record and `Validate`.
- `cloudevent.dfy` (`CloudEvent`): events, event building, the batch loop, request
  building and status classification.
- `factory.dfy` (`Factory`): the default configuration and the exporter's construction.

The libraries the exporter calls are inputs of the model, because they are library
code outside this package:

- The cloudevents SDK's `ExtensionAs`, the `gob` encoder and
  `http.NewRequestWithContext` are total function values in a `Collaborators` record.
  `ExtensionAs` may fail and does not change the event. `NewRequestWithContext` may fail.
- The HTTP client is a class `HttpClient`. It keeps the log `sent` of every request
  handed to `Do`. It answers the n-th request from a fixed oracle `respond(n, request)`
  with either a status code or a transport error. "No request was made" is stated as
  "the log did not grow".

The loop of `pushTraces`, the step-by-step setters of `createEvent` and the in-place
header setting of `buildAndSendBatch` are methods: `PushTraces`, `CreateEvent` and
`BuildAndSendBatch`. The methods are proved against the functions `BatchOutcome`,
`EventError`, `SampleEvent`, `Deliver` and `Export`. The lemmas state the properties of
those functions.

Three facts about the code shape the model:

- `pushTraces` ignores its spans and always builds ten synthetic events.
- The request body is `gob`-encoded but labelled `application/json`.
- The factory checks only the endpoint. The access-token check exists only in
  `Validate` (`Factory.FactoryGuardWeakerThanValidate`).

## Model

| member | source | states |
|---|---|---|
| `Errors.DigitsRoundTrip` | exporter/cloudeventhttpexporter/cloudevent.go:92 | the decimal digits written for a non-negative status code read back as that code |
| `Errors.DecimalRoundTrip` | exporter/cloudeventhttpexporter/cloudevent.go:92 | the `%d` rendering of any integer, sign included, parses back to the integer |
| `Errors.Text` | exporter/cloudeventhttpexporter/cloudevent.go:81-92 | what `Error()` returns: a plain message is its own text, a `%w`-wrapped error's text opens with its context and ": ", and a status error's text opens with the fixed prefix; `Errors.WrappedTextKeepsCause` and `Errors.StatusCodeTextCarriesCode` state the rest |
| `Errors.WrappedTextKeepsCause` | exporter/cloudeventhttpexporter/cloudevent.go:81-89 | wrapping with `%w` keeps the cause's whole text after the context and ": " |
| `Errors.Decimal` | exporter/cloudeventhttpexporter/cloudevent.go:92 | the `%d` rendering is non-empty and starts with a digit iff the number is non-negative; `Errors.DecimalRoundTrip` states that it loses nothing |
| `Errors.StatusCodeTextCarriesCode` | exporter/cloudeventhttpexporter/cloudevent.go:92 | a status error's text is the fixed prefix followed by text that parses back to exactly the status code |
| `ExporterConfig.Validate` | exporter/cloudeventhttpexporter/config.go:27-37 | nil iff endpoint and access token are both non-empty; an empty endpoint gives the `endpoint` error even when the token is also empty; a set endpoint with an empty token gives the `accessToken` error |
| `ExporterConfig.ValidateSeesOnlyEmptiness` | exporter/cloudeventhttpexporter/config.go:27-37 | two configurations whose endpoint and token agree on emptiness validate alike, whatever their queue, retry and HTTP-client settings |
| `CloudEvent.Request.constructor` | exporter/cloudeventhttpexporter/cloudevent.go:79 | a new request carries the given method, URL and body and no headers |
| `CloudEvent.Request.SetHeader` | exporter/cloudeventhttpexporter/cloudevent.go:83-85 | setting a header replaces that key's value in place and leaves the other keys alone |
| `CloudEvent.HttpClient.Do` | exporter/cloudeventhttpexporter/cloudevent.go:87 | the request is appended to the client's log, and the answer is the oracle's answer for that attempt |
| `CloudEvent.CreateCloudEventExporter` | exporter/cloudeventhttpexporter/cloudevent.go:23-30 | the exporter's url is the configured endpoint and its token the given value; no client is set; it never fails |
| `CloudEvent.RuneString` | exporter/cloudeventhttpexporter/cloudevent.go:56 | `string(i)` is one character, and for 0 <= i < 0xD800 that character is code point i |
| `CloudEvent.SampleEvent` | exporter/cloudeventhttpexporter/cloudevent.go:55-70 | each built event has specversion "1.0", type "com.cloudevents.sample.sent", the fixed sender URL as source, JSON content type, data {"id": i, "message": "Hello, World!"} and id `string(i)` |
| `CloudEvent.EventError` | exporter/cloudeventhttpexporter/cloudevent.go:58-65 | the error createEvent returns: none iff both ExtensionAs calls succeed; the first call's error when it fails; otherwise the second call's result |
| `CloudEvent.CreateEvent` | exporter/cloudeventhttpexporter/cloudevent.go:52-72 | no error iff both ExtensionAs calls succeed; then the result is the sample event for i; otherwise the result is the empty event with the first failing call's error |
| `CloudEvent.BatchOutcome` | exporter/cloudeventhttpexporter/cloudevent.go:33-42 | the outcome of the first n rounds of the loop: a completed batch has n events, and a failure carries the error of some event among the first n; `CloudEvent.BatchOutcomeSuccess` and `CloudEvent.BatchOutcomeFailure` state it exactly |
| `CloudEvent.BatchOutcomeSuccess` | exporter/cloudeventhttpexporter/cloudevent.go:33-42 | the loop completes iff every event builds, and then the batch has exactly n events, the k-th being the sample event for k |
| `CloudEvent.BatchOutcomeFailure` | exporter/cloudeventhttpexporter/cloudevent.go:35-39 | the loop fails with an error iff that is the error of the first event that does not build |
| `CloudEvent.BatchFailureFinal` | exporter/cloudeventhttpexporter/cloudevent.go:36-39 | once an event fails, later rounds do not change the outcome (the early return) |
| `CloudEvent.BatchIdsDistinct` | exporter/cloudeventhttpexporter/cloudevent.go:35-41 | a completed batch has ten events with pairwise distinct ids |
| `CloudEvent.CheckStatus` | exporter/cloudeventhttpexporter/cloudevent.go:91-94 | no error iff 200 <= status <= 299; otherwise the error carries the status code |
| `CloudEvent.Deliver` | exporter/cloudeventhttpexporter/cloudevent.go:74-95 | a request-construction error is returned wrapped and no request is issued; otherwise exactly one request is issued: a POST to the url, with body the encoded batch, `Authorization: Bearer <token>` and `Content-Type: application/json`. A transport error is returned wrapped, and the result is success iff the answer is a 2xx response |
| `CloudEvent.Export` | exporter/cloudeventhttpexporter/cloudevent.go:32-50 | pushTraces as a function: at most one request is issued; a failing event gives its error with no request; success means exactly one request was issued after a completed batch; `CloudEvent.ExportSucceeds` and `CloudEvent.ExportStopsAtFirstBadEvent` state the rest |
| `CloudEvent.ExportIgnoresTraces` | exporter/cloudeventhttpexporter/cloudevent.go:32-50 | the outcome and the requests issued are the same for every trace input |
| `CloudEvent.ExportStopsAtFirstBadEvent` | exporter/cloudeventhttpexporter/cloudevent.go:35-39 | when event k is the first that fails to build, pushTraces returns its error and issues no request |
| `CloudEvent.ExportSucceeds` | exporter/cloudeventhttpexporter/cloudevent.go:32-50 | pushTraces succeeds iff all ten events build, the request can be built, and the POST of the encoded ten sample events gets a 2xx answer |
| `CloudEvent.BuildAndSendBatch` | exporter/cloudeventhttpexporter/cloudevent.go:74-95 | the method's error and the client's new log are those `Deliver` specifies |
| `CloudEvent.PushTraces` | exporter/cloudeventhttpexporter/cloudevent.go:32-50 | the loop and the send together give the error and the client's new log that `Export` specifies |
| `Factory.CreateDefaultConfig` | exporter/cloudeventhttpexporter/factory.go:35-47 | timeout 5 s, write buffer 512*1024, read buffer 0, the library's retry and queue defaults, no endpoint and no token, so validation fails with the endpoint error |
| `Factory.CreateTracesExporter` | exporter/cloudeventhttpexporter/factory.go:49-75 | fails iff the endpoint is empty, with "exporter config requires a non-empty 'endpoint'"; otherwise the exporter's url is the endpoint, the helper timeout is 0, and the queue and retry settings are the configured ones |
| `Factory.DefaultConfigRefused` | exporter/cloudeventhttpexporter/factory.go:56-59 | the factory refuses the default configuration |
| `Factory.FactoryGuardWeakerThanValidate` | exporter/cloudeventhttpexporter/factory.go:56-61 | every validating configuration is accepted by the factory, and so is one with an endpoint but an empty access token, which validation rejects |

## Left out

- The context argument and cancellation. A cancelled request shows up only as a
  transport error from the client oracle.
- The `Content-Length` header (cloudevent.go:84). Its value is `string(...)` of the size
  of the encoded body, and the encoder is a library call. The modelled request has only
  the two headers `Authorization` and `Content-Type`.
- The `gob` encoding. It is an opaque function of the batch, and its error is discarded
  as in the source.
- The cloudevents SDK internals:
  - `NewEvent`'s defaults: every field it could set is overwritten or replaced by the
    empty event.
  - `SetData` is treated as always succeeding, since its error is discarded.
  - What `ExtensionAs` does is SDK behaviour and is not modelled. It is an abstract check
    that may fail and does not change the event.
- The response body. Its contents are never read, and it is never closed.
- The exporter's `start` routine, which is not part of this model. Nothing in
  cloudevent.go assigns the client, so `PushTraces` and `BuildAndSendBatch` require one
  to be installed. With no client, the Go code would fail at the `Do` call.
- The token source. `createCloudEventExporter` reads the token from a configuration field
  that the `Config` struct in config.go does not declare. The model takes the token as a
  separate input and does not tie it to the access token.
- `ExporterSettings`. The default configuration sets it, but the `Config` struct does not
  declare it.
- The factory registration (`NewFactory`, the type string, the stability level) and the
  unused `defaultFormat` constant.
- The library's default retry and queue values. They are parameters of
  `CreateDefaultConfig`.
- The HTTP-client settings other than endpoint, timeout and buffer sizes.
- What the exporter helper does with the push routine, the queue and the retry settings.
  Its own construction errors are library behaviour, so `CreateTracesExporter` treats that step
  as always succeeding.
- Validation not changing the configuration. This holds by construction, since
  `Validate` is a function of the configuration value.
