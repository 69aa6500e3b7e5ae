/** The exporter's configuration (exporter/cloudeventhttpexporter/config.go) and its
    validation. Of the HTTP-client settings only the fields the exporter or its factory
    touch are kept. The queue and retry records are passed through unchanged and nothing
    reads their fields, which are illustrative. Durations are nanoseconds, as Go's
    time.Duration. */
module ExporterConfig {
  import opened Errors

  /** time.Second, in nanoseconds. */
  const Second: int := 1_000_000_000

  /** exporterhelper.QueueSettings (`sending_queue`). */
  datatype QueueSettings = QueueSettings(enabled: bool, numConsumers: int, queueSize: int)

  /** exporterhelper.RetrySettings (`retry_on_failure`). */
  datatype RetrySettings = RetrySettings(
    enabled: bool, initialInterval: int, maxInterval: int, maxElapsedTime: int)

  /** confighttp.HTTPClientSettings, squashed into the configuration: the endpoint the
      events are sent to and the client's timeout and buffer sizes. */
  datatype HttpClientSettings = HttpClientSettings(
    endpoint: string, timeout: int, readBufferSize: int, writeBufferSize: int)

  datatype Config = Config(
    queue: QueueSettings,
    retry: RetrySettings,
    http: HttpClientSettings,
    accessToken: string)

  const EndpointNotSpecified: Error :=
    Message("`endpoint` not specified, please add it to your configuration file")

  const AccessTokenNotSpecified: Error :=
    Message("`accessToken` not specified, please add it to your configuration file")

  /** Config.Validate: nil exactly when both the endpoint and the access token are set;
      the endpoint is checked first, so it is the error reported when both are missing. */
  function Validate(cfg: Config): (r: Option<Error>)
    ensures r == None <==> cfg.http.endpoint != "" && cfg.accessToken != ""
    ensures cfg.http.endpoint == "" ==> r == Some(EndpointNotSpecified)
    ensures cfg.http.endpoint != "" && cfg.accessToken == "" ==> r == Some(AccessTokenNotSpecified)
  {
    if cfg.http.endpoint == "" then Some(EndpointNotSpecified)
    else if cfg.accessToken == "" then Some(AccessTokenNotSpecified)
    else None
  }

  /** Validation looks at nothing but whether the two strings are empty: the queue, retry
      and HTTP-client settings, and the strings' contents, never change its answer. */
  lemma ValidateSeesOnlyEmptiness(a: Config, b: Config)
    requires (a.http.endpoint == "") == (b.http.endpoint == "")
    requires (a.accessToken == "") == (b.accessToken == "")
    ensures Validate(a) == Validate(b)
  {
  }
}
