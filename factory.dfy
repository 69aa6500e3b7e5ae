/** The exporter's factory (exporter/cloudeventhttpexporter/factory.go): the default
    configuration and the construction of the traces exporter from a configuration. */
module Factory {
  import opened Errors
  import opened ExporterConfig
  import opened CloudEvent

  const DefaultTimeout: int := 5 * Second

  const DefaultWriteBufferSize: int := 512 * 1024

  const EmptyEndpoint: Error := Message("exporter config requires a non-empty 'endpoint'")

  /** What createTracesExporter hands to the exporter helper: the push routine's
      exporter, the helper's own timeout, and the queue and retry settings. */
  datatype TracesExporter = TracesExporter(
    exporter: CloudEventExporter,
    timeout: int,
    queue: QueueSettings,
    retry: RetrySettings)

  /** createDefaultConfig, given the library's default retry and queue settings: a
      5-second client timeout, a 512 KiB write buffer, and neither endpoint nor access
      token, so that a configuration left at its defaults does not validate. */
  function CreateDefaultConfig(defaultRetry: RetrySettings, defaultQueue: QueueSettings): (c: Config)
    ensures c.http.timeout == 5_000_000_000 && c.http.writeBufferSize == 524_288
    ensures c.http.readBufferSize == 0
    ensures c.retry == defaultRetry && c.queue == defaultQueue
    ensures c.accessToken == "" && c.http.endpoint == ""
    ensures Validate(c) == Some(EndpointNotSpecified)
  {
    Config(
      defaultQueue,
      defaultRetry,
      HttpClientSettings(endpoint := "", timeout := DefaultTimeout, readBufferSize := 0,
                         writeBufferSize := DefaultWriteBufferSize),
      "")
  }

  /** createTracesExporter: refuses an empty endpoint before building anything; otherwise
      the exporter sends to the configured endpoint, the helper's own timeout is 0 (the
      HTTP client's timeout applies) and the configured queue and retry settings are
      passed on. `token` is the configuration value the exporter's token is read from. */
  function CreateTracesExporter(cfg: Config, token: string): (r: Result<TracesExporter>)
    ensures r.Failure? <==> cfg.http.endpoint == ""
    ensures r.Failure? ==> r.error == EmptyEndpoint
    ensures r.Success? ==>
      r.value.exporter.url == cfg.http.endpoint && r.value.exporter.token == token &&
      r.value.timeout == 0 && r.value.queue == cfg.queue && r.value.retry == cfg.retry
  {
    if cfg.http.endpoint == "" then Failure(EmptyEndpoint)
    else
      var ce := CreateCloudEventExporter(cfg, token);
      Success(TracesExporter(ce, 0, cfg.queue, cfg.retry))
  }

  /** The factory refuses the default configuration, whatever the library defaults are. */
  lemma DefaultConfigRefused(defaultRetry: RetrySettings, defaultQueue: QueueSettings, token: string)
    ensures CreateTracesExporter(CreateDefaultConfig(defaultRetry, defaultQueue), token) ==
      Failure(EmptyEndpoint)
  {
  }

  /** The factory's guard is weaker than validation: every configuration that validates
      is accepted, and so is one whose access token is empty. */
  lemma FactoryGuardWeakerThanValidate(cfg: Config, token: string)
    ensures Validate(cfg) == None ==> CreateTracesExporter(cfg, token).Success?
    ensures cfg.http.endpoint != "" && cfg.accessToken == "" ==>
      Validate(cfg) == Some(AccessTokenNotSpecified) && CreateTracesExporter(cfg, token).Success?
  {
  }
}
