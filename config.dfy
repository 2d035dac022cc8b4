/** Package `config`: the Kafka exporter's configuration record and its
    defaults. */
module Config {

  /** `time.Duration`: a signed count of nanoseconds. */
  type Duration = int

  const Millisecond: Duration := 1_000_000

  const ExporterTypeName: string := "kafka"
  const DefaultTopic: string := "otlp"
  const DefaultEncoding: string := "otlp_proto"
  const DefaultBroker: string := "localhost:9092"
  // The metadata defaults are those of the Kafka client library.
  const DefaultMetadataRetryMax: int := 3
  const DefaultMetadataRetryBackoff: Duration := 250 * Millisecond
  const DefaultMetadataFull: bool := true

  /** `configmodels.ExporterSettings`: the component's type and name. */
  datatype ExporterSettings = ExporterSettings(typeVal: string, nameVal: string)

  /** `exporterhelper.TimeoutSettings`: the per-call deadline of the host's
      timeout decorator (0 disables it). */
  datatype TimeoutSettings = TimeoutSettings(timeout: Duration)

  /** `exporterhelper.QueueSettings`: the host's bounded sending queue. */
  datatype QueueSettings = QueueSettings(enabled: bool, numConsumers: int, queueSize: int)

  /** `exporterhelper.RetrySettings`: the host's retry-on-failure policy. */
  datatype RetrySettings = RetrySettings(
    enabled: bool,
    initialInterval: Duration,
    maxInterval: Duration,
    maxElapsedTime: Duration)

  /** `MetadataRetry`: how often and how far apart metadata requests are
      retried while the cluster elects a leader or starts up. */
  datatype MetadataRetry = MetadataRetry(max: int, backoff: Duration)

  /** `Metadata`: whether the client keeps metadata for all topics, and how
      it retries fetching it. */
  datatype Metadata = Metadata(full: bool, retry: MetadataRetry)

  /** `Config`: the whole exporter configuration. */
  datatype Config = Config(
    exporterSettings: ExporterSettings,
    timeoutSettings: TimeoutSettings,
    queueSettings: QueueSettings,
    retrySettings: RetrySettings,
    brokers: seq<string>,
    protocolVersion: string,
    topic: string,
    encoding: string,
    metadata: Metadata)

  /** `Default()`: the configuration every user override starts from. The
      host's own timeout, retry and queue defaults are taken as given and
      carried over unchanged; everything else is fixed: a single local
      broker, topic "otlp", the OTLP protobuf encoding, full metadata with
      three retries 250 ms apart, type and name "kafka", and no protocol
      version (the empty string). */
  function Default(hostTimeout: TimeoutSettings, hostRetry: RetrySettings, hostQueue: QueueSettings): (c: Config)
    ensures c.exporterSettings.typeVal == "kafka" && c.exporterSettings.nameVal == "kafka"
    ensures c.timeoutSettings == hostTimeout && c.retrySettings == hostRetry && c.queueSettings == hostQueue
    ensures |c.brokers| == 1 && c.brokers[0] == "localhost:9092"
    ensures c.topic == "otlp" && c.encoding == "otlp_proto"
    ensures c.metadata.full
    ensures c.metadata.retry.max == 3 && c.metadata.retry.backoff == 250_000_000
    ensures c.protocolVersion == ""
  {
    Config(
      ExporterSettings(ExporterTypeName, ExporterTypeName),
      hostTimeout,
      hostQueue,
      hostRetry,
      [DefaultBroker],
      "",
      DefaultTopic,
      DefaultEncoding,
      Metadata(DefaultMetadataFull, MetadataRetry(DefaultMetadataRetryMax, DefaultMetadataRetryBackoff)))
  }

  /** The defaults name at least one broker, a non-empty topic and a
      non-empty encoding. */
  lemma DefaultIsUsable(hostTimeout: TimeoutSettings, hostRetry: RetrySettings, hostQueue: QueueSettings)
    ensures var c := Default(hostTimeout, hostRetry, hostQueue);
      c.brokers != [] && c.topic != "" && c.encoding != ""
  {
  }
}
