# Kafka trace exporter: encoding registry, defaults and OTLP marshaller

A Dafny model of the core of the OpenTelemetry Collector's Kafka trace
exporter (`exporter/kafkaexporter`):

- **the encoding registry** held by the exporter factory: a map from
  encoding name to trace marshaller, seeded with the built-in marshallers,
  into which each `WithTraceMarshaller` option writes its entries in place
  (last write wins), applied by `NewFactory` in argument order
  (`factory.dfy`, module `KafkaExporter`, class `KafkaExporterFactory`);
- **the wiring of `createTraceExporter`**: the error of `newExporter` is
  passed through, and on success the host's timeout is forced to 0 while
  the retry and queue settings are taken from the configuration;
- **the configuration record and `Default()`** (`config.dfy`, module
  `Config`), with durations as integer nanoseconds like Go's `time.Duration`;
- **the built-in OTLP protobuf marshaller** (`trace.dfy`, module `Trace`):
  its fixed encoding name and the single-message wrapping around the
  protobuf serializer;
- the message envelope (`wire.dfy`, module `Wire`) and Go's error returns
  (`wrappers.dfy`, module `Wrappers`).

Go's `(value, error)` returns, where exactly one side is non-nil, are the
`Result` datatype. The `Marshaller` interface is a record of its two methods
(`encoding`, `marshal`). A `FactoryOption` closure is the datatype
`FactoryOption`; the body of the closure that `WithTraceMarshaller` returns
is the method `KafkaExporterFactory.Apply`. Its loop takes the names in an
arbitrary order, like Go's map iteration, and its postcondition shows that the
order does not matter. `wire.Message` and `internal.Message` are the same
one-field struct, modelled once as `Wire.Message`.

Parameters stand for the code this model does not contain:
`trace.DefaultMarshallers()` is the `defaultMarshallers` argument of the
factory constructor; the protobuf conversion and encoding
(`pdata.TracesToOtlp`, `ExportTraceServiceRequest.Marshal`) is the
`serialize` function; `newExporter` is the `newExporter` function, which may
fail; the host's `CreateDefaultTimeoutSettings`, `CreateDefaultRetrySettings`
and `CreateDefaultQueueSettings` are arguments of `Config.Default`.

## Model

| member | source | states |
|---|---|---|
| `Trace.Marshal` | exporter/kafkaexporter/trace/otlp_marshaller.go:32-41 | succeeds exactly when the serializer succeeds; on success exactly one message, whose value is the serialized bytes of the whole batch; on failure the serializer's error unchanged and no message |
| `Trace.OTLPProtoMarshaller` | exporter/kafkaexporter/trace/otlp_marshaller.go:23-30 | the built-in marshaller's encoding is always "otlp_proto" and its marshal is `Marshal` for every batch |
| `Trace.MarshalPayloadRoundTrip` | exporter/kafkaexporter/trace/otlp_marshaller.go:36-40 | a reader of one batch's messages finds a single message whose payload is exactly the serializer's bytes |
| `Trace.MarshalDecodeRoundTrip` | exporter/kafkaexporter/trace/otlp_marshaller.go:33-40 | with a deserializer that undoes the serializer, the batch is recovered from the single message |
| `Trace.MarshalDependsOnlyOnSerialization` | exporter/kafkaexporter/trace/otlp_marshaller.go:23-41 | the marshaller has no state: batches that serialize alike marshal alike |
| `Config.Default` | exporter/kafkaexporter/config/config.go:99-119 | type and name "kafka"; exactly one broker "localhost:9092"; topic "otlp"; encoding "otlp_proto"; metadata full; metadata retry max 3 and backoff 250 ms; empty protocol version; host timeout, retry and queue defaults carried unchanged |
| `Config.DefaultIsUsable` | exporter/kafkaexporter/config/config.go:108-110 | the default broker list, topic and encoding are all non-empty |
| `KafkaExporter.Merge` | exporter/kafkaexporter/factory.go:33-35 | the merged names are the old names plus the option's names; each option name maps to the option's marshaller (overwriting a built-in); every other name keeps its old marshaller |
| `KafkaExporter.ApplyOptions` | exporter/kafkaexporter/factory.go:41-46 | applying options in order never removes a name of the seed registry |
| `KafkaExporter.KafkaExporterFactory.constructor` | exporter/kafkaexporter/factory.go:40-46 | `NewFactory`: the registry is the built-in marshallers with the options applied first to last |
| `KafkaExporter.KafkaExporterFactory.Apply` | exporter/kafkaexporter/factory.go:31-36 | after the option's loop the registry is the old registry merged with the option's map, whatever order the names were written in |
| `KafkaExporter.KafkaExporterFactory.CreateTraceExporter` | exporter/kafkaexporter/factory.go:57-76 | a failure of `newExporter` is returned unchanged with no exporter; on success the wrapped exporter has timeout 0 whatever the configuration says, and the configuration's retry and queue settings unchanged |
| `KafkaExporter.MergeEmpty` | exporter/kafkaexporter/factory.go:33-35 | an option with an empty map leaves the registry unchanged |
| `KafkaExporter.MergeIdempotent` | exporter/kafkaexporter/factory.go:31-36 | applying the same option twice gives the same registry as applying it once |
| `KafkaExporter.ApplyOptionsNames` | exporter/kafkaexporter/factory.go:41-46 | the built registry's names are exactly the seed's names plus every name some option installs |
| `KafkaExporter.ApplyOptionsLastWins` | exporter/kafkaexporter/factory.go:44-46 | a name maps to the marshaller of the last option that installs it |
| `KafkaExporter.ApplyOptionsKeepsOthers` | exporter/kafkaexporter/factory.go:41-46 | a name no option installs keeps its seed marshaller, or stays absent |
| `KafkaExporter.LaterOptionWins` | exporter/kafkaexporter/factory.go:44-46 | of two options, the later one's marshaller wins for every name it installs, including a name the earlier one also installs |
| `KafkaExporter.CustomEncodingKeepsDefault` | exporter/kafkaexporter/factory_test.go:62-81 | after installing a "custom" marshaller, both "custom" and the default encoding resolve, the latter to the built-in marshaller |
| `KafkaExporter.DefaultEncodingAlwaysRegistered` | exporter/kafkaexporter/trace/otlp_marshaller.go:28-30 | the built-in marshaller's encoding equals the configured default encoding, and that name stays registered whatever options are applied |

## Left out

- The protobuf conversion and encoding of a batch (`pdata.TracesToOtlp`, `ExportTraceServiceRequest.Marshal`): library code, represented by the `serialize` parameter; the trace data itself is the abstract type `Trace.Traces`.
- `trace.DefaultMarshallers()`: its file is not part of this model; the built-in registry is a parameter of the factory constructor.
- `newExporter`, the encoding lookup and the configuration validation: their files are not part of this model; `newExporter` is a parameter that may fail, and no validation rule is modelled.
- The Kafka producer, broker connections and the metadata probe: network I/O.
- `exporterhelper.NewFactory`, `NewTraceExporter` and its timeout, retry, queue and shutdown decorators: host runtime. Only the values passed to them are modelled (`TraceExporter`); a failure of `NewTraceExporter` itself is not modelled.
- The registration of the factory under the type name "kafka" with `config.Default` as its default configuration: host runtime.
- The `component.ExporterCreateParams` argument of `newExporter` and the `context.Context` argument: logging and cancellation plumbing.
- The type assertion `cfg.(*config.Config)`: the model's configuration is already typed, so the panic on a foreign configuration type cannot arise.
- The `Authentication` field of `Config` and the mapstructure tags: their types and reflection-based decoding are not part of this model.
- The exporterhelper defaults for timeout, retry and queue: not part of this model; `Config.Default` takes them as arguments and carries them over.
- `factory_test.go` is out of step with the factory's package: the names `WithAddMarshallers`, `createDefaultConfig`, `defaultBroker`, `defaultTopic`, `defaultEncoding` and the unqualified `Config` it uses are not defined there, and its `customMarshaller.Marshal` returns `[]internal.Message` where the built-in marshaller returns `[]wire.Message`, so the two disagree on the result type of the `Marshaller` method. The model gives both one `Message` type and uses the test only as evidence of intended behaviour.
