/** Package `kafkaexporter`: the factory that holds the encoding registry and
    wires a Kafka exporter into the host's timeout, retry and queue layer. */
module KafkaExporter {
  import opened Wrappers
  import opened Trace
  import opened Config

  /** The encoding registry: encoding name to the marshaller that implements it. */
  type Registry = map<string, Marshaller>

  /** `FactoryOption`: a change applied to the factory while `NewFactory`
      builds it. `WithTraceMarshaller` is the only way the package offers to
      make one; `KafkaExporterFactory.Apply` is what it does. */
  datatype FactoryOption = WithTraceMarshaller(encodingMarshaller: Registry)

  /** The registry after installing the marshallers of `m`: every name of `m`
      now maps to `m`'s marshaller (overwriting an entry already there), and
      every other name keeps the entry it had. */
  function Merge(registry: Registry, m: Registry): (r: Registry)
    ensures r.Keys == registry.Keys + m.Keys
    ensures forall e :: e in m ==> r[e] == m[e]
    ensures forall e :: e in registry && e !in m ==> r[e] == registry[e]
  {
    registry + m
  }

  /** The registry after applying `options`, first to last, to `registry`.
      Options only add or overwrite, so no name of the seed is ever lost. */
  function ApplyOptions(registry: Registry, options: seq<FactoryOption>): (r: Registry)
    ensures registry.Keys <= r.Keys
    decreases |options|
  {
    if options == [] then registry
    else Merge(ApplyOptions(registry, options[..|options| - 1]), options[|options| - 1].encodingMarshaller)
  }

  /** Every encoding name that some option of `options` installs. */
  function OptionNames(options: seq<FactoryOption>): (names: set<string>)
    decreases |options|
  {
    if options == [] then {}
    else OptionNames(options[..|options| - 1]) + options[|options| - 1].encodingMarshaller.Keys
  }

  /** A factory under construction or in use (`kafkaExporterFactory`). */
  class KafkaExporterFactory {
    var traceMarshallers: Registry

    /** `NewFactory`: start from the built-in marshallers and apply the
        options in the order they were passed. */
    constructor (defaultMarshallers: Registry, options: seq<FactoryOption>)
      ensures traceMarshallers == ApplyOptions(defaultMarshallers, options)
    {
      traceMarshallers := defaultMarshallers;
      new;
      var i := 0;
      while i < |options|
        invariant 0 <= i <= |options|
        invariant traceMarshallers == ApplyOptions(defaultMarshallers, options[..i])
      {
        Apply(options[i]);
        assert options[..i + 1][..i] == options[..i];
        i := i + 1;
      }
      assert options[..|options|] == options;
    }

    /** The function returned by `WithTraceMarshaller(m)`: writes each entry of
        `m` into the factory's registry, one name at a time, in whatever order
        the map yields them. */
    method Apply(option: FactoryOption)
      modifies this
      ensures traceMarshallers == Merge(old(traceMarshallers), option.encodingMarshaller)
    {
      var m := option.encodingMarshaller;
      var pending := m.Keys;
      while pending != {}
        invariant pending <= m.Keys
        invariant traceMarshallers == Merge(old(traceMarshallers), map e | e in m.Keys - pending :: m[e])
        decreases pending
      {
        var encoding :| encoding in pending;
        traceMarshallers := traceMarshallers[encoding := m[encoding]];
        pending := pending - {encoding};
      }
      assert m == map e | e in m.Keys - pending :: m[e];
    }

    /** `createTraceExporter`: build the Kafka exporter from the configuration
        and this factory's registry, then hand it to the host's decorators.
        A failure of `newExporter` is returned as it is and no exporter is
        built. Otherwise the host's timeout is switched off (0), whatever the
        configuration says, because the Kafka producer enforces its own
        timeout, while the retry and queue settings come straight from the
        configuration. */
    method CreateTraceExporter<E>(cfg: Config, newExporter: (Config, Registry) -> Result<E>)
      returns (r: Result<TraceExporter<E>>)
      ensures newExporter(cfg, traceMarshallers).Err? ==> r == Err(newExporter(cfg, traceMarshallers).error)
      ensures newExporter(cfg, traceMarshallers).Ok? ==>
        && r.Ok?
        && r.value.exporter == newExporter(cfg, traceMarshallers).value
        && r.value.config == cfg
        && r.value.timeoutSettings.timeout == 0
        && r.value.retrySettings == cfg.retrySettings
        && r.value.queueSettings == cfg.queueSettings
    {
      var exp := newExporter(cfg, traceMarshallers);
      if exp.Err? {
        return Err(exp.error);
      }
      r := Ok(TraceExporter(cfg, exp.value, TimeoutSettings(0), cfg.retrySettings, cfg.queueSettings));
    }
  }

  /** What `exporterhelper.NewTraceExporter` is given: the configuration, the
      exporter whose push and close operations it drives, and the timeout,
      retry and queue settings of its decorators. */
  datatype TraceExporter<E> = TraceExporter(
    config: Config,
    exporter: E,
    timeoutSettings: TimeoutSettings,
    retrySettings: RetrySettings,
    queueSettings: QueueSettings)

  /** Installing no marshaller changes nothing. */
  lemma MergeEmpty(registry: Registry)
    ensures Merge(registry, map[]) == registry
  {
  }

  /** Applying the same option twice gives the registry applying it once gives. */
  lemma MergeIdempotent(registry: Registry, m: Registry)
    ensures Merge(Merge(registry, m), m) == Merge(registry, m)
  {
  }

  /** The names of the built registry are exactly the seed's names and the
      names some option installs. */
  lemma {:induction false} ApplyOptionsNames(registry: Registry, options: seq<FactoryOption>)
    ensures ApplyOptions(registry, options).Keys == registry.Keys + OptionNames(options)
    decreases |options|
  {
    if options != [] {
      ApplyOptionsNames(registry, options[..|options| - 1]);
    }
  }

  /** Last write wins: a name ends up with the marshaller of the last option
      that installs it. */
  lemma {:induction false} ApplyOptionsLastWins(registry: Registry, options: seq<FactoryOption>, i: nat, e: string)
    requires i < |options| && e in options[i].encodingMarshaller
    requires forall j :: i < j < |options| ==> e !in options[j].encodingMarshaller
    ensures e in ApplyOptions(registry, options)
    ensures ApplyOptions(registry, options)[e] == options[i].encodingMarshaller[e]
    decreases |options|
  {
    if i < |options| - 1 {
      ApplyOptionsLastWins(registry, options[..|options| - 1], i, e);
    }
  }

  /** A name no option installs keeps its seed entry, or stays absent. */
  lemma {:induction false} ApplyOptionsKeepsOthers(registry: Registry, options: seq<FactoryOption>, e: string)
    requires forall j :: 0 <= j < |options| ==> e !in options[j].encodingMarshaller
    ensures e in ApplyOptions(registry, options) <==> e in registry
    ensures e in registry ==> ApplyOptions(registry, options)[e] == registry[e]
    decreases |options|
  {
    if options != [] {
      ApplyOptionsKeepsOthers(registry, options[..|options| - 1], e);
    }
  }

  /** Of two options, the later one decides every name it installs, whether
      or not the earlier one installs it too. */
  lemma LaterOptionWins(registry: Registry, m1: Registry, m2: Registry, e: string)
    requires e in m2
    ensures ApplyOptions(registry, [WithTraceMarshaller(m1), WithTraceMarshaller(m2)])[e] == m2[e]
  {
    ApplyOptionsLastWins(registry, [WithTraceMarshaller(m1), WithTraceMarshaller(m2)], 1, e);
  }

  /** Adding a custom encoding keeps the built-in one usable: after one option
      that installs only "custom", both "custom" and the default encoding
      resolve, the latter to the built-in marshaller. */
  lemma CustomEncodingKeepsDefault(defaults: Registry, custom: Marshaller)
    requires DefaultEncoding in defaults
    ensures var r := ApplyOptions(defaults, [WithTraceMarshaller(map["custom" := custom])]);
      && r["custom"] == custom
      && DefaultEncoding in r && r[DefaultEncoding] == defaults[DefaultEncoding]
  {
  }

  /** The configured default encoding always names an entry of a factory's
      registry when the built-ins provide it, whatever the options, and the
      built-in OTLP marshaller reports exactly that name. */
  lemma DefaultEncodingAlwaysRegistered(defaults: Registry, options: seq<FactoryOption>, serialize: Serializer)
    requires OTLPProtoEncoding in defaults
    ensures DefaultEncoding in ApplyOptions(defaults, options)
    ensures OTLPProtoMarshaller(serialize).encoding == DefaultEncoding
  {
  }
}
