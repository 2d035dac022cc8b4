/** Package `trace`: the Marshaller abstraction and the built-in OTLP
    protobuf marshaller. */
module Trace {
  import opened Wrappers
  import opened Wire

  /** A batch of trace data (`pdata.Traces`). The exporter core never looks
      inside it, so it stays an abstract type. */
  type Traces(!new)

  /** Conversion of a batch into an OTLP export request followed by its
      protobuf encoding; a library call that may fail. */
  type Serializer = Traces -> Result<seq<byte>>

  /** The `Marshaller` interface, as a record of its two methods: the name of
      the encoding it implements and the conversion of a batch into Kafka
      messages. */
  datatype Marshaller = Marshaller(encoding: string, marshal: Traces -> Result<seq<Message>>)

  /** The name under which the OTLP protobuf marshaller is known. */
  const OTLPProtoEncoding: string := "otlp_proto"

  /** `OTLPProtoMarshaller.Marshal`: the whole batch becomes one request,
      serialized once; success yields a single message carrying exactly the
      serialized bytes, failure yields the serializer's own error and no
      message at all. */
  function Marshal(serialize: Serializer, traces: Traces): (r: Result<seq<Message>>)
    ensures r.Ok? <==> serialize(traces).Ok?
    ensures r.Ok? ==> |r.value| == 1 && r.value[0].value == serialize(traces).value
    ensures r.Err? ==> r.error == serialize(traces).error
  {
    match serialize(traces)
    case Err(e) => Err(e)
    case Ok(bts) => Ok([Message(bts)])
  }

  /** The `OTLPProtoMarshaller` value: a marshaller with no state of its own,
      whose `Encoding` is always "otlp_proto" and whose `Marshal` is the
      function above for every batch. */
  function OTLPProtoMarshaller(serialize: Serializer): (m: Marshaller)
    ensures m.encoding == "otlp_proto"
    ensures forall t :: m.marshal(t) == Marshal(serialize, t)
  {
    Marshaller(OTLPProtoEncoding, t => Marshal(serialize, t))
  }

  /** A consumer-side helper that models no function of the exporter: what a
      reader of one batch's messages gets back, the payload when the batch
      arrived as a single message, nothing otherwise. It only serves to state
      the round trips below. */
  function Payload(msgs: seq<Message>): (p: Option<seq<byte>>)
    ensures p.Some? <==> |msgs| == 1
  {
    if |msgs| == 1 then Some(msgs[0].value) else None
  }

  /** Reading back what `Marshal` produced gives exactly the serializer's
      bytes: one envelope per batch, payload untouched. */
  lemma MarshalPayloadRoundTrip(serialize: Serializer, traces: Traces)
    requires serialize(traces).Ok?
    ensures Marshal(serialize, traces).Ok?
    ensures Payload(Marshal(serialize, traces).value) == Some(serialize(traces).value)
  {
  }

  /** If a serializer is undone by a deserializer, a batch survives the trip
      through `Marshal` and a reader of its single message. */
  lemma MarshalDecodeRoundTrip(serialize: Serializer, deserialize: seq<byte> -> Result<Traces>, traces: Traces)
    requires serialize(traces).Ok? && deserialize(serialize(traces).value) == Ok(traces)
    ensures Marshal(serialize, traces).Ok?
    ensures var p := Payload(Marshal(serialize, traces).value); p.Some? && deserialize(p.value) == Ok(traces)
  {
  }

  /** `Marshal` keeps no state: its outcome depends only on what the
      serializer returns for the batch, so two batches that serialize alike
      marshal alike. */
  lemma MarshalDependsOnlyOnSerialization(serialize: Serializer, t1: Traces, t2: Traces)
    requires serialize(t1) == serialize(t2)
    ensures Marshal(serialize, t1) == Marshal(serialize, t2)
  {
  }
}
