/** The Kafka message envelope. `wire.Message` and `internal.Message` are the
    same one-field struct and are modelled once. */
module Wire {

  newtype byte = x: int | 0 <= x < 256

  /** One Kafka message payload. */
  datatype Message = Message(value: seq<byte>)
}
