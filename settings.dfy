/**
 * Defaults shared by the consumer and the producer: where the broker listens
 * and which topic and partition a client uses when none is given.
 */
module Settings {
  import opened BigEndian

  /** The topic "test" as it goes on the wire. */
  const DEFAULT_TOPIC: seq<Byte> := [116, 101, 115, 116]
  const DEFAULT_PARTITION: int := 0
  const DEFAULT_HOST: string := "localhost"
  const DEFAULT_PORT: int := 9092
}
