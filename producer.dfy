/**
 * The producer: a topic, a partition and a compression code set when it is
 * built, and a connection modelled as the list of writes made on it. How a
 * produce request is laid out in bytes is the encoder's business and is a
 * parameter here (`encode`); the producer's part is what it asks the encoder
 * for and how many writes it makes.
 */
module KafkaProducer {
  import opened Wrappers
  import opened BigEndian
  import opened Settings

  /** Compression code 0: messages are sent as they are. */
  const NO_COMPRESSION: int := 0

  /** A message to publish; its payload is opaque to the producer. */
  datatype Message = Message(payload: seq<Byte>)

  /** What the producer hands to the encoder for one push. */
  datatype ProduceRequest = ProduceRequest(topic: seq<Byte>, partition: int, compression: int, messages: seq<Message>)

  /** The options a producer is built from; a missing key is `None`. */
  datatype ProducerConfig = ProducerConfig(
    topic: Option<seq<Byte>>, partition: Option<int>, compression: Option<int>,
    host: Option<string>, port: Option<int>)

  class Producer {
    var topic: seq<Byte>
    var partition: int
    var compression: int
    var host: string
    var port: int
    /** The byte strings written to the connection, one entry per write. */
    var writes: seq<seq<Byte>>

    constructor (config: ProducerConfig)
      ensures topic == config.topic.GetOr(DEFAULT_TOPIC)
      ensures partition == config.partition.GetOr(DEFAULT_PARTITION)
      ensures compression == config.compression.GetOr(NO_COMPRESSION)
      ensures host == config.host.GetOr(DEFAULT_HOST) && port == config.port.GetOr(DEFAULT_PORT)
      ensures writes == []
    {
      topic := config.topic.GetOr(DEFAULT_TOPIC);
      partition := config.partition.GetOr(DEFAULT_PARTITION);
      compression := config.compression.GetOr(NO_COMPRESSION);
      host := config.host.GetOr(DEFAULT_HOST);
      port := config.port.GetOr(DEFAULT_PORT);
      writes := [];
    }

    /** Write `data` to the connection in one call; returns the number of bytes written. */
    method Write(data: seq<Byte>) returns (n: nat)
      modifies this`writes
      ensures writes == old(writes) + [data]
      ensures n == |data|
    {
      writes := writes + [data];
      n := |data|;
    }

    /** The request a push of `messages` sends, with this producer's settings. */
    function RequestFor(messages: seq<Message>): (r: ProduceRequest)
      reads this
    {
      ProduceRequest(topic, partition, compression, messages)
    }

    /**
     * `push`: encode one produce request for `messages` and write it in a single
     * call; the result is the byte count that write returned.
     */
    method Push(encode: ProduceRequest -> seq<Byte>, messages: seq<Message>) returns (n: nat)
      modifies this`writes
      ensures writes == old(writes) + [encode(RequestFor(messages))]
      ensures n == |encode(RequestFor(messages))|
    {
      n := Write(encode(RequestFor(messages)));
    }

    /**
     * `batch`: the caller's block appends `appended` to a fresh collector, one
     * message at a time; then a single push sends all of them, in append order.
     */
    method Batch(encode: ProduceRequest -> seq<Byte>, appended: seq<Message>) returns (n: nat)
      modifies this`writes
      ensures writes == old(writes) + [encode(RequestFor(appended))]
      ensures n == |encode(RequestFor(appended))|
    {
      var collector: seq<Message> := [];
      var i := 0;
      while i < |appended|
        invariant 0 <= i <= |appended|
        invariant collector == appended[..i]
      {
        collector := collector + [appended[i]];
        i := i + 1;
      }
      assert collector == appended;
      n := Push(encode, collector);
    }
  }
}
