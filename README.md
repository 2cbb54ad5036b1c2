# kafka-rb consumer and producer, modelled in Dafny

This project models the client side of an early Kafka wire protocol as the
library's consumer and producer use it:

- **BigEndian** (`big_endian.dfy`): the fixed-width integers of the protocol —
  16 and 32 bits unsigned, and the 64-bit two's-complement offset written
  most significant byte first — with decode/encode round trips in both
  directions.
- **ConsumerCodec** (`consumer_codec.dfy`): the FETCH and OFFSETS request
  layout (type ‖ topic length ‖ topic ‖ partition ‖ offset ‖ limit), the
  4-byte size header sent before a request, and the reading of the two
  responses the consumer gets back (a length-prefixed block whose 2-byte
  error code is dropped; for OFFSETS, count ‖ offset). Each is paired with its
  inverse: the broker's parse of a request, and the broker's encoding of a
  response.
- **KafkaConsumer** (`consumer.dfy`): the consumer's state (topic,
  partition, offset — unset until the first `consume` fetches the latest one —
  polling interval, maximum fetch size) and its connection: the bytes the
  broker will deliver (`inbox`) and the requests written so far, whose bytes
  on the wire are `Wire(requests)`, one size header and request body after
  another. Each operation is a pure step function over a `Session` value, and
  the methods of class `Consumer` are proved to perform exactly that step on
  the object's fields; the object also holds the bytes actually written
  (`sent`), and every method keeps them equal to the wire form of its request
  log. The polling loop is bounded by fuel, and the caller's block is one
  that appends each message it receives and breaks once it holds `stopAfter`
  messages.
- **KafkaProducer** (`producer.dfy`): the producer's settings and defaults,
  `push` (one encoded request, one write, returning the written byte count)
  and `batch` (messages appended to a collector, then exactly one push of all
  of them in append order). The connection is the list of writes made on it.

Two behaviours are left out (see "## Left out"): inspecting the broker's
error code at the head of a response, and advancing the offset after a fetch.
The tests are consistent with both but pin down neither, so the model drops
the error code and keeps the offset where it was.

## Model

| member | source | states |
|---|---|---|
| `BigEndian.DecodeEncode` | spec/kafka/consumer_spec.rb:73 | decoding a big-endian field gives back any value that fits its width |
| `BigEndian.EncodeDecode` | spec/kafka/consumer_spec.rb:73 | every byte string is the big-endian encoding of the value it decodes to |
| `BigEndian.RoundTrip16` | spec/kafka/consumer_spec.rb:73 | a 16-bit field reads back as its value modulo 2^16 (exactly, when in range) |
| `BigEndian.RoundTrip32` | spec/kafka/consumer_spec.rb:73 | a 32-bit field reads back as its value modulo 2^32 (exactly, when in range) |
| `BigEndian.RoundTrip64` | spec/kafka/consumer_spec.rb:132 | every signed 64-bit offset, negative ones included, reads back unchanged |
| `BigEndian.Reencode16` | spec/kafka/consumer_spec.rb:137 | a 2-byte field re-encodes to the same bytes |
| `BigEndian.Reencode32` | spec/kafka/consumer_spec.rb:137 | a 4-byte field re-encodes to the same bytes |
| `BigEndian.Reencode64` | spec/kafka/consumer_spec.rb:137 | an 8-byte field re-encodes to the same bytes through its signed value |
| `BigEndian.MaxIsAllOnes` | spec/kafka/consumer_spec.rb:132 | the largest value of a field is written as all-0xFF bytes |
| `BigEndian.MinusOneIsAllOnes` | spec/kafka/consumer_spec.rb:132 | the offset -1 is written as eight 0xFF bytes |
| `BigEndian.DecodeI64` | spec/kafka/consumer_spec.rb:137 | a signed 64-bit value lies in [-2^63, 2^63) and agrees with the unsigned reading modulo 2^64 |
| `ConsumerCodec.RequestTypeOf` | spec/kafka/consumer_spec.rb:27-30 | FETCH's code is 1, as the test fixes it; in the model exactly the codes 0, 1 and 2 name a request type, and each type maps back to its code |
| `ConsumerCodec.EncodedRequestSize` | spec/kafka/consumer_spec.rb:67-70 | the size header is 4 bytes and reads back as the request length 20 + topic length (modulo 2^32) |
| `ConsumerCodec.EncodeRequest` | spec/kafka/consumer_spec.rb:72-75 | a request body is 20 bytes plus the topic |
| `ConsumerCodec.SizeHeaderCoversRequest` | spec/kafka/consumer_spec.rb:67-70 | the size header is the 32-bit length of exactly the request body that follows it |
| `ConsumerCodec.RequestSizeExample` | spec/kafka/consumer_spec.rb:67-70 | for an 18-byte topic such as "someothertopicname" the size header is 38 |
| `ConsumerCodec.DecodeEncodeRequest` | spec/kafka/consumer_spec.rb:72-75 | the broker reads back type, topic, partition, offset and limit of any request whose fields fit |
| `ConsumerCodec.EncodeDecodeRequest` | spec/kafka/consumer_spec.rb:72-75 | any body the broker accepts is exactly the encoding of what it read |
| `ConsumerCodec.DecodeRequest` | spec/kafka/consumer_spec.rb:72-75 | an accepted request body is 20 bytes longer than its topic |
| `ConsumerCodec.FetchRequestExample` | spec/kafka/consumer_spec.rb:72-75 | FETCH for "test", partition 0, offset 0, MAX_SIZE is exactly the expected 24 bytes |
| `ConsumerCodec.OffsetsRequestExample` | spec/kafka/consumer_spec.rb:131-134 | OFFSETS for "test" with offset -1 is laid out as the test lays it out: the OFFSETS code, the topic, partition 0, eight 0xFF offset bytes and the max-offsets limit (the code value 2 is the model's choice) |
| `ConsumerCodec.ReadDataResponse` | spec/kafka/consumer_spec.rb:77-82 | success iff the stream holds a 4-byte length L >= 2 and L more bytes; the result is those L bytes minus the first 2, and the stream after them; short streams and L < 2 are distinct errors |
| `ConsumerCodec.AfterResponse` | spec/kafka/consumer_spec.rb:79-80 | after one response is read, the stream resumes right after its L-byte block when that block arrived in full, whether or not its contents were usable, and is empty when the block was cut short; on success this is the rest the read returns |
| `ConsumerCodec.ReadEncodedDataResponse` | spec/kafka/consumer_spec.rb:77-82 | reading a length-prefixed response returns its payload whatever the error code, and leaves the rest of the stream |
| `ConsumerCodec.DataResponseIsEncoded` | spec/kafka/consumer_spec.rb:77-82 | every successful read consumed exactly one length ‖ error code ‖ payload block |
| `ConsumerCodec.DataResponseExample` | spec/kafka/consumer_spec.rb:77-82 | the 9-byte response of the test yields its bytes 2..9 |
| `ConsumerCodec.ReadOffsetsResponse` | spec/kafka/consumer_spec.rb:136-141 | succeeds iff the data response is read and holds count and one offset; the offset returned is the signed 64-bit reading of the 8 bytes after the 4-byte count, the stream resumes after the response, and a failure is the data response's error or else `MissingOffset` |
| `ConsumerCodec.OffsetsResponseIsEncoded` | spec/kafka/consumer_spec.rb:136-141 | every successful offsets read consumed one response whose first listed offset is exactly the offset returned: re-encoding that offset in place of the bytes read rebuilds the input |
| `ConsumerCodec.ReadEncodedOffsetsResponse` | spec/kafka/consumer_spec.rb:136-141 | parse after encode: the first offset the broker lists is the one returned |
| `ConsumerCodec.OffsetsResponseExample` | spec/kafka/consumer_spec.rb:136-141 | the 14-byte response error 0, count 1, offset 21346 yields 21346 |
| `KafkaConsumer.Frame` | spec/kafka/consumer_spec.rb:67-75 | what is written for one request is 24 bytes plus the topic, and its 4-byte size header reads back as the length of the body after it (modulo 2^32) |
| `KafkaConsumer.WireAppend` | spec/kafka/consumer_spec.rb:84-90 | writing one more request appends its size header and then its body to the bytes already written |
| `KafkaConsumer.Consumer.constructor` | spec/kafka/consumer_spec.rb:37-65 | topic and partition (default 0) as given, offset unset unless given, polling 2, max size 1048576, host "localhost", port 9092 |
| `KafkaConsumer.Consumer.Write` | spec/kafka/io_spec.rb:48-51 | a write appends the data to the connection and returns the number of bytes written |
| `KafkaConsumer.Consumer.SendOffsetsRequest` | spec/kafka/consumer_spec.rb:131-134 | writes the size header and then the OFFSETS request for offset -1 and `MAX_OFFSETS`, returns what the last write returned, and logs the request, keeping the bytes written equal to the wire form of the log |
| `KafkaConsumer.Consumer.SendConsumeRequest` | spec/kafka/consumer_spec.rb:84-90 | writes the size header once and the FETCH request once, returns what the last write returned, and logs the request, keeping the bytes written equal to the wire form of the log |
| `KafkaConsumer.Consumer.ReceiveDataResponse` | spec/kafka/consumer_spec.rb:77-82 | takes one data response from the connection as ReadDataResponse reads it; after a failure the connection holds what AfterResponse leaves |
| `KafkaConsumer.Consumer.ReceiveOffsetsResponse` | spec/kafka/consumer_spec.rb:136-141 | takes one offsets response from the connection as ReadOffsetsResponse reads it; after a failure the connection holds what AfterResponse leaves |
| `KafkaConsumer.Consumer.FetchLatestOffset` | spec/kafka/consumer_spec.rb:123-129 | sends the OFFSETS request for the latest offset and reads the answer |
| `KafkaConsumer.Consumer.Consume` | spec/kafka/consumer_spec.rb:92-96 | performs exactly the consume step: bootstrap the offset if unset, send FETCH, read and decode the response |
| `KafkaConsumer.Consumer.FetchMessages` | spec/kafka/consumer_spec.rb:92-96 | performs exactly the fetch step: send FETCH from the current offset, then read and decode the data response |
| `KafkaConsumer.ConsumeBootstrapsOffset` | spec/kafka/consumer_spec.rb:123-129 | with no offset, consume sends one OFFSETS request, adopts the offset read, then fetches from it; if that read fails the offset stays unset |
| `KafkaConsumer.ConsumeKeepsOffset` | spec/kafka/consumer_spec.rb:123-129 | with an offset already set, consume sends only the FETCH request from it and no OFFSETS request (the latest offset is fetched only when none is set); that the offset is then unchanged follows from offset advancement being left out |
| `KafkaConsumer.ConsumeSettingsUnchanged` | spec/kafka/consumer_spec.rb:123-129 | consume changes the offset only from unset to set (1000 in the test) and never changes topic, partition or max size; keeping a set offset follows from offset advancement being left out |
| `KafkaConsumer.ConsumeEmptyResponse` | spec/kafka/consumer_spec.rb:92-96 | a data response with an empty message set gives an empty message list |
| `KafkaConsumer.ConsumeSkipsShortResponse` | spec/kafka/consumer_spec.rb:77-82 | a data response that arrived in full but announces fewer than 2 bytes fails the consume with `MissingErrorCode`, and the stream resumes at the next response |
| `KafkaConsumer.ConsumeSkipsResponseWithoutOffset` | spec/kafka/consumer_spec.rb:136-141 | an offsets response that arrived in full but holds no offset fails the consume with `MissingOffset`: the offset stays unset, no FETCH is sent, and the stream resumes at the next response |
| `KafkaConsumer.FetchLatestOffsetAnswered` | spec/kafka/consumer_spec.rb:136-141 | when the broker lists an offset, fetching the latest offset returns it, sends one OFFSETS request and leaves the stream after the response |
| `KafkaConsumer.ConsumeBootstrapExample` | spec/kafka/consumer_spec.rb:123-129 | when the broker answers the OFFSETS request with an offset (1000 in the test) the consumer's offset becomes it |
| `KafkaConsumer.Consumer.YieldAll` | spec/kafka/consumer_spec.rb:102-105 | hands the messages of one consume to the block exactly as Yield specifies, stopping at the break |
| `KafkaConsumer.Consumer.Iterate` | spec/kafka/consumer_spec.rb:98-121 | one iteration of the loop: a consume and its messages handed to the block, after which the loop either ends as LoopRun says or has LoopRun with one iteration fewer left to run |
| `KafkaConsumer.Consumer.Loop` | spec/kafka/consumer_spec.rb:98-121 | runs exactly the loop specified by LoopRun on the consumer's state |
| `KafkaConsumer.YieldIsPrefix` | spec/kafka/consumer_spec.rb:102-105 | the block gets the messages of one consume in order, all of them unless it breaks, and then exactly up to the one that reached the count |
| `KafkaConsumer.LoopYieldsInOrder` | spec/kafka/consumer_spec.rb:108-121 | every consumed message reaches the block once, in order; a break cuts only the last batch, right at the message that brought the count to `stopAfter` (or at its first message when the count was already reached); a run that did not stop never brought the block to its break |
| `KafkaConsumer.LoopConsumesOncePerIteration` | spec/kafka/consumer_spec.rb:108-121 | each iteration consumes once: a run that used up its `fuel` iterations consumed exactly `fuel` times, a run the block broke consumed at least once, a failed run consumed fewer than `fuel` times and ends with the error and state of a consume that failed, and no run consumed more than `fuel` times |
| `KafkaConsumer.ConsumeOneMessage` | spec/kafka/consumer_spec.rb:99 | a consume whose response carries one message returns that one message |
| `KafkaConsumer.LoopBreaksOnFirstMessage` | spec/kafka/consumer_spec.rb:98-106 | a block that breaks at once receives exactly one message from one consume |
| `KafkaConsumer.LoopTwoSingleBatches` | spec/kafka/consumer_spec.rb:108-121 | for any consume that returns one message on each of two calls, a block that breaks on its second message receives both, one per iteration, and the loop stops |
| `KafkaConsumer.LoopTwoIterations` | spec/kafka/consumer_spec.rb:108-121 | a block that breaks after two messages receives one from each of two consumes |
| `KafkaProducer.Producer.constructor` | spec/kafka/producer_spec.rb:32-49 | compression 0 unless given, topic as given, partition 0 unless given, host "localhost", port 9092 |
| `KafkaProducer.Producer.Write` | spec/kafka/io_spec.rb:48-51 | a write makes one entry on the connection and returns the number of bytes written |
| `KafkaProducer.Producer.Push` | spec/kafka/producer_spec.rb:52-56 | one encoded request, one write, and the result is the byte count that write returned |
| `KafkaProducer.Producer.Batch` | spec/kafka/producer_spec.rb:58-68 | exactly one write, carrying every appended message in append order |

## Left out

- The TCP transport (spec/kafka/io_spec.rb): connect, reconnect, disconnect and the socket error classes are not modelled. A read cut short (fewer bytes arrive than the length announces) stands for a failed socket read: it drops the remaining input, so later reads fail too.
- A response that arrived in full but cannot be used (an announced length under 2, or an offsets payload without an offset) is modelled as an error (`MissingErrorCode`, `MissingOffset`) and reading resumes after it. In Ruby the first makes `read_data_response` return nil without touching the socket. For the second, `unpack("q")` on fewer than 8 bytes yields nil rather than raising: with a payload of 4 to 11 bytes the offset stays nil, and Ruby's `consume` goes on to `send_consume_request`, writes the FETCH size header and only then fails while packing the nil offset (the case of the `SendConsumeRequest` line below); only a payload under 4 bytes fails before anything is written. The model sends no FETCH in either case and does not reproduce that stray header.
- The message codec (framing, checksums, GZIP and Snappy compression) is not part of this model: the consumer takes a `decode` function from the fetched message-set bytes to messages, and the producer an `encode` function from a produce request to bytes.
- The multi-producer (spec/kafka/multi_producer_spec.rb) and the command-line layer (spec/kafka/cli_spec.rb): a thin wrapper over the encoder and user-interface glue. The batch container (spec/kafka/batch_spec.rb) appears only as the collector inside `Batch`.
- The `sleep(polling)` between loop iterations: the loop is modelled by iteration count (fuel) only, without time.
- Advancing the offset after a fetch: no test states it, so the offset is unchanged by a fetch.
- The broker error code at the head of a response is dropped as the tests show; a non-zero code is not surfaced as a failure.
- `request_type`: the tests only check that the consumer answers to it.
- `BigEndian.BE64`: wraps modulo 2^64, whereas Ruby's `pack("q")` raises for values outside the signed 64-bit range; round trips are stated for the signed range only.
- `KafkaConsumer.Consumer.SendConsumeRequest`: requires the offset to be set; with an unset offset Ruby fails while packing it, which the model does not reproduce.
- Topics are byte sequences and their length is counted in bytes; Ruby's `String#length` counts characters, which differs for multi-byte topic names.
- The default topic (`"test"`), the value of `MAX_OFFSETS` (1) and the request-type codes of PRODUCE (0) and OFFSETS (2) are not fixed by the tests, which only name them; only FETCH = 1 is.
- Byte order: Ruby's `pack("q")` is native-endian, so `pack("q").reverse` writes the most significant byte first only on a little-endian host (and the offset bytes of the offsets-response test assume one). The model fixes big-endian order for the 64-bit offset on every host.
