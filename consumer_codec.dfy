/**
 * The consumer side of the broker's wire codec: FETCH and OFFSETS requests,
 * the 4-byte size header sent before each of them, and the two responses
 * the consumer reads back. Every function here is pure; the consumer
 * (module KafkaConsumer) writes and reads the bytes.
 */
module ConsumerCodec {
  import opened Wrappers
  import opened BigEndian
  import opened Settings

  /** The operation a request asks for; its code is the first field on the wire. */
  datatype RequestType = Produce | Fetch | Offsets {
    function Code(): (c: int)
      ensures 0 <= c <= 2
    {
      match this
      case Produce => 0
      case Fetch => 1
      case Offsets => 2
    }
  }

  /** Largest message set a FETCH asks for, in bytes. */
  const MAX_SIZE: int := 1048576
  /** How many offsets an OFFSETS request asks for. */
  const MAX_OFFSETS: int := 1
  /** The offset sentinel meaning "the latest offset of the partition". */
  const LATEST_OFFSET: int := -1

  /** Length of a FETCH or OFFSETS request body for `topic`: type, topic length, topic, partition, offset, limit. */
  function RequestLength(topic: seq<Byte>): (n: nat)
  {
    2 + 2 + |topic| + 4 + 8 + 4
  }

  /**
   * `encode_request`: type(2) ‖ topic length(2) ‖ topic ‖ partition(4) ‖ offset(8, signed) ‖ limit(4).
   * `limit` is the maximum fetch size for FETCH and the number of offsets wanted for OFFSETS.
   */
  function EncodeRequest(requestType: RequestType, topic: seq<Byte>, partition: int, offset: int, limit: int): (r: seq<Byte>)
    ensures |r| == RequestLength(topic) == 20 + |topic|
  {
    BE16(requestType.Code()) + BE16(|topic|) + topic + BE32(partition) + BE64(offset) + BE32(limit)
  }

  /** `encoded_request_size`: the size header sent before a request about `topic`. */
  function EncodedRequestSize(topic: seq<Byte>): (r: seq<Byte>)
    ensures |r| == 4
    ensures DecodeBE(r) == (20 + |topic|) % TWO_32
  {
    RoundTrip32(RequestLength(topic));
    BE32(RequestLength(topic))
  }

  /** The size header always announces exactly the length of the request body that follows it. */
  lemma SizeHeaderCoversRequest(requestType: RequestType, topic: seq<Byte>, partition: int, offset: int, limit: int)
    requires 20 + |topic| < TWO_32
    ensures EncodedRequestSize(topic) == BE32(|EncodeRequest(requestType, topic, partition, offset, limit)|)
    ensures DecodeBE(EncodedRequestSize(topic)) == |EncodeRequest(requestType, topic, partition, offset, limit)|
  {
    RoundTrip32(RequestLength(topic));
  }

  // ---------------------------------------------------------------------------
  // The broker's reading of a request: the inverse of EncodeRequest.

  /** A FETCH or OFFSETS request as the broker sees it. */
  datatype Request = Request(requestType: RequestType, topic: seq<Byte>, partition: int, offset: int, limit: int)

  datatype RequestError = ShortRequest | UnknownRequestType | LengthMismatch

  /** The request type whose wire code is `code`, if any. */
  function RequestTypeOf(code: int): (r: Option<RequestType>)
    ensures r.Some? <==> 0 <= code <= 2
    ensures r.Some? ==> r.value.Code() == code
  {
    if code == 0 then Some(Produce)
    else if code == 1 then Some(Fetch)
    else if code == 2 then Some(Offsets)
    else None
  }

  /** Parse a request body laid out as EncodeRequest lays it out. */
  function DecodeRequest(b: seq<Byte>): (r: Result<Request, RequestError>)
    ensures r.Ok? ==> |b| == RequestLength(r.value.topic)
  {
    if |b| < 4 then Err(ShortRequest)
    else
      var kind := RequestTypeOf(DecodeBE(b[..2]));
      var n := DecodeBE(b[2..4]);
      if kind.None? then Err(UnknownRequestType)
      else if |b| != 20 + n then Err(LengthMismatch)
      else Ok(Request(kind.value, b[4..4 + n], DecodeBE(b[4 + n..8 + n]),
                      DecodeI64(b[8 + n..16 + n]), DecodeBE(b[16 + n..20 + n])))
  }

  /** Every field that fits its width is read back unchanged. */
  lemma DecodeEncodeRequest(requestType: RequestType, topic: seq<Byte>, partition: int, offset: int, limit: int)
    requires |topic| < TWO_16
    requires 0 <= partition < TWO_32 && 0 <= limit < TWO_32
    requires -TWO_63 <= offset < TWO_63
    ensures DecodeRequest(EncodeRequest(requestType, topic, partition, offset, limit))
            == Ok(Request(requestType, topic, partition, offset, limit))
  {
    var b := EncodeRequest(requestType, topic, partition, offset, limit);
    var n := |topic|;
    assert b[..2] == BE16(requestType.Code());
    assert b[2..4] == BE16(n);
    assert b[4..4 + n] == topic;
    assert b[4 + n..8 + n] == BE32(partition);
    assert b[8 + n..16 + n] == BE64(offset);
    assert b[16 + n..20 + n] == BE32(limit);
    RoundTrip16(requestType.Code());
    RoundTrip16(n);
    RoundTrip32(partition);
    RoundTrip64(offset);
    RoundTrip32(limit);
  }

  /** A body the broker accepts is exactly the encoding of what it read. */
  lemma EncodeDecodeRequest(b: seq<Byte>)
    requires DecodeRequest(b).Ok?
    ensures var q := DecodeRequest(b).value;
            EncodeRequest(q.requestType, q.topic, q.partition, q.offset, q.limit) == b
  {
    var q := DecodeRequest(b).value;
    var n := DecodeBE(b[2..4]);
    assert q.requestType.Code() == DecodeBE(b[..2]);
    Reencode16(b[..2]);
    Reencode16(b[2..4]);
    Reencode32(b[4 + n..8 + n]);
    Reencode64(b[8 + n..16 + n]);
    Reencode32(b[16 + n..20 + n]);
    assert |q.topic| == n;
    assert b == b[..2] + b[2..4] + b[4..4 + n] + b[4 + n..8 + n] + b[8 + n..16 + n] + b[16 + n..20 + n];
  }

  // ---------------------------------------------------------------------------
  // Responses. The consumer reads from a byte stream; each read returns the
  // value and the bytes that remain in the stream.

  datatype ReadError =
    | Truncated         // the stream ended before the announced bytes arrived
    | MissingErrorCode  // the announced length is under 2, so there is no error code to drop
    | MissingOffset     // an offsets response too short to hold one offset

  /**
   * `read_data_response`: a 4-byte length L, then L bytes; the first 2 of them
   * (the broker's error code) are dropped and the rest is returned.
   */
  function ReadDataResponse(input: seq<Byte>): (r: Result<(seq<Byte>, seq<Byte>), ReadError>)
    ensures r.Ok? ==>
      var (payload, rest) := r.value;
      |input| == 6 + |payload| + |rest| &&
      DecodeBE(input[..4]) == 2 + |payload| &&
      input[6..6 + |payload|] == payload && input[6 + |payload|..] == rest
    ensures r.Ok? <==> 4 <= |input| && 2 <= DecodeBE(input[..4]) <= |input| - 4
    ensures r == Err(Truncated) <==> |input| < 4 || |input| - 4 < DecodeBE(input[..4])
    ensures r == Err(MissingErrorCode) <==> 4 <= |input| && DecodeBE(input[..4]) <= |input| - 4 && DecodeBE(input[..4]) < 2
  {
    if |input| < 4 then Err(Truncated)
    else
      var n := DecodeBE(input[..4]);
      if |input| - 4 < n then Err(Truncated)
      else if n < 2 then Err(MissingErrorCode)
      else Ok((input[6..4 + n], input[4 + n..]))
  }

  /**
   * Where the stream stands after reading one response, whether or not its
   * contents could be used: right after the announced L-byte block when the
   * block arrived in full, and empty when it did not (the read failed and the
   * connection is dropped).
   */
  function AfterResponse(input: seq<Byte>): (rest: seq<Byte>)
    ensures ReadDataResponse(input).Ok? ==> rest == ReadDataResponse(input).value.1
    ensures ReadDataResponse(input) == Err(Truncated) ==> rest == []
    ensures ReadDataResponse(input) != Err(Truncated) ==> input == input[..4 + DecodeBE(input[..4])] + rest
  {
    if |input| < 4 || |input| - 4 < DecodeBE(input[..4]) then [] else input[4 + DecodeBE(input[..4])..]
  }

  /** What the broker sends for a FETCH: length ‖ error code ‖ message-set bytes. */
  function EncodeDataResponse(errorCode: int, payload: seq<Byte>): (r: seq<Byte>)
    ensures |r| == 6 + |payload|
  {
    BE32(2 + |payload|) + BE16(errorCode) + payload
  }

  /** Reading a well-formed response returns its payload, whatever the error code, and leaves the stream after it. */
  lemma ReadEncodedDataResponse(errorCode: int, payload: seq<Byte>, rest: seq<Byte>)
    requires 2 + |payload| < TWO_32
    ensures ReadDataResponse(EncodeDataResponse(errorCode, payload) + rest) == Ok((payload, rest))
  {
    var input := EncodeDataResponse(errorCode, payload) + rest;
    assert input[..4] == BE32(2 + |payload|);
    RoundTrip32(2 + |payload|);
    assert input[6..6 + |payload|] == payload;
    assert input[6 + |payload|..] == rest;
  }

  /** Conversely, every successful read consumed exactly one well-formed response. */
  lemma DataResponseIsEncoded(input: seq<Byte>)
    requires ReadDataResponse(input).Ok?
    ensures var (payload, rest) := ReadDataResponse(input).value;
            input == EncodeDataResponse(DecodeBE(input[4..6]), payload) + rest
  {
    var (payload, rest) := ReadDataResponse(input).value;
    Reencode32(input[..4]);
    Reencode16(input[4..6]);
    assert input == input[..4] + input[4..6] + input[6..6 + |payload|] + input[6 + |payload|..];
  }

  /**
   * `read_offsets_response`: the same framing as a data response; its payload is
   * count(4) ‖ offset(8) ‖ …, and the first offset is returned.
   */
  function ReadOffsetsResponse(input: seq<Byte>): (r: Result<(int, seq<Byte>), ReadError>)
    ensures r.Ok? ==> -TWO_63 <= r.value.0 < TWO_63
    ensures r.Ok? <==> ReadDataResponse(input).Ok? && |ReadDataResponse(input).value.0| >= 12
    ensures r.Ok? ==> r.value.1 == AfterResponse(input)
    ensures r.Ok? ==> r.value.0 == DecodeI64(ReadDataResponse(input).value.0[4..12])
    ensures r.Err? ==> r.error == (if ReadDataResponse(input).Err? then ReadDataResponse(input).error else MissingOffset)
  {
    match ReadDataResponse(input)
    case Err(e) => Err(e)
    case Ok((payload, rest)) =>
      if |payload| < 12 then Err(MissingOffset) else Ok((DecodeI64(payload[4..12]), rest))
  }

  /**
   * Conversely, a successful read consumed one response whose payload is a
   * count, then the returned offset as a signed 64-bit field, then whatever
   * follows it; the count is not consulted.
   */
  lemma OffsetsResponseIsEncoded(input: seq<Byte>)
    requires ReadOffsetsResponse(input).Ok?
    ensures var (latest, rest) := ReadOffsetsResponse(input).value;
            var payload := ReadDataResponse(input).value.0;
            input == EncodeDataResponse(DecodeBE(input[4..6]), BE32(DecodeBE(payload[..4])) + BE64(latest) + payload[12..]) + rest
  {
    var (latest, rest) := ReadOffsetsResponse(input).value;
    var payload := ReadDataResponse(input).value.0;
    DataResponseIsEncoded(input);
    Reencode32(payload[..4]);
    Reencode64(payload[4..12]);
    assert latest == DecodeI64(payload[4..12]);
    assert payload == payload[..4] + payload[4..12] + payload[12..];
  }

  /** The offsets of an OFFSETS response, each as a signed 64-bit field. */
  function EncodeOffsets(offsets: seq<int>): (r: seq<Byte>)
    ensures |r| == 8 * |offsets|
  {
    if offsets == [] then [] else BE64(offsets[0]) + EncodeOffsets(offsets[1..])
  }

  /** What the broker sends for an OFFSETS request: length ‖ error code ‖ count ‖ offsets. */
  function EncodeOffsetsResponse(errorCode: int, offsets: seq<int>): (r: seq<Byte>)
    ensures |r| == 10 + 8 * |offsets|
  {
    EncodeDataResponse(errorCode, BE32(|offsets|) + EncodeOffsets(offsets))
  }

  /** Parse after encode: the first offset the broker lists is the one the consumer reads. */
  lemma ReadEncodedOffsetsResponse(errorCode: int, offsets: seq<int>, rest: seq<Byte>)
    requires offsets != [] && -TWO_63 <= offsets[0] < TWO_63
    requires 6 + 8 * |offsets| < TWO_32
    ensures ReadOffsetsResponse(EncodeOffsetsResponse(errorCode, offsets) + rest) == Ok((offsets[0], rest))
  {
    var payload := BE32(|offsets|) + EncodeOffsets(offsets);
    ReadEncodedDataResponse(errorCode, payload, rest);
    assert payload[4..12] == BE64(offsets[0]);
    RoundTrip64(offsets[0]);
  }

  // ---------------------------------------------------------------------------
  // The byte layouts pinned down in consumer_spec.rb.

  /** A FETCH for "test", partition 0, offset 0 and MAX_SIZE. */
  lemma FetchRequestExample()
    ensures EncodeRequest(Fetch, DEFAULT_TOPIC, 0, 0, MAX_SIZE)
         == [0, 1, 0, 4, 116, 101, 115, 116, 0, 0, 0, 0, 0, 0, 0, 0, 0, 0, 0, 0, 0, 16, 0, 0]
  {
    BE16Small(1);
    BE16Small(4);
    BE32Small(0);
    BE64Small(0);
    MaxSizeField();
  }

  /** MAX_SIZE, 2^20, as a 32-bit field. */
  lemma MaxSizeField()
    ensures BE32(MAX_SIZE) == [0, 16, 0, 0]
  {
    assert EncodeBE(MAX_SIZE, 4) == EncodeBE(4096, 3) + [0];
    assert EncodeBE(4096, 3) == EncodeBE(16, 2) + [0];
    EncodeSmall(16, 2);
  }

  /** An OFFSETS request for the latest offset: -1 is eight 0xFF bytes. */
  lemma OffsetsRequestExample()
    ensures EncodeRequest(Offsets, DEFAULT_TOPIC, 0, LATEST_OFFSET, MAX_OFFSETS)
         == [0, 2, 0, 4, 116, 101, 115, 116, 0, 0, 0, 0, 255, 255, 255, 255, 255, 255, 255, 255, 0, 0, 0, 1]
  {
    BE16Small(2);
    BE16Small(4);
    BE32Small(0);
    MinusOneIsAllOnes();
    BE32Small(1);
  }

  /** The size header for the 18-character topic "someothertopicname" announces 38 bytes. */
  lemma RequestSizeExample(topic: seq<Byte>)
    requires |topic| == |"someothertopicname"|
    ensures EncodedRequestSize(topic) == [0, 0, 0, 38]
  {
    BE32Small(38);
  }

  /** A 9-byte response: error code 0, then 1120192889 and "ale"; the 7 bytes after the error code come back. */
  lemma DataResponseExample()
    ensures var body := [0, 0, 66, 196, 201, 121, 97, 108, 101];
            ReadDataResponse([0, 0, 0, 9] + body) == Ok((body[2..9], []))
  {
    var body: seq<Byte> := [0, 0, 66, 196, 201, 121, 97, 108, 101];
    BE32Small(9);
    BE16Small(0);
    assert EncodeDataResponse(0, body[2..9]) + [] == [0, 0, 0, 9] + body;
    ReadEncodedDataResponse(0, body[2..9], []);
  }

  /** A 14-byte offsets response: error 0, count 1, offset 21346. */
  lemma OffsetsResponseExample()
    ensures ReadOffsetsResponse([0, 0, 0, 14] + [0, 0] + [0, 0, 0, 1] + [0, 0, 0, 0, 0, 0, 83, 98])
         == Ok((21346, []))
  {
    BE32Small(14);
    BE16Small(0);
    BE32Small(1);
    BE64Small(21346);
    assert EncodeOffsets([21346]) == BE64(21346);
    assert EncodeOffsetsResponse(0, [21346]) + []
        == [0, 0, 0, 14] + [0, 0] + [0, 0, 0, 1] + [0, 0, 0, 0, 0, 0, 83, 98];
    ReadEncodedOffsetsResponse(0, [21346], []);
  }
}
