/**
 * The consumer: its settings, its current offset (unset until the first
 * `consume` fetches the latest one) and its connection, modelled as two
 * streams: `inbox`, the bytes the broker will send, and the requests written
 * so far, whose bytes on the wire are `Wire(requests)`.
 *
 * Each operation is specified by a pure step function over a `Session`
 * value; the methods of class `Consumer` are proved to perform exactly that
 * step on the object's fields.
 */
module KafkaConsumer {
  import opened Wrappers
  import opened BigEndian
  import opened ConsumerCodec
  import opened Settings

  const DEFAULT_POLLING_INTERVAL: nat := 2

  /** The options a consumer is built from; a missing key is `None`. */
  datatype ConsumerConfig = ConsumerConfig(
    topic: Option<seq<Byte>>, partition: Option<int>, offset: Option<int>,
    polling: Option<nat>, maxSize: Option<int>, host: Option<string>, port: Option<int>)

  /** The consumer state the protocol steps read and change. */
  datatype Session = Session(
    topic: seq<Byte>, partition: int, offset: Option<int>, maxSize: int,
    inbox: seq<Byte>, requests: seq<Request>)

  /** The OFFSETS request asking for the latest offset. */
  function OffsetsRequest(topic: seq<Byte>, partition: int): Request
  {
    Request(Offsets, topic, partition, LATEST_OFFSET, MAX_OFFSETS)
  }

  /** The FETCH request from `offset`. */
  function FetchRequest(topic: seq<Byte>, partition: int, offset: int, maxSize: int): Request
  {
    Request(Fetch, topic, partition, offset, maxSize)
  }

  /** Size header and body of `req`, as written to the connection. */
  function Frame(req: Request): (r: seq<Byte>)
    ensures |r| == 4 + RequestLength(req.topic)
    ensures DecodeBE(r[..4]) == (|r| - 4) % TWO_32
  {
    var body := EncodeRequest(req.requestType, req.topic, req.partition, req.offset, req.limit);
    assert (EncodedRequestSize(req.topic) + body)[..4] == EncodedRequestSize(req.topic);
    EncodedRequestSize(req.topic) + body
  }

  /** The bytes written for `requests`, one frame after another. */
  function Wire(requests: seq<Request>): (r: seq<Byte>)
  {
    if requests == [] then [] else Wire(requests[..|requests| - 1]) + Frame(requests[|requests| - 1])
  }

  /** Writing the size header and then the body of one more request appends its frame to the bytes written. */
  lemma WireAppend(requests: seq<Request>, req: Request)
    ensures Wire(requests + [req])
         == Wire(requests) + EncodedRequestSize(req.topic)
            + EncodeRequest(req.requestType, req.topic, req.partition, req.offset, req.limit)
  {
    assert (requests + [req])[..|requests|] == requests;
  }

  /**
   * `fetch_latest_offset`: send the OFFSETS request, then read the offsets response.
   * A response that arrived in full but holds no offset is skipped; a response
   * cut short drops the connection, so nothing more can be read from it.
   */
  function FetchLatestOffsetStep(s: Session): (r: (Result<int, ReadError>, Session))
  {
    var requests := s.requests + [OffsetsRequest(s.topic, s.partition)];
    match ReadOffsetsResponse(s.inbox)
    case Ok((latest, rest)) => (Ok(latest), s.(inbox := rest, requests := requests))
    case Err(e) => (Err(e), s.(inbox := AfterResponse(s.inbox), requests := requests))
  }

  /** Send the FETCH request for the current offset and read the data response; `decode` splits it into messages. */
  function FetchStep<M>(s: Session, decode: seq<Byte> -> seq<M>): (r: (Result<seq<M>, ReadError>, Session))
    requires s.offset.Some?
  {
    var requests := s.requests + [FetchRequest(s.topic, s.partition, s.offset.value, s.maxSize)];
    match ReadDataResponse(s.inbox)
    case Ok((payload, rest)) => (Ok(decode(payload)), s.(inbox := rest, requests := requests))
    case Err(e) => (Err(e), s.(inbox := AfterResponse(s.inbox), requests := requests))
  }

  /** `consume`: adopt the latest offset if none is set yet, then fetch. */
  function ConsumeStep<M>(s: Session, decode: seq<Byte> -> seq<M>): (r: (Result<seq<M>, ReadError>, Session))
  {
    if s.offset.Some? then FetchStep(s, decode)
    else
      var (latest, s1) := FetchLatestOffsetStep(s);
      match latest
      case Err(e) => (Err(e), s1)
      case Ok(o) => FetchStep(s1.(offset := Some(o)), decode)
  }

  // ---------------------------------------------------------------------------
  // The polling loop. The caller's block appends each message it is given to a
  // collection and breaks out of the loop once `stopAfter` messages are in it;
  // `fuel` bounds the number of iterations.

  datatype LoopOutcome = Stopped | Failed(error: ReadError) | FuelExhausted

  /** What a run of the loop produced: the messages the block received, what each consume returned, and the final state. */
  datatype Run<M> = Run(collected: seq<M>, batches: seq<seq<M>>, outcome: LoopOutcome, session: Session)

  /** All the messages of the batches, in order. */
  function Flatten<M>(batches: seq<seq<M>>): (r: seq<M>)
  {
    if batches == [] then [] else Flatten(batches[..|batches| - 1]) + batches[|batches| - 1]
  }

  /** Hand `messages` to the block one at a time; true when the block broke out. */
  function Yield<M>(collected: seq<M>, messages: seq<M>, stopAfter: nat): (r: (seq<M>, bool))
    decreases |messages|
  {
    if messages == [] then (collected, false)
    else
      var c := collected + [messages[0]];
      if |c| >= stopAfter then (c, true) else Yield(c, messages[1..], stopAfter)
  }

  /** The consume step with a fixed message-set decoder, as a value the loop can be given. */
  function Consuming<M>(decode: seq<Byte> -> seq<M>): (consume: Session -> (Result<seq<M>, ReadError>, Session))
  {
    s => ConsumeStep(s, decode)
  }

  /**
   * `loop`: consume, yield every message, and go round again until the block
   * breaks. `consume` is the consume step (`Consuming(decode)` for the consumer).
   */
  function LoopRun<M>(s: Session, consume: Session -> (Result<seq<M>, ReadError>, Session), stopAfter: nat, fuel: nat,
                      collected: seq<M>, batches: seq<seq<M>>): (run: Run<M>)
    decreases fuel
  {
    if fuel == 0 then Run(collected, batches, FuelExhausted, s)
    else
      var (r, s1) := consume(s);
      match r
      case Err(e) => Run(collected, batches, Failed(e), s1)
      case Ok(messages) =>
        var (c, stop) := Yield(collected, messages, stopAfter);
        if stop then Run(c, batches + [messages], Stopped, s1)
        else LoopRun(s1, consume, stopAfter, fuel - 1, c, batches + [messages])
  }

  // ---------------------------------------------------------------------------
  // Properties of the consume step.

  /**
   * With no offset set, consume sends exactly one OFFSETS request, adopts the
   * offset it reads, and then sends the FETCH request from that offset.
   */
  lemma ConsumeBootstrapsOffset<M>(s: Session, decode: seq<Byte> -> seq<M>)
    requires s.offset.None?
    ensures var (r, s') := ConsumeStep(s, decode);
            var latest := ReadOffsetsResponse(s.inbox);
            (s'.offset.Some? <==> latest.Ok?) &&
            (latest.Ok? ==>
               s'.offset == Some(latest.value.0) &&
               s'.requests == s.requests + [OffsetsRequest(s.topic, s.partition),
                                            FetchRequest(s.topic, s.partition, latest.value.0, s.maxSize)]) &&
            (latest.Err? ==> r == Err(latest.error) && s'.requests == s.requests + [OffsetsRequest(s.topic, s.partition)])
  {
  }

  /** An offset that is already set is kept, and no OFFSETS request is sent. */
  lemma ConsumeKeepsOffset<M>(s: Session, decode: seq<Byte> -> seq<M>)
    requires s.offset.Some?
    ensures var (r, s') := ConsumeStep(s, decode);
            s'.offset == s.offset &&
            s'.requests == s.requests + [FetchRequest(s.topic, s.partition, s.offset.value, s.maxSize)]
  {
  }

  /** Consume only ever changes the offset from unset to set; topic, partition and size stay. */
  lemma ConsumeSettingsUnchanged<M>(s: Session, decode: seq<Byte> -> seq<M>)
    ensures var s' := ConsumeStep(s, decode).1;
            s'.topic == s.topic && s'.partition == s.partition && s'.maxSize == s.maxSize &&
            (s.offset.Some? ==> s'.offset == s.offset)
  {
  }

  /** A data response whose message set is empty yields no messages. */
  lemma ConsumeEmptyResponse<M>(s: Session, decode: seq<Byte> -> seq<M>, errorCode: int, rest: seq<Byte>)
    requires s.offset.Some?
    requires s.inbox == EncodeDataResponse(errorCode, []) + rest
    requires decode([]) == []
    ensures ConsumeStep(s, decode).0 == Ok([])
    ensures ConsumeStep(s, decode).1.inbox == rest
  {
    ReadEncodedDataResponse(errorCode, [], rest);
  }

  /**
   * The bootstrap exchange end to end: the broker answers the OFFSETS request
   * with `latest` and the FETCH with an empty message set; the offset becomes
   * `latest` and the consumer gets no messages.
   */
  lemma ConsumeBootstrapExample<M>(s: Session, decode: seq<Byte> -> seq<M>, latest: int, rest: seq<Byte>)
    requires s.offset.None?
    requires -TWO_63 <= latest < TWO_63
    requires s.inbox == EncodeOffsetsResponse(0, [latest]) + EncodeDataResponse(0, []) + rest
    requires decode([]) == []
    ensures ConsumeStep(s, decode).0 == Ok([])
    ensures ConsumeStep(s, decode).1.offset == Some(latest)
    ensures ConsumeStep(s, decode).1.inbox == rest
  {
    var tail := EncodeDataResponse(0, []) + rest;
    assert s.inbox == EncodeOffsetsResponse(0, [latest]) + tail;
    FetchLatestOffsetAnswered(s, latest, tail);
    var s1 := s.(inbox := tail, requests := s.requests + [OffsetsRequest(s.topic, s.partition)], offset := Some(latest));
    ConsumeEmptyResponse(s1, decode, 0, rest);
  }

  /** The broker's answer `latest` to the OFFSETS request is what fetching the latest offset returns. */
  lemma FetchLatestOffsetAnswered(s: Session, latest: int, rest: seq<Byte>)
    requires -TWO_63 <= latest < TWO_63
    requires s.inbox == EncodeOffsetsResponse(0, [latest]) + rest
    ensures FetchLatestOffsetStep(s) == (Ok(latest), s.(inbox := rest, requests := s.requests + [OffsetsRequest(s.topic, s.partition)]))
  {
    ReadEncodedOffsetsResponse(0, [latest], rest);
  }

  /**
   * A data response that arrived in full but is too short to hold the error
   * code fails the consume, and the stream resumes at the response after it.
   */
  lemma ConsumeSkipsShortResponse<M>(s: Session, decode: seq<Byte> -> seq<M>, block: seq<Byte>, next: seq<Byte>)
    requires s.offset.Some?
    requires |block| < 2
    requires s.inbox == BE32(|block|) + block + next
    ensures ConsumeStep(s, decode).0 == Err(MissingErrorCode)
    ensures ConsumeStep(s, decode).1.inbox == next
  {
    RoundTrip32(|block|);
    assert s.inbox[..4] == BE32(|block|);
    assert s.inbox[4 + |block|..] == next;
  }

  /**
   * An offsets response that arrived in full but lists no offset fails the
   * bootstrap: the offset stays unset, no FETCH is sent, and the stream resumes
   * at the response after it.
   */
  lemma ConsumeSkipsResponseWithoutOffset<M>(s: Session, decode: seq<Byte> -> seq<M>, errorCode: int, payload: seq<Byte>, next: seq<Byte>)
    requires s.offset.None?
    requires |payload| < 12
    requires s.inbox == EncodeDataResponse(errorCode, payload) + next
    ensures ConsumeStep(s, decode).0 == Err(MissingOffset)
    ensures ConsumeStep(s, decode).1.inbox == next
    ensures ConsumeStep(s, decode).1.offset.None?
    ensures ConsumeStep(s, decode).1.requests == s.requests + [OffsetsRequest(s.topic, s.partition)]
  {
    ReadEncodedDataResponse(errorCode, payload, next);
  }

  // ---------------------------------------------------------------------------
  // Properties of the loop.

  /** One iteration of the loop, for a consume step that returned `r` and left `s1`. */
  lemma LoopRunStep<M>(s: Session, consume: Session -> (Result<seq<M>, ReadError>, Session), stopAfter: nat, fuel: nat,
                       collected: seq<M>, batches: seq<seq<M>>, r: Result<seq<M>, ReadError>, s1: Session)
    requires fuel > 0 && consume(s) == (r, s1)
    ensures r.Err? ==> LoopRun(s, consume, stopAfter, fuel, collected, batches) == Run(collected, batches, Failed(r.error), s1)
    ensures r.Ok? ==>
              var (c, stop) := Yield(collected, r.value, stopAfter);
              LoopRun(s, consume, stopAfter, fuel, collected, batches)
              == if stop then Run(c, batches + [r.value], Stopped, s1)
                 else LoopRun(s1, consume, stopAfter, fuel - 1, c, batches + [r.value])
  {
  }

  /**
   * The block receives a prefix of `messages`, in order, one message at a
   * time: all of them when it does not break, and exactly up to the first one
   * that brings the count to `stopAfter` when it does.
   */
  lemma {:induction false} YieldIsPrefix<M>(collected: seq<M>, messages: seq<M>, stopAfter: nat)
    requires |collected| < stopAfter || collected == []
    ensures var (c, stop) := Yield(collected, messages, stopAfter);
            (!stop ==> c == collected + messages && (|c| < stopAfter || c == [])) &&
            (stop ==> collected < c <= collected + messages && |c| >= stopAfter &&
                      (|c| == stopAfter || |c| == |collected| + 1))
    decreases |messages|
  {
    if messages != [] {
      var c := collected + [messages[0]];
      if |c| < stopAfter {
        YieldIsPrefix(c, messages[1..], stopAfter);
        assert c + messages[1..] == collected + messages;
      }
    }
  }

  /**
   * Each iteration consumes once: a run adds at most `fuel` batches after the
   * ones it started with, exactly `fuel` when it ran out of iterations, and at
   * least one when the block broke out. A run only fails on a consume that
   * failed, and then the state is the one that consume left.
   */
  lemma {:induction false} LoopConsumesOncePerIteration<M>(s: Session, consume: Session -> (Result<seq<M>, ReadError>, Session), stopAfter: nat,
                                                          fuel: nat, collected: seq<M>, batches: seq<seq<M>>)
    ensures var run := LoopRun(s, consume, stopAfter, fuel, collected, batches);
            batches <= run.batches && |run.batches| <= |batches| + fuel &&
            (run.outcome == FuelExhausted ==> |run.batches| == |batches| + fuel) &&
            (run.outcome == Stopped ==> |run.batches| > |batches|) &&
            (run.outcome.Failed? ==>
               |run.batches| < |batches| + fuel &&
               exists t :: consume(t) == (Err(run.outcome.error), run.session))
    decreases fuel
  {
    var run := LoopRun(s, consume, stopAfter, fuel, collected, batches);
    if fuel > 0 {
      var step := consume(s);
      if step.0.Ok? {
        var y := Yield(collected, step.0.value, stopAfter);
        var batches' := batches + [step.0.value];
        if y.1 {
          assert run == Run(y.0, batches', Stopped, step.1);
        } else {
          assert run == LoopRun(step.1, consume, stopAfter, fuel - 1, y.0, batches');
          LoopConsumesOncePerIteration(step.1, consume, stopAfter, fuel - 1, y.0, batches');
        }
      } else {
        assert run == Run(collected, batches, Failed(step.0.error), step.1);
        assert consume(s) == (Err(run.outcome.error), run.session);
      }
    }
  }

  /**
   * Every message that consume returned reaches the block once, in order: a run
   * yields all of every batch, except that when the block breaks it stops part
   * way through the last one, right after the message that reached `stopAfter`;
   * a run that did not stop never brought the count to `stopAfter`.
   */
  lemma {:induction false} LoopYieldsInOrder<M>(s: Session, consume: Session -> (Result<seq<M>, ReadError>, Session), stopAfter: nat, fuel: nat,
                                               collected: seq<M>, batches: seq<seq<M>>)
    requires collected == Flatten(batches)
    requires |collected| < stopAfter || collected == []
    ensures var run := LoopRun(s, consume, stopAfter, fuel, collected, batches);
            (run.outcome != Stopped ==>
               run.collected == Flatten(run.batches) && (|run.collected| < stopAfter || run.collected == [])) &&
            (run.outcome == Stopped ==>
               run.batches != [] && |run.collected| >= stopAfter &&
               Flatten(run.batches[..|run.batches| - 1]) < run.collected <= Flatten(run.batches) &&
               (|run.collected| == stopAfter || |run.collected| == |Flatten(run.batches[..|run.batches| - 1])| + 1))
    decreases fuel
  {
    var run := LoopRun(s, consume, stopAfter, fuel, collected, batches);
    if fuel > 0 {
      var step := consume(s);
      if step.0.Ok? {
        var messages := step.0.value;
        var y := Yield(collected, messages, stopAfter);
        YieldIsPrefix(collected, messages, stopAfter);
        var batches' := batches + [messages];
        assert batches'[..|batches'| - 1] == batches;
        assert Flatten(batches') == collected + messages;
        if y.1 {
          assert run == Run(y.0, batches', Stopped, step.1);
          assert run.batches[..|run.batches| - 1] == batches;
          assert |y.0| == stopAfter || |y.0| == |collected| + 1;
        } else {
          assert run == LoopRun(step.1, consume, stopAfter, fuel - 1, y.0, batches');
          LoopYieldsInOrder(step.1, consume, stopAfter, fuel - 1, y.0, batches');
        }
      }
    }
  }

  /** One message per response: the data response carries the message itself. */
  function OneMessage(payload: seq<Byte>): (messages: seq<seq<Byte>>)
  {
    [payload]
  }

  /** With the offset set, a data response carrying `p` is consumed as the one message `p`. */
  lemma ConsumeOneMessage(s: Session, p: seq<Byte>, rest: seq<Byte>)
    requires s.offset.Some?
    requires 2 + |p| < TWO_32
    requires s.inbox == EncodeDataResponse(0, p) + rest
    ensures Consuming(OneMessage)(s).0 == Ok([p])
    ensures Consuming(OneMessage)(s).1.inbox == rest && Consuming(OneMessage)(s).1.offset == s.offset
  {
    ReadEncodedDataResponse(0, p, rest);
  }

  /** A block that breaks on the first message receives exactly one message from one consume. */
  lemma LoopBreaksOnFirstMessage(s: Session, fuel: nat, p: seq<Byte>, rest: seq<Byte>)
    requires s.offset.Some? && fuel >= 1
    requires 2 + |p| < TWO_32
    requires s.inbox == EncodeDataResponse(0, p) + rest
    ensures var run := LoopRun(s, Consuming(OneMessage), 1, fuel, [], []);
            run.collected == [p] && run.batches == [[p]] && run.outcome == Stopped
  {
    ConsumeOneMessage(s, p, rest);
  }

  /** Two consumes that return one message each, with a block that breaks on the second message. */
  lemma LoopTwoSingleBatches<M>(s: Session, consume: Session -> (Result<seq<M>, ReadError>, Session), fuel: nat,
                                m1: M, m2: M, s1: Session, s2: Session)
    requires fuel >= 2
    requires consume(s) == (Ok([m1]), s1) && consume(s1) == (Ok([m2]), s2)
    ensures LoopRun(s, consume, 2, fuel, [], []) == Run([m1, m2], [[m1], [m2]], Stopped, s2)
  {
    var none: seq<M> := [];
    assert Yield(none, [m1], 2) == ([m1], false) by {
      assert [m1][1..] == none && none + [m1] == [m1];
    }
    assert LoopRun(s, consume, 2, fuel, none, []) == LoopRun(s1, consume, 2, fuel - 1, [m1], [[m1]]);
    assert Yield([m1], [m2], 2) == ([m1, m2], true) by {
      assert [m1] + [[m2][0]] == [m1, m2];
    }
  }

  /** A block that breaks on the second message receives one message from each of two consumes. */
  lemma LoopTwoIterations(s: Session, fuel: nat, p1: seq<Byte>, p2: seq<Byte>, rest: seq<Byte>)
    requires s.offset.Some? && fuel >= 2
    requires 2 + |p1| < TWO_32 && 2 + |p2| < TWO_32
    requires s.inbox == EncodeDataResponse(0, p1) + EncodeDataResponse(0, p2) + rest
    ensures var run := LoopRun(s, Consuming(OneMessage), 2, fuel, [], []);
            run.collected == [p1, p2] && run.batches == [[p1], [p2]] && run.outcome == Stopped
  {
    var consume := Consuming(OneMessage);
    var tail := EncodeDataResponse(0, p2) + rest;
    assert s.inbox == EncodeDataResponse(0, p1) + tail;
    ConsumeOneMessage(s, p1, tail);
    var s1 := consume(s).1;
    ConsumeOneMessage(s1, p2, rest);
    LoopTwoSingleBatches(s, consume, fuel, p1, p2, s1, consume(s1).1);
  }

  // ---------------------------------------------------------------------------
  // The consumer object.

  class Consumer {
    var topic: seq<Byte>
    var partition: int
    var offset: Option<int>
    var polling: nat
    var maxSize: int
    var host: string
    var port: int
    /** Bytes the broker has yet to deliver on this connection. */
    var inbox: seq<Byte>
    /** Everything written to the connection so far. */
    var sent: seq<Byte>
    /** The requests those bytes encode. */
    ghost var requests: seq<Request>

    /** The bytes written are the frames of the requests, in order. */
    ghost predicate Valid()
      reads this
    {
      sent == Wire(requests)
    }

    ghost function State(): (s: Session)
      reads this
    {
      Session(topic, partition, offset, maxSize, inbox, requests)
    }

    /** Build a consumer from `config`; `broker` is what the connection will deliver. */
    constructor (config: ConsumerConfig, broker: seq<Byte>)
      ensures topic == config.topic.GetOr(DEFAULT_TOPIC)
      ensures partition == config.partition.GetOr(DEFAULT_PARTITION)
      ensures offset == config.offset
      ensures polling == config.polling.GetOr(DEFAULT_POLLING_INTERVAL)
      ensures maxSize == config.maxSize.GetOr(MAX_SIZE)
      ensures host == config.host.GetOr(DEFAULT_HOST) && port == config.port.GetOr(DEFAULT_PORT)
      ensures inbox == broker && sent == [] && requests == []
      ensures Valid()
    {
      topic := config.topic.GetOr(DEFAULT_TOPIC);
      partition := config.partition.GetOr(DEFAULT_PARTITION);
      offset := config.offset;
      polling := config.polling.GetOr(DEFAULT_POLLING_INTERVAL);
      maxSize := config.maxSize.GetOr(MAX_SIZE);
      host := config.host.GetOr(DEFAULT_HOST);
      port := config.port.GetOr(DEFAULT_PORT);
      inbox := broker;
      sent := [];
      requests := [];
    }

    /** Write `data` to the connection; returns the number of bytes written. */
    method Write(data: seq<Byte>) returns (n: nat)
      modifies this`sent
      ensures sent == old(sent) + data
      ensures n == |data|
    {
      sent := sent + data;
      n := |data|;
    }

    /** `send_consume_request`: the size header, then the FETCH request, one write each. */
    method SendConsumeRequest() returns (n: nat)
      requires offset.Some? && Valid()
      modifies this`sent, this`requests
      ensures sent == old(sent) + Frame(FetchRequest(topic, partition, offset.value, maxSize))
      ensures requests == old(requests) + [FetchRequest(topic, partition, offset.value, maxSize)]
      ensures n == RequestLength(topic) && Valid()
    {
      ghost var req := FetchRequest(topic, partition, offset.value, maxSize);
      WireAppend(requests, req);
      var _ := Write(EncodedRequestSize(topic));
      n := Write(EncodeRequest(Fetch, topic, partition, offset.value, maxSize));
      requests := requests + [req];
    }

    /** The size header, then the OFFSETS request for the latest offset. */
    method SendOffsetsRequest() returns (n: nat)
      requires Valid()
      modifies this`sent, this`requests
      ensures sent == old(sent) + Frame(OffsetsRequest(topic, partition))
      ensures requests == old(requests) + [OffsetsRequest(topic, partition)]
      ensures n == RequestLength(topic) && Valid()
    {
      ghost var req := OffsetsRequest(topic, partition);
      WireAppend(requests, req);
      var _ := Write(EncodedRequestSize(topic));
      n := Write(EncodeRequest(Offsets, topic, partition, LATEST_OFFSET, MAX_OFFSETS));
      requests := requests + [req];
    }

    /** `read_data_response` on the connection. */
    method ReceiveDataResponse() returns (r: Result<seq<Byte>, ReadError>)
      modifies this`inbox
      ensures ReadDataResponse(old(inbox)).Ok? ==>
                r == Ok(ReadDataResponse(old(inbox)).value.0) && inbox == ReadDataResponse(old(inbox)).value.1
      ensures ReadDataResponse(old(inbox)).Err? ==>
                r == Err(ReadDataResponse(old(inbox)).error) && inbox == AfterResponse(old(inbox))
    {
      match ReadDataResponse(inbox)
      case Ok((payload, rest)) =>
        r := Ok(payload);
        inbox := rest;
      case Err(e) =>
        r := Err(e);
        inbox := AfterResponse(inbox);
    }

    /** `read_offsets_response` on the connection. */
    method ReceiveOffsetsResponse() returns (r: Result<int, ReadError>)
      modifies this`inbox
      ensures ReadOffsetsResponse(old(inbox)).Ok? ==>
                r == Ok(ReadOffsetsResponse(old(inbox)).value.0) && inbox == ReadOffsetsResponse(old(inbox)).value.1
      ensures ReadOffsetsResponse(old(inbox)).Err? ==>
                r == Err(ReadOffsetsResponse(old(inbox)).error) && inbox == AfterResponse(old(inbox))
    {
      match ReadOffsetsResponse(inbox)
      case Ok((latest, rest)) =>
        r := Ok(latest);
        inbox := rest;
      case Err(e) =>
        r := Err(e);
        inbox := AfterResponse(inbox);
    }

    /** `fetch_latest_offset`. */
    method FetchLatestOffset() returns (r: Result<int, ReadError>)
      requires Valid()
      modifies this`sent, this`requests, this`inbox
      ensures Valid()
      ensures (r, State()) == FetchLatestOffsetStep(old(State()))
    {
      var _ := SendOffsetsRequest();
      r := ReceiveOffsetsResponse();
    }

    /** `consume`: bootstrap the offset once if it is unset, then fetch. */
    method Consume<M>(decode: seq<Byte> -> seq<M>) returns (r: Result<seq<M>, ReadError>)
      requires Valid()
      modifies this`sent, this`requests, this`inbox, this`offset
      ensures Valid()
      ensures (r, State()) == ConsumeStep(old(State()), decode)
    {
      if offset.None? {
        var latest := FetchLatestOffset();
        if latest.Err? {
          return Err(latest.error);
        }
        offset := Some(latest.value);
      }
      r := FetchMessages(decode);
    }

    /** Send the FETCH request for the current offset and read the data response. */
    method FetchMessages<M>(decode: seq<Byte> -> seq<M>) returns (r: Result<seq<M>, ReadError>)
      requires offset.Some? && Valid()
      modifies this`sent, this`requests, this`inbox
      ensures Valid()
      ensures (r, State()) == FetchStep(old(State()), decode)
    {
      var _ := SendConsumeRequest();
      var data := ReceiveDataResponse();
      match data
      case Ok(payload) => r := Ok(decode(payload));
      case Err(e) => r := Err(e);
    }

    /** Hand `messages` to the block one at a time, after the `collected` ones; `stop` tells whether it broke out. */
    static method YieldAll<M>(collected: seq<M>, messages: seq<M>, stopAfter: nat) returns (all: seq<M>, stop: bool)
      ensures (all, stop) == Yield(collected, messages, stopAfter)
    {
      all, stop := collected, false;
      var j := 0;
      while j < |messages| && !stop
        invariant 0 <= j <= |messages|
        invariant Yield(collected, messages, stopAfter)
               == if stop then (all, true) else Yield(all, messages[j..], stopAfter)
      {
        all := all + [messages[j]];
        stop := |all| >= stopAfter;
        j := j + 1;
      }
    }

    /**
     * One iteration of `loop`: consume, then hand the messages to the block.
     * `done` tells whether the loop ends here, and `outcome` says why.
     */
    method Iterate<M>(decode: seq<Byte> -> seq<M>, stopAfter: nat, fuel: nat, collected: seq<M>, ghost batches: seq<seq<M>>)
      returns (collected': seq<M>, done: bool, outcome: LoopOutcome, ghost batches': seq<seq<M>>)
      requires fuel > 0
      requires Valid()
      modifies this`sent, this`requests, this`inbox, this`offset
      ensures Valid()
      ensures LoopRun(old(State()), Consuming(decode), stopAfter, fuel, collected, batches)
           == if done then Run(collected', batches', outcome, State())
              else LoopRun(State(), Consuming(decode), stopAfter, fuel - 1, collected', batches')
      ensures !done ==> outcome == FuelExhausted
    {
      ghost var before := State();
      var r := Consume(decode);
      LoopRunStep(before, Consuming(decode), stopAfter, fuel, collected, batches, r, State());
      match r {
      case Err(e) =>
        collected', done, outcome, batches' := collected, true, Failed(e), batches;
      case Ok(messages) =>
        var stop;
        collected', stop := YieldAll(collected, messages, stopAfter);
        batches' := batches + [messages];
        done, outcome := stop, if stop then Stopped else FuelExhausted;
      }
    }

    /** `loop`, run for at most `fuel` iterations with a block that breaks after `stopAfter` messages. */
    method Loop<M>(decode: seq<Byte> -> seq<M>, stopAfter: nat, fuel: nat)
      returns (collected: seq<M>, outcome: LoopOutcome, ghost batches: seq<seq<M>>)
      requires Valid()
      modifies this`sent, this`requests, this`inbox, this`offset
      ensures Valid()
      ensures LoopRun(old(State()), Consuming(decode), stopAfter, fuel, [], []) == Run(collected, batches, outcome, State())
    {
      collected, outcome, batches := [], FuelExhausted, [];
      var i, done := 0, false;
      while i < fuel && !done
        invariant 0 <= i <= fuel
        invariant LoopRun(old(State()), Consuming(decode), stopAfter, fuel, [], [])
               == if done then Run(collected, batches, outcome, State())
                  else LoopRun(State(), Consuming(decode), stopAfter, fuel - i, collected, batches)
        invariant !done ==> outcome == FuelExhausted
        invariant Valid()
        decreases fuel - i
      {
        collected, done, outcome, batches := Iterate(decode, stopAfter, fuel - i, collected, batches);
        i := i + 1;
      }
    }
  }
}
