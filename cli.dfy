/** The command-line client's request path (src/bin/shelly-cli.rs): sequence numbering, the
    request packet, and the send/ACK/response retry loop. The socket is an oracle: each receive is
    the next `RecvEvent` (an exhausted list reads as timeouts) and `sendFails` says which
    attempt's send fails. */
module Cli {
  import opened Wrappers
  import opened Bytes
  import opened CommTypes
  import PayloadCodec

  /** The `io::ErrorKind`s the client produces, and `io::Error` itself. */
  datatype IoErrorKind = TimedOut | InvalidData | Other
  datatype IoError = IoError(kind: IoErrorKind, msg: string)

  /** `SocketAddr` of a peer. */
  datatype Address = Address(host: seq<byte>, port: nat)

  /** One `recv_from` under its timeout. */
  datatype RecvEvent =
    | Received(from: Address, data: seq<byte>)
    | RecvTimeout
    | RecvFailed(error: IoError)

  /** `Config` as far as the request path uses it. */
  datatype Config = Config(target: Address, ackTimeoutSecs: nat, maxRetries: u32)

  const ACK_BUFFER_LEN: nat := 1024
  const RESPONSE_BUFFER_LEN: nat := 65536
  const RESPONSE_TIMEOUT_SECS: nat := 120
  const DEFAULT_ACK_TIMEOUT_SECS: nat := 5
  const DEFAULT_MAX_RETRIES: u32 := 3
  const REQUEST_KIND: byte := 0x01
  const ACK_KIND: byte := 0x02
  const RESPONSE_KIND: byte := 0x03

  /** `fetch_add(1)` on an `AtomicU32` wraps around. */
  function NextSeq(s: u32): (n: u32)
    ensures s < U32_LIMIT - 1 ==> n == s + 1
    ensures s == U32_LIMIT - 1 ==> n == 0
  {
    (s + 1) % U32_LIMIT
  }

  /** Type byte, big-endian sequence, serialised `RequestPayload`. */
  function RequestPacket(s: u32, content: string): (bs: seq<byte>)
    ensures |bs| >= 5 && bs[0] == REQUEST_KIND && bs[1..5] == BigEndian(s)
    ensures bs[5..] == PayloadCodec.EncodeRequest(RequestPayload(content))
  {
    [REQUEST_KIND] + BigEndian(s) + PayloadCodec.EncodeRequest(RequestPayload(content))
  }

  /** The receive event for the `pos`-th wait; once the list is exhausted, every wait times out. */
  function EventAt(events: seq<RecvEvent>, pos: nat): RecvEvent
  {
    if pos < |events| then events[pos] else RecvTimeout
  }

  /** `wait_for_ack`: `Ok(true)` only for a 0x02 packet from the target carrying the expected
      sequence; anything else and a timeout give `Ok(false)`; a receive error is passed on. */
  function AckResult(ev: RecvEvent, target: Address, expected: u32): (r: Result<bool, IoError>)
    ensures r == Ok(true) <==>
              (ev.Received? && ev.from == target && |ev.data| >= 5 &&
               ev.data[0] == ACK_KIND && ev.data[1..5] == BigEndian(expected))
    ensures r.Err? <==> ev.RecvFailed?
  {
    match ev
    case RecvTimeout => Ok(false)
    case RecvFailed(e) => Err(e)
    case Received(from, raw) =>
      var data := Truncate(raw, ACK_BUFFER_LEN);
      if from != target then Ok(false)
      else if |data| < 5 then Ok(false)
      else
        var s := FromBigEndian(data[1], data[2], data[3], data[4]);
        BigEndianOfValue(data[1], data[2], data[3], data[4]);
        if s == expected then BigEndianRoundTrip(expected); Ok(data[0] == ACK_KIND)
        else
          assert BigEndian(s) == data[1..5];
          Ok(false)
  }

  /** `wait_for_response`: the payload of a 0x03 packet from the target with the expected
      sequence (read from a 65536-byte buffer), or the reason it is not one; each check has its
      own error, in the order the code makes them. */
  function ResponseResult(ev: RecvEvent, target: Address, expected: u32): (r: Result<ResponsePayload, IoError>)
    ensures r.Ok? <==> ev.Received? && ev.from == target && |ev.data| >= 5 && ev.data[0] == RESPONSE_KIND &&
                       ev.data[1..5] == BigEndian(expected) &&
                       PayloadCodec.DecodeResponse(Truncate(ev.data, RESPONSE_BUFFER_LEN)[5..]).Ok?
    ensures r.Ok? ==> PayloadCodec.DecodeResponse(Truncate(ev.data, RESPONSE_BUFFER_LEN)[5..]) == Ok(r.value)
    ensures ev.RecvTimeout? ==> r == Err(IoError(TimedOut, "Response timeout"))
    ensures ev.RecvFailed? ==> r == Err(ev.error)
    ensures ev.Received? && ev.from != target ==> r == Err(IoError(Other, "Unexpected sender"))
    ensures ev.Received? && ev.from == target && |ev.data| < 5 ==> r == Err(IoError(InvalidData, "Packet too short"))
    ensures ev.Received? && ev.from == target && |ev.data| >= 5 && ev.data[0] != RESPONSE_KIND ==>
              r == Err(IoError(InvalidData, "Not a response packet"))
    ensures ev.Received? && ev.from == target && |ev.data| >= 5 && ev.data[0] == RESPONSE_KIND &&
            ev.data[1..5] != BigEndian(expected) ==>
              r == Err(IoError(InvalidData, "Sequence mismatch"))
    ensures ev.Received? && ev.from == target && |ev.data| >= 5 && ev.data[0] == RESPONSE_KIND &&
            ev.data[1..5] == BigEndian(expected) &&
            PayloadCodec.DecodeResponse(Truncate(ev.data, RESPONSE_BUFFER_LEN)[5..]).Err? ==>
              r == Err(IoError(InvalidData, PayloadCodec.DecodeResponse(Truncate(ev.data, RESPONSE_BUFFER_LEN)[5..]).error))
  {
    match ev
    case RecvTimeout => Err(IoError(TimedOut, "Response timeout"))
    case RecvFailed(e) => Err(e)
    case Received(from, raw) =>
      var data := Truncate(raw, RESPONSE_BUFFER_LEN);
      if from != target then Err(IoError(Other, "Unexpected sender"))
      else if |data| < 5 then Err(IoError(InvalidData, "Packet too short"))
      else if data[0] != RESPONSE_KIND then Err(IoError(InvalidData, "Not a response packet"))
      else
        var s := FromBigEndian(data[1], data[2], data[3], data[4]);
        BigEndianOfValue(data[1], data[2], data[3], data[4]);
        if s != expected then Err(IoError(InvalidData, "Sequence mismatch"))
        else
          BigEndianRoundTrip(expected);
          match PayloadCodec.DecodeResponse(data[5..])
          case Ok(p) => Ok(p)
          case Err(e) => Err(IoError(InvalidData, e))
  }

  /** One attempt after a successful send: wait for the ACK and, if it is ours, for the response.
      Gives the response, if one was accepted, and the number of receive events read. */
  function Attempt(target: Address, s: u32, events: seq<RecvEvent>, pos: nat): (Option<ResponsePayload>, nat)
  {
    if AckResult(EventAt(events, pos), target, s) == Ok(true) then
      match ResponseResult(EventAt(events, pos + 1), target, s)
      case Ok(p) => (Some(p), 2)
      case Err(_) => (None, 2)
    else (None, 1)
  }

  /** `Attempt` as a function of the position of the next wait. */
  function AttemptAt(target: Address, s: u32, events: seq<RecvEvent>): nat -> (Option<ResponsePayload>, nat)
  {
    pos => Attempt(target, s, events, pos)
  }

  /** The outcome of the retry loop from attempt `attempt` on, with `remaining` attempts left and
      the next wait reading event `pos`, where `try` is what one attempt after a successful send
      does: the result and how many packets were sent. */
  function Attempts(try: nat -> (Option<ResponsePayload>, nat), sendFails: nat -> Option<string>,
                    pos: nat, attempt: nat, remaining: nat): (out: (Result<ResponsePayload, IoError>, nat))
    ensures out.1 <= remaining
    decreases remaining
  {
    if remaining == 0 then (Err(IoError(TimedOut, "shelly not responding")), 0)
    else if sendFails(attempt).Some? then (Err(IoError(Other, sendFails(attempt).value)), 0)
    else
      var (response, used) := try(pos);
      if response.Some? then (Ok(response.value), 1)
      else
        var rest := Attempts(try, sendFails, pos + used, attempt + 1, remaining - 1);
        (rest.0, rest.1 + 1)
  }

  class Client {
    const config: Config
    /** The next sequence number to use. */
    var nextSeq: u32

    /** `Client::new`: numbering starts at 1. */
    constructor (config: Config)
      ensures this.config == config && nextSeq == 1
    {
      this.config := config;
      nextSeq := 1;
    }

    /** `send_request`: take the next sequence number, then up to `max_retries` times send the
        same packet, wait for its ACK and then for its response. */
    method SendRequest(content: string, events: seq<RecvEvent>, sendFails: nat -> Option<string>)
      returns (r: Result<ResponsePayload, IoError>, sent: seq<seq<byte>>)
      modifies this
      ensures nextSeq == NextSeq(old(nextSeq))
      ensures var out := Attempts(AttemptAt(config.target, old(nextSeq), events), sendFails, 0, 0, config.maxRetries);
              r == out.0 && |sent| == out.1
      ensures forall i :: 0 <= i < |sent| ==> sent[i] == RequestPacket(old(nextSeq), content)
    {
      var s := nextSeq;
      nextSeq := NextSeq(nextSeq);
      r, sent := Exchange(AttemptAt(config.target, s, events), RequestPacket(s, content), sendFails, config.maxRetries);
    }
  }

  /** The retry loop of `send_request`: up to `retries` times send `packet`, then wait for its
      ACK and its response as `try` says. */
  method Exchange(try: nat -> (Option<ResponsePayload>, nat), packet: seq<byte>,
                  sendFails: nat -> Option<string>, retries: nat)
    returns (r: Result<ResponsePayload, IoError>, sent: seq<seq<byte>>)
    ensures var out := Attempts(try, sendFails, 0, 0, retries);
            r == out.0 && |sent| == out.1
    ensures forall i :: 0 <= i < |sent| ==> sent[i] == packet
  {
    sent := [];
    var pos := 0;
    var attempt := 0;
    ghost var whole := Attempts(try, sendFails, 0, 0, retries);
    while attempt < retries
      invariant attempt <= retries && |sent| == attempt
      invariant forall i :: 0 <= i < |sent| ==> sent[i] == packet
      invariant whole.0 == Attempts(try, sendFails, pos, attempt, retries - attempt).0
      invariant whole.1 == attempt + Attempts(try, sendFails, pos, attempt, retries - attempt).1
    {
      if sendFails(attempt).Some? {
        r := Err(IoError(Other, sendFails(attempt).value));
        return;
      }
      sent := sent + [packet];
      var (response, used) := try(pos);
      if response.Some? {
        r := Ok(response.value);
        return;
      }
      pos := pos + used;
      attempt := attempt + 1;
    }
    r := Err(IoError(TimedOut, "shelly not responding"));
  }

  /** A successful exchange returns the payload of a response from the target carrying the
      request's own sequence number, received right after that sequence's ACK. */
  lemma {:induction false} SuccessComesFromMatchingResponse(target: Address, s: u32, events: seq<RecvEvent>,
                                                            sendFails: nat -> Option<string>, pos: nat,
                                                            attempt: nat, remaining: nat)
    requires Attempts(AttemptAt(target, s, events), sendFails, pos, attempt, remaining).0.Ok?
    ensures exists i :: pos <= i && AckResult(EventAt(events, i), target, s) == Ok(true) &&
                        ResponseResult(EventAt(events, i + 1), target, s)
                          == Ok(Attempts(AttemptAt(target, s, events), sendFails, pos, attempt, remaining).0.value)
    decreases remaining
  {
    var (response, used) := Attempt(target, s, events, pos);
    if response.Some? {
      assert AckResult(EventAt(events, pos), target, s) == Ok(true);
    } else {
      SuccessComesFromMatchingResponse(target, s, events, sendFails, pos + used, attempt + 1, remaining - 1);
    }
  }

  /** A silent server (every wait times out) costs exactly `remaining` sends and ends in
      `TimedOut "shelly not responding"`, unless a send fails first. */
  lemma {:induction false} SilentServerExhaustsRetries(target: Address, s: u32, sendFails: nat -> Option<string>,
                                                       pos: nat, attempt: nat, remaining: nat)
    requires forall k :: attempt <= k < attempt + remaining ==> sendFails(k).None?
    ensures Attempts(AttemptAt(target, s, []), sendFails, pos, attempt, remaining)
            == (Err(IoError(TimedOut, "shelly not responding")), remaining)
    decreases remaining
  {
    if remaining > 0 {
      SilentServerExhaustsRetries(target, s, sendFails, pos + 1, attempt + 1, remaining - 1);
    }
  }

  /** With `max_retries` 0 nothing is sent and the request times out at once. */
  lemma NoRetriesNoSend(target: Address, s: u32, events: seq<RecvEvent>, sendFails: nat -> Option<string>, pos: nat)
    ensures Attempts(AttemptAt(target, s, events), sendFails, pos, 0, 0) == (Err(IoError(TimedOut, "shelly not responding")), 0)
  {
  }

  /** Consecutive requests use consecutive sequence numbers modulo 2^32, so any fewer than 2^32
      requests in a row carry distinct numbers. */
  function SeqAfter(start: u32, n: nat): (s: u32)
    ensures s == (start + n) % U32_LIMIT
    decreases n
  {
    if n == 0 then start else NextSeq(SeqAfter(start, n - 1))
  }

  lemma DistinctSequences(start: u32, i: nat, j: nat)
    requires i < j < U32_LIMIT
    ensures SeqAfter(start, i) != SeqAfter(start, j)
  {
  }
}
