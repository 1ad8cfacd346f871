/** The UDP server's per-datagram logic (src/comm/server.rs): header checks, the per-client
    deduplication table with capacity eviction, the five ways a packet is classified, and the
    periodic TTL cleanup.

    `handle_packet` is awaited inline by the receive loop, and it in turn awaits the main loop's
    reply, so packets are handled strictly one after another: each datagram is one atomic step
    here. The main loop's answer is an oracle (`Outcome`) and `Instant::now()` is the `now` and
    `at` parameters. Sends are returned as the list of datagrams written to the client's address. */
module Server {
  import opened Wrappers
  import opened Bytes
  import opened CommTypes
  import opened Protocol

  /** `SocketAddr` of a peer. */
  datatype SocketAddr = SocketAddr(host: seq<byte>, port: nat)

  /** `DedupEntry`: when the entry was (re)written and the cached response, once there is one. */
  datatype DedupEntry = DedupEntry(instant: nat, cachedResponse: Option<seq<byte>>)

  type ClientTable = map<u32, DedupEntry>

  /** What became of a request forwarded to the main loop. */
  datatype Outcome =
    | Replied(response: UserResponse, at: nat)  // the reply arrived; `at` is `Instant::now()` then
    | ReplyDropped                              // the oneshot sender was dropped without a reply
    | ReplyTimedOut                             // no reply within 300 seconds
    | ForwardFailed                             // the main-loop channel was closed

  /** A `UserRequest` handed to the main loop (its reply channel is the `Outcome`). */
  datatype Forwarded = Forwarded(content: string, source: SocketAddr)

  /** Everything one request packet does: the client's new table, the returned result, the
      datagrams sent back (in order) and the request forwarded, if any. */
  datatype Step = Step(table: ClientTable, result: Result<(), CommError>, sent: seq<seq<byte>>,
                       forwarded: Option<Forwarded>)

  const REPLY_TIMEOUT_SECS: nat := 300
  const CLEANUP_INTERVAL_SECS: nat := 30
  const RECV_BUFFER_EXTRA: nat := 1024

  /** What the receive loop's `select!` sees: a datagram (with the clock at arrival and the
      fate of its request, should it carry one), a cleanup tick, or a receive failure. */
  datatype ServerEvent =
    | Datagram(data: seq<byte>, from: SocketAddr, now: nat, outcome: Outcome)
    | Tick(now: nat)
    | RecvFailed(msg: string)

  /** The error that ends `run`: the first receive failure among the events. */
  function FirstRecvError(events: seq<ServerEvent>): Option<CommError>
  {
    if events == [] then None
    else if events[0].RecvFailed? then Some(RecvError(events[0].msg))
    else FirstRecvError(events[1..])
  }

  /** Every address a datagram came from. */
  function Sources(events: seq<ServerEvent>): set<SocketAddr>
  {
    set i | 0 <= i < |events| && events[i].Datagram? :: events[i].from
  }

  /** `k` is a key of minimum instant (`min_by_key(|(_, e)| e.instant)`). */
  predicate IsOldest(m: ClientTable, k: u32)
  {
    k in m && forall j :: j in m ==> m[k].instant <= m[j].instant
  }

  /** A non-empty table always has an oldest entry. */
  lemma {:induction false} OldestExists(m: ClientTable)
    requires m != map[]
    ensures exists k :: IsOldest(m, k)
    decreases |m|
  {
    var j :| j in m;
    var rest := m - {j};
    assert forall i :: i in m && i != j ==> i in rest && rest[i] == m[i];
    if rest == map[] {
      assert IsOldest(m, j);
    } else {
      assert |rest| < |m| by { assert rest.Keys == m.Keys - {j}; }
      OldestExists(rest);
      var k :| IsOldest(rest, k);
      if m[j].instant <= m[k].instant {
        assert IsOldest(m, j);
      } else {
        assert IsOldest(m, k);
      }
    }
  }

  /** The capacity step that runs before the lookup: at or over capacity, exactly one oldest
      entry is removed (which one among equally old entries is unspecified); otherwise nothing. */
  ghost predicate Evicted(entries: ClientTable, after: ClientTable, capacity: nat)
  {
    if |entries| >= capacity && entries != map[] then
      exists k :: IsOldest(entries, k) && after == entries - {k}
    else
      after == entries
  }

  function ErrorPayload(msg: string): ResponsePayload
  {
    ResponsePayload(msg, true)
  }

  /** The lookup and everything after it, on the table as it is after the capacity step. */
  function Dispatch(entries: ClientTable, s: u32, payload: seq<byte>, now: nat, outcome: Outcome,
                    client: SocketAddr): (st: Step)
  {
    if s in entries then
      match entries[s].cachedResponse
      case Some(cached) => Step(entries, Ok(()), [cached], None)
      case None => Step(entries, Ok(()), [AckBytes(s)], None)
    else
      var pending := entries[s := DedupEntry(now, None)];
      match DecodeRequestPayload(payload)
      case Err(e) => Step(pending, Err(e), [], None)
      case Ok(req) => Forward(pending, s, req, outcome, client)
  }

  /** A new, well-formed request: ACK it, forward it, and send (and on success cache) the reply. */
  function Forward(pending: ClientTable, s: u32, req: RequestPayload, outcome: Outcome,
                   client: SocketAddr): (st: Step)
  {
    var ack := AckBytes(s);
    match outcome
    case ForwardFailed =>
      Step(pending, Err(ChannelClosed), [ack, ResponseBytes(s, ErrorPayload("Internal server error"))], None)
    case Replied(resp, at) =>
      var bytes := ResponseBytes(s, ResponsePayload(resp.content, resp.isError));
      Step(pending[s := DedupEntry(at, Some(bytes))], Ok(()), [ack, bytes], Some(Forwarded(req.content, client)))
    case ReplyDropped =>
      Step(pending, Ok(()), [ack, ResponseBytes(s, ErrorPayload("No response from handler"))],
           Some(Forwarded(req.content, client)))
    case ReplyTimedOut =>
      Step(pending, Ok(()), [ack, ResponseBytes(s, ErrorPayload("Response timeout"))],
           Some(Forwarded(req.content, client)))
  }

  /** `now.duration_since(instant)`, which saturates at zero for an instant in the future. */
  function Age(now: nat, instant: nat): nat
  {
    if now >= instant then now - instant else 0
  }

  /** `entries.retain(|_, e| now.duration_since(e.instant) < ttl)`. */
  function Retain(m: ClientTable, now: nat, ttl: nat): (r: ClientTable)
    ensures forall k :: k in r <==> k in m && Age(now, m[k].instant) < ttl
    ensures forall k :: k in r ==> r[k] == m[k]
  {
    map k | k in m && Age(now, m[k].instant) < ttl :: m[k]
  }

  /** The whole of `cleanup_dedup`: every client's table retained, then empty tables dropped. */
  function Cleaned(d: map<SocketAddr, ClientTable>, now: nat, ttl: nat): (r: map<SocketAddr, ClientTable>)
    ensures forall a :: a in r <==> a in d && Retain(d[a], now, ttl) != map[]
    ensures forall a :: a in r ==> r[a] == Retain(d[a], now, ttl)
  {
    map a | a in d && Retain(d[a], now, ttl) != map[] :: Retain(d[a], now, ttl)
  }

  /** The per-client bound the table keeps: the capacity, or one entry when the capacity is 0
      (the new entry is inserted after the eviction). */
  function Bound(capacity: nat): nat
  {
    if capacity == 0 then 1 else capacity
  }

  /** Every tracked client has at least one entry and at most `Bound(capacity)`. */
  ghost predicate TablesBounded(d: map<SocketAddr, ClientTable>, capacity: nat)
  {
    forall a :: a in d ==> d[a] != map[] && |d[a]| <= Bound(capacity)
  }

  /** The capacity step of `handle_request` (`min_by_key` then `remove`). */
  method EvictOldest(entries: ClientTable, capacity: nat) returns (after: ClientTable)
    ensures Evicted(entries, after, capacity)
  {
    after := entries;
    if |entries| >= capacity && entries != map[] {
      OldestExists(entries);
      var oldest :| IsOldest(entries, oldest);
      after := entries - {oldest};
    }
  }

  /** The rest of `handle_request` on one client's table: the lookup, the pending insertion, the
      payload decoding, the ACK, the forwarding and the response, in that order. */
  method Respond(entries: ClientTable, s: u32, payload: seq<byte>, now: nat, outcome: Outcome,
                 client: SocketAddr)
    returns (table: ClientTable, r: Result<(), CommError>, sent: seq<seq<byte>>, forwarded: Option<Forwarded>)
    ensures Step(table, r, sent, forwarded) == Dispatch(entries, s, payload, now, outcome, client)
  {
    table := entries;
    sent := [];
    forwarded := None;
    if s in table {
      if table[s].cachedResponse.Some? {
        sent := sent + [table[s].cachedResponse.value];
      } else {
        var ack := EncodeRequestAck(s);
        sent := sent + [ack];
      }
      r := Ok(());
      return;
    }
    table := table[s := DedupEntry(now, None)];
    var decoded := DecodeRequestPayload(payload);
    if decoded.Err? {
      r := Err(decoded.error);
      return;
    }
    table, r, sent, forwarded := ForwardRequest(table, s, decoded.value, outcome, client);
  }

  /** The part of `handle_request` after a successful decode. */
  method ForwardRequest(pending: ClientTable, s: u32, req: RequestPayload, outcome: Outcome, client: SocketAddr)
    returns (table: ClientTable, r: Result<(), CommError>, sent: seq<seq<byte>>, forwarded: Option<Forwarded>)
    ensures Step(table, r, sent, forwarded) == Forward(pending, s, req, outcome, client)
  {
    table := pending;
    forwarded := None;
    var ack := EncodeRequestAck(s);
    var response;
    match outcome {
      case ForwardFailed =>
        response := EncodeResponse(s, ErrorPayload("Internal server error"));
        r := Err(ChannelClosed);
      case Replied(resp, at) =>
        forwarded := Some(Forwarded(req.content, client));
        response := EncodeResponse(s, ResponsePayload(resp.content, resp.isError));
        table := table[s := DedupEntry(at, Some(response))];
        r := Ok(());
      case ReplyDropped =>
        forwarded := Some(Forwarded(req.content, client));
        response := EncodeResponse(s, ErrorPayload("No response from handler"));
        r := Ok(());
      case ReplyTimedOut =>
        forwarded := Some(Forwarded(req.content, client));
        response := EncodeResponse(s, ErrorPayload("Response timeout"));
        r := Ok(());
    }
    sent := [ack, response];
  }

  class Comm {
    const maxPayloadBytes: nat
    const dedupCapacity: nat
    const dedupTtlSecs: nat
    /** `dedup`: sequence deduplication table per client. */
    var dedup: map<SocketAddr, ClientTable>

    ghost predicate Valid()
      reads this
    {
      TablesBounded(dedup, dedupCapacity)
    }

    /** `Comm::new` without the socket: an empty table. */
    constructor (maxPayloadBytes: nat, dedupCapacity: nat, dedupTtlSecs: nat)
      ensures Valid() && dedup == map[]
      ensures this.maxPayloadBytes == maxPayloadBytes && this.dedupCapacity == dedupCapacity
      ensures this.dedupTtlSecs == dedupTtlSecs
    {
      this.maxPayloadBytes := maxPayloadBytes;
      this.dedupCapacity := dedupCapacity;
      this.dedupTtlSecs := dedupTtlSecs;
      dedup := map[];
    }

    /** `handle_request`: the client's table (created empty on first contact), capacity eviction,
        then classification of the sequence number. Other clients' tables are untouched. */
    method HandleRequest(payload: seq<byte>, s: u32, client: SocketAddr, now: nat, outcome: Outcome)
      returns (r: Result<(), CommError>, sent: seq<seq<byte>>, forwarded: Option<Forwarded>,
               ghost afterEviction: ClientTable)
      requires Valid()
      modifies this
      ensures Valid()
      ensures Evicted(if client in old(dedup) then old(dedup)[client] else map[], afterEviction, dedupCapacity)
      ensures var st := Dispatch(afterEviction, s, payload, now, outcome, client);
              dedup == old(dedup)[client := st.table] && r == st.result && sent == st.sent &&
              forwarded == st.forwarded
    {
      var entries: ClientTable := if client in dedup then dedup[client] else map[];
      ghost var before := entries;
      entries := EvictOldest(entries, dedupCapacity);
      afterEviction := entries;
      var table;
      table, r, sent, forwarded := Respond(entries, s, payload, now, outcome, client);
      CapacityKept(before, entries, s, payload, now, outcome, client, dedupCapacity);
      BoundedUpdate(dedup, client, table, dedupCapacity);
      dedup := dedup[client := table];
    }

    /** `handle_packet`: length and size checks, header decoding, and only requests go on. */
    method HandlePacket(packet: seq<byte>, client: SocketAddr, now: nat, outcome: Outcome)
      returns (r: Result<(), CommError>, sent: seq<seq<byte>>, forwarded: Option<Forwarded>,
               ghost afterEviction: ClientTable)
      requires Valid()
      modifies this
      ensures Valid()
      ensures |packet| < HEADER_LEN ==>
                r == Err(DecodeError("Packet too short")) && sent == [] && forwarded == None && dedup == old(dedup)
      ensures |packet| >= HEADER_LEN && |packet| - HEADER_LEN > maxPayloadBytes ==>
                r == Err(PayloadTooLarge(|packet| - HEADER_LEN)) && sent == [] && forwarded == None &&
                dedup == old(dedup)
      ensures |packet| >= HEADER_LEN && |packet| - HEADER_LEN <= maxPayloadBytes && DecodeHeader(packet).Err? ==>
                r == Err(DecodeHeader(packet).error) && sent == [] && forwarded == None && dedup == old(dedup)
      ensures |packet| >= HEADER_LEN && |packet| - HEADER_LEN <= maxPayloadBytes && DecodeHeader(packet).Ok? &&
              DecodeHeader(packet).value.0 != Request ==>
                r == Ok(()) && sent == [] && forwarded == None && dedup == old(dedup)
      ensures |packet| >= HEADER_LEN && |packet| - HEADER_LEN <= maxPayloadBytes && DecodeHeader(packet).Ok? &&
              DecodeHeader(packet).value.0 == Request ==>
                Evicted(if client in old(dedup) then old(dedup)[client] else map[], afterEviction, dedupCapacity) &&
                var st := Dispatch(afterEviction, DecodeHeader(packet).value.1, packet[5..], now, outcome, client);
                dedup == old(dedup)[client := st.table] && r == st.result && sent == st.sent &&
                forwarded == st.forwarded
    {
      sent, forwarded, afterEviction := [], None, map[];
      if |packet| < HEADER_LEN {
        r := Err(DecodeError("Packet too short"));
        return;
      }
      var payloadLen := |packet| - HEADER_LEN;
      if payloadLen > maxPayloadBytes {
        r := Err(PayloadTooLarge(payloadLen));
        return;
      }
      var header := DecodeHeader(packet);
      if header.Err? {
        r := Err(header.error);
        return;
      }
      var (t, s) := header.value;
      if t == Request {
        r, sent, forwarded, afterEviction := HandleRequest(packet[5..], s, client, now, outcome);
      } else {
        r := Ok(());
      }
    }

    /** `cleanup_dedup`: retain the young entries of every client, then drop empty clients. */
    method CleanupDedup(now: nat)
      requires Valid()
      modifies this
      ensures Valid()
      ensures dedup == Cleaned(old(dedup), now, dedupTtlSecs)
    {
      var ttl := dedupTtlSecs;
      var d := dedup;
      var tables := d;
      var pending := tables.Keys;
      while pending != {}
        invariant pending <= d.Keys && tables.Keys == d.Keys
        invariant forall a :: a in pending ==> tables[a] == d[a]
        invariant forall a :: a in tables && a !in pending ==> tables[a] == Retain(d[a], now, ttl)
        decreases pending
      {
        var a :| a in pending;
        tables := tables[a := Retain(tables[a], now, ttl)];
        pending := pending - {a};
      }
      DropEmptyIsCleaned(d, tables, now, ttl);
      CleanedBounded(d, now, ttl, dedupCapacity);
      dedup := map a | a in tables && tables[a] != map[] :: tables[a];
    }

    /** `run`: the receive loop over a finite sequence of socket and timer events. Each datagram
        is cut to the receive buffer (`max_payload_bytes + 1024`) and handled, its error only
        logged; a cleanup tick prunes the table; a receive error ends the loop with `RecvError`.
        `None` means every event was consumed and the loop is still waiting. */
    method Run(events: seq<ServerEvent>) returns (stop: Option<CommError>, out: seq<(SocketAddr, seq<byte>)>,
                                                  forwarded: seq<Forwarded>)
      requires Valid()
      modifies this
      ensures Valid()
      ensures stop == FirstRecvError(events)
      ensures forall i :: 0 <= i < |out| ==> out[i].0 in Sources(events)
      ensures forall i :: 0 <= i < |forwarded| ==> forwarded[i].source in Sources(events)
      ensures |forwarded| <= |events|
    {
      stop, out, forwarded := None, [], [];
      var i := 0;
      while i < |events|
        invariant 0 <= i <= |events| && Valid()
        invariant FirstRecvError(events) == FirstRecvError(events[i..])
        invariant forall k :: 0 <= k < |out| ==> out[k].0 in Sources(events)
        invariant forall k :: 0 <= k < |forwarded| ==> forwarded[k].source in Sources(events)
        invariant |forwarded| <= i
      {
        assert events[i..] == [events[i]] + events[i + 1..];
        match events[i] {
          case Datagram(data, from, now, outcome) =>
            assert from in Sources(events) by { assert events[i].Datagram?; }
            var replies, fwd := Receive(data, from, now, outcome);
            out := out + replies;
            if fwd.Some? {
              forwarded := forwarded + [fwd.value];
            }
          case Tick(now) =>
            CleanupDedup(now);
          case RecvFailed(msg) =>
            stop := Some(RecvError(msg));
            return;
        }
        i := i + 1;
      }
      assert events[i..] == [];
    }
    /** One datagram of `run`: cut it to the receive buffer and handle it; every packet the
        handling sends goes to the datagram's sender, and a forwarded request names it. */
    method Receive(data: seq<byte>, from: SocketAddr, now: nat, outcome: Outcome)
      returns (replies: seq<(SocketAddr, seq<byte>)>, fwd: Option<Forwarded>)
      requires Valid()
      modifies this
      ensures Valid()
      ensures forall k :: 0 <= k < |replies| ==> replies[k].0 == from
      ensures fwd.Some? ==> fwd.value.source == from
    {
      var packet := Truncate(data, maxPayloadBytes + RECV_BUFFER_EXTRA);
      ghost var afterEviction;
      var r, sent, forwarded;
      r, sent, forwarded, afterEviction := HandlePacket(packet, from, now, outcome);
      if forwarded.Some? {
        ForwardedFromClient(afterEviction, DecodeHeader(packet).value.1, packet[5..], now, outcome, from);
      }
      fwd := forwarded;
      replies := AddressTo(from, sent);
    }
  }

  /** The `send_to(.., client_addr)` calls of `handle_request`, in order: each packet goes to the
      client it answers. */
  method AddressTo(from: SocketAddr, sent: seq<seq<byte>>) returns (replies: seq<(SocketAddr, seq<byte>)>)
    ensures |replies| == |sent|
    ensures forall k :: 0 <= k < |sent| ==> replies[k] == (from, sent[k])
  {
    replies := [];
    var j := 0;
    while j < |sent|
      invariant 0 <= j <= |sent| && |replies| == j
      invariant forall k :: 0 <= k < j ==> replies[k] == (from, sent[k])
    {
      replies := replies + [(from, sent[j])];
      j := j + 1;
    }
  }

  /** A request `dispatch` forwards carries the address of the client that sent it. */
  lemma ForwardedFromClient(entries: ClientTable, s: u32, payload: seq<byte>, now: nat, outcome: Outcome,
                            client: SocketAddr)
    ensures var st := Dispatch(entries, s, payload, now, outcome, client);
            st.forwarded.Some? ==> st.forwarded.value.source == client
  {
  }

  /** The second pass of `cleanup_dedup` (drop clients left empty) completes `Cleaned`. */
  lemma DropEmptyIsCleaned(d: map<SocketAddr, ClientTable>, tables: map<SocketAddr, ClientTable>, now: nat, ttl: nat)
    requires tables.Keys == d.Keys
    requires forall a :: a in tables ==> tables[a] == Retain(d[a], now, ttl)
    ensures (map a | a in tables && tables[a] != map[] :: tables[a]) == Cleaned(d, now, ttl)
  {
    var kept := map a | a in tables && tables[a] != map[] :: tables[a];
    assert kept.Keys == Cleaned(d, now, ttl).Keys;
  }

  lemma BoundedUpdate(d: map<SocketAddr, ClientTable>, a: SocketAddr, t: ClientTable, capacity: nat)
    requires TablesBounded(d, capacity)
    requires t != map[] && |t| <= Bound(capacity)
    ensures TablesBounded(d[a := t], capacity)
  {
  }

  /** Cleanup keeps every client's table non-empty and within its bound. */
  lemma CleanedBounded(d: map<SocketAddr, ClientTable>, now: nat, ttl: nat, capacity: nat)
    requires TablesBounded(d, capacity)
    ensures TablesBounded(Cleaned(d, now, ttl), capacity)
  {
    var c := Cleaned(d, now, ttl);
    forall a | a in c
      ensures c[a] != map[] && |c[a]| <= Bound(capacity)
    {
      RetainShrinks(d[a], now, ttl);
    }
  }

  /** Retaining never grows a table. */
  lemma RetainShrinks(m: ClientTable, now: nat, ttl: nat)
    ensures |Retain(m, now, ttl)| <= |m|
  {
    var r := Retain(m, now, ttl);
    assert r.Keys <= m.Keys;
    SubsetCard(r.Keys, m.Keys);
  }

  lemma {:induction false} SubsetCard<T>(a: set<T>, b: set<T>)
    requires a <= b
    ensures |a| <= |b|
    decreases |b|
  {
    if a != {} {
      var x :| x in a;
      SubsetCard(a - {x}, b - {x});
    }
  }

  /** The table `Dispatch` leaves is the old one plus the request's own sequence number. */
  lemma DispatchKeys(entries: ClientTable, s: u32, payload: seq<byte>, now: nat, outcome: Outcome,
                     client: SocketAddr)
    ensures Dispatch(entries, s, payload, now, outcome, client).table.Keys == entries.Keys + {s}
  {
  }

  /** After a request, the client's table holds at most `Bound(capacity)` entries whenever it held
      at most that many before: eviction makes room before the one possible insertion. */
  lemma CapacityKept(entries: ClientTable, after: ClientTable, s: u32, payload: seq<byte>, now: nat,
                     outcome: Outcome, client: SocketAddr, capacity: nat)
    requires |entries| <= Bound(capacity)
    requires Evicted(entries, after, capacity)
    ensures var t := Dispatch(after, s, payload, now, outcome, client).table;
            t != map[] && |t| <= Bound(capacity)
  {
    var t := Dispatch(after, s, payload, now, outcome, client).table;
    DispatchKeys(after, s, payload, now, outcome, client);
    assert s in t;
    if |entries| >= capacity && entries != map[] {
      var k :| IsOldest(entries, k) && after == entries - {k};
      assert after.Keys == entries.Keys - {k};
      assert |after| == |entries| - 1;
    }
    assert |t.Keys| <= |after.Keys| + 1;
  }
}

/** Properties of one request step, of eviction and of cleanup. */
module ServerProperties {
  import opened Wrappers
  import opened Bytes
  import opened CommTypes
  import opened Protocol
  import opened Server

  /** A duplicate whose response is cached gets those very bytes again; nothing is forwarded and
      the table is unchanged. */
  lemma DuplicateResendsCachedResponse(entries: ClientTable, s: u32, payload: seq<byte>, now: nat,
                                       outcome: Outcome, client: SocketAddr)
    requires s in entries && entries[s].cachedResponse.Some?
    ensures Dispatch(entries, s, payload, now, outcome, client)
            == Step(entries, Ok(()), [entries[s].cachedResponse.value], None)
  {
  }

  /** A duplicate of a request still in progress is answered with an ACK for its sequence only. */
  lemma DuplicateInProgressAcked(entries: ClientTable, s: u32, payload: seq<byte>, now: nat,
                                 outcome: Outcome, client: SocketAddr)
    requires s in entries && entries[s].cachedResponse.None?
    ensures var st := Dispatch(entries, s, payload, now, outcome, client);
            st == Step(entries, Ok(()), [AckBytes(s)], None) && DecodeHeader(st.sent[0]) == Ok((RequestAck, s))
  {
    HeaderRoundTrip(RequestAck, s, None);
  }

  /** A new request is ACKed first and then answered, both under its own sequence number; it
      reaches the main loop exactly when the channel is open. */
  lemma NewRequestAckedThenAnswered(entries: ClientTable, s: u32, payload: seq<byte>, now: nat,
                                    outcome: Outcome, client: SocketAddr)
    requires s !in entries && DecodeRequestPayload(payload).Ok?
    ensures var st := Dispatch(entries, s, payload, now, outcome, client);
            |st.sent| == 2 && DecodeHeader(st.sent[0]) == Ok((RequestAck, s)) &&
            DecodeHeader(st.sent[1]) == Ok((Response, s)) &&
            (st.forwarded.Some? <==> !outcome.ForwardFailed?) &&
            (st.forwarded.Some? ==> st.forwarded.value == Forwarded(DecodeRequestPayload(payload).value.content, client)) &&
            (st.result.Err? <==> outcome.ForwardFailed?)
  {
    var st := Dispatch(entries, s, payload, now, outcome, client);
    HeaderRoundTrip(RequestAck, s, None);
    var p := match outcome
      case Replied(resp, _) => ResponsePayload(resp.content, resp.isError)
      case ReplyDropped => ErrorPayload("No response from handler")
      case ReplyTimedOut => ErrorPayload("Response timeout")
      case ForwardFailed => ErrorPayload("Internal server error");
    assert st.sent[1] == ResponseBytes(s, p);
    HeaderRoundTrip(Response, s, Some(ResponseBody(p)));
  }

  /** The main loop's reply reaches the client intact and is cached with the reply's instant. */
  lemma ReplyDeliveredAndCached(entries: ClientTable, s: u32, payload: seq<byte>, now: nat,
                                resp: UserResponse, at: nat, client: SocketAddr)
    requires s !in entries && DecodeRequestPayload(payload).Ok?
    ensures var st := Dispatch(entries, s, payload, now, Replied(resp, at), client);
            |st.sent| == 2 && DecodeResponsePayload(st.sent[1][5..]) == Ok(ResponsePayload(resp.content, resp.isError)) &&
            s in st.table && st.table[s] == DedupEntry(at, Some(st.sent[1]))
  {
    ResponsePacketRoundTrip(s, ResponsePayload(resp.content, resp.isError));
  }

  /** Only a delivered reply is ever cached: error responses (dropped reply, timeout, closed
      channel) and undecodable requests leave the entry pending. */
  lemma OnlyRepliesAreCached(entries: ClientTable, s: u32, payload: seq<byte>, now: nat,
                             outcome: Outcome, client: SocketAddr)
    ensures var st := Dispatch(entries, s, payload, now, outcome, client);
            s in st.table &&
            (st.table[s].cachedResponse.Some? <==>
              (s in entries && entries[s].cachedResponse.Some?) ||
              (s !in entries && DecodeRequestPayload(payload).Ok? && outcome.Replied?))
  {
  }

  /** A request touches its own sequence number's entry and no other. */
  lemma OtherEntriesUntouched(entries: ClientTable, s: u32, payload: seq<byte>, now: nat,
                              outcome: Outcome, client: SocketAddr, k: u32)
    requires k != s
    ensures var t := Dispatch(entries, s, payload, now, outcome, client).table;
            (k in t <==> k in entries) && (k in entries ==> t[k] == entries[k])
  {
  }

  /** Retransmission after a delivered reply is idempotent: the retry gets the same response
      bytes, is not forwarded again, and leaves the table as it was. */
  lemma RetryAfterReplyIsIdempotent(entries: ClientTable, s: u32, payload: seq<byte>, now: nat,
                                   resp: UserResponse, at: nat, client: SocketAddr,
                                   retryPayload: seq<byte>, retryNow: nat, retryOutcome: Outcome)
    requires s !in entries && DecodeRequestPayload(payload).Ok?
    ensures var first := Dispatch(entries, s, payload, now, Replied(resp, at), client);
            var retry := Dispatch(first.table, s, retryPayload, retryNow, retryOutcome, client);
            |first.sent| == 2 && retry == Step(first.table, Ok(()), [first.sent[1]], None)
  {
  }

  /** A request whose payload does not decode still claims its sequence number: until the entry
      expires or is evicted, every retry of that sequence is only ACKed, never decoded again. */
  lemma UndecodableRequestBlocksRetries(entries: ClientTable, s: u32, payload: seq<byte>, now: nat,
                                        outcome: Outcome, client: SocketAddr,
                                        retryPayload: seq<byte>, retryNow: nat, retryOutcome: Outcome)
    requires s !in entries && DecodeRequestPayload(payload).Err?
    ensures var first := Dispatch(entries, s, payload, now, outcome, client);
            var retry := Dispatch(first.table, s, retryPayload, retryNow, retryOutcome, client);
            first.result.Err? && first.result.error.DecodeError? && first.sent == [] &&
            first.table == entries[s := DedupEntry(now, None)] &&
            retry == Step(first.table, Ok(()), [AckBytes(s)], None)
  {
  }

  /** Eviction removes at most one entry, only an oldest one, and nothing below capacity. */
  lemma EvictionRemovesOneOldest(entries: ClientTable, after: ClientTable, capacity: nat)
    requires Evicted(entries, after, capacity)
    ensures after.Keys <= entries.Keys
    ensures forall k :: k in after ==> after[k] == entries[k]
    ensures forall k :: k in entries && k !in after ==> IsOldest(entries, k)
    ensures |entries| < capacity ==> after == entries
    ensures |entries| >= capacity && entries != map[] ==> |after| == |entries| - 1
  {
    if |entries| >= capacity && entries != map[] {
      var k :| IsOldest(entries, k) && after == entries - {k};
      assert after.Keys == entries.Keys - {k};
    }
  }

  /** An entry strictly younger than some other entry always survives eviction. */
  lemma YoungerEntrySurvivesEviction(entries: ClientTable, after: ClientTable, capacity: nat, k: u32, j: u32)
    requires Evicted(entries, after, capacity)
    requires k in entries && j in entries && entries[j].instant < entries[k].instant
    ensures k in after && after[k] == entries[k]
  {
    EvictionRemovesOneOldest(entries, after, capacity);
  }

  /** Because eviction runs before the lookup, a retry of the only-oldest entry of a full table is
      treated as a new request: forwarded again even though its response was cached. */
  lemma RetryOfOldestAtCapacityIsReprocessed(entries: ClientTable, after: ClientTable, capacity: nat,
                                             s: u32, payload: seq<byte>, now: nat, outcome: Outcome,
                                             client: SocketAddr)
    requires Evicted(entries, after, capacity)
    requires |entries| >= capacity && s in entries
    requires forall j :: j in entries && j != s ==> entries[s].instant < entries[j].instant
    requires DecodeRequestPayload(payload).Ok? && !outcome.ForwardFailed?
    ensures s !in after
    ensures Dispatch(after, s, payload, now, outcome, client).forwarded.Some?
  {
    var k :| IsOldest(entries, k) && after == entries - {k};
    assert k == s;
  }

  /** Cleanup forgets exactly the entries at least `ttl` old and keeps the others intact. */
  lemma CleanupForgetsExactlyExpired(d: map<SocketAddr, ClientTable>, now: nat, ttl: nat, a: SocketAddr, s: u32)
    requires a in d && s in d[a]
    ensures var c := Cleaned(d, now, ttl);
            (a in c && s in c[a]) <==> Age(now, d[a][s].instant) < ttl
    ensures var c := Cleaned(d, now, ttl);
            a in c && s in c[a] ==> c[a][s] == d[a][s]
  {
    var r := Retain(d[a], now, ttl);
    if Age(now, d[a][s].instant) < ttl {
      assert s in r;
    }
  }

  /** A request retried after its entry expired is new again: decoded and forwarded afresh. */
  lemma RetryAfterExpiryIsNew(d: map<SocketAddr, ClientTable>, now: nat, ttl: nat, client: SocketAddr,
                              s: u32, payload: seq<byte>, retryNow: nat, outcome: Outcome)
    requires client in d && s in d[client] && Age(now, d[client][s].instant) >= ttl
    requires DecodeRequestPayload(payload).Ok? && !outcome.ForwardFailed?
    ensures var c := Cleaned(d, now, ttl);
            var entries := if client in c then c[client] else map[];
            s !in entries && Dispatch(entries, s, payload, retryNow, outcome, client).forwarded.Some?
  {
    CleanupForgetsExactlyExpired(d, now, ttl, client, s);
  }
}
