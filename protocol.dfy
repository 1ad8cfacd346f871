/** Packet layout (src/comm/protocol.rs): one kind byte, the sequence number as four big-endian
    bytes, then the payload body when there is one. */
module Protocol {
  import opened Wrappers
  import opened Bytes
  import opened CommTypes
  import Text
  import PayloadCodec

  const HEADER_LEN: nat := 5

  /** `CommError`: the runtime errors of the comm layer. */
  datatype CommError =
    | RecvError(msg: string)
    | SendError(msg: string)
    | DecodeError(msg: string)
    | EncodeError(msg: string)
    | PayloadTooLarge(size: nat)
    | ChannelClosed

  /** The serialisable payloads `encode_packet` is used with. */
  datatype Body = RequestBody(request: RequestPayload) | ResponseBody(response: ResponsePayload)

  function EncodeBody(b: Body): seq<byte>
  {
    match b
    case RequestBody(p) => PayloadCodec.EncodeRequest(p)
    case ResponseBody(p) => PayloadCodec.EncodeResponse(p)
  }

  /** The bytes of a packet: kind at index 0, big-endian sequence at 1..4, body from 5 on. */
  function Packet(t: MsgType, s: u32, payload: Option<Body>): (bs: seq<byte>)
    ensures |bs| >= HEADER_LEN && bs[0] == ToU8(t) && bs[1..5] == BigEndian(s)
    ensures payload.None? ==> |bs| == HEADER_LEN
    ensures payload.Some? ==> bs[5..] == EncodeBody(payload.value)
  {
    [ToU8(t)] + BigEndian(s) + (if payload.Some? then EncodeBody(payload.value) else [])
  }

  /** `encode_packet`: pushes the kind, extends with the sequence bytes, then appends the
      serialised payload if one is given. */
  method EncodePacket(t: MsgType, s: u32, payload: Option<Body>) returns (buf: seq<byte>)
    ensures buf == Packet(t, s, payload)
  {
    buf := [];
    buf := buf + [ToU8(t)];
    buf := buf + BigEndian(s);
    if payload.Some? {
      buf := buf + EncodeBody(payload.value);
    }
  }

  /** `decode_header`: the kind and sequence of a packet, or why it cannot be read. */
  function DecodeHeader(data: seq<byte>): (r: Result<(MsgType, u32), CommError>)
    ensures |data| < HEADER_LEN ==> r == Err(DecodeError("Packet too short"))
    ensures |data| >= HEADER_LEN && FromU8(data[0]).None? ==> r.Err? && r.error.DecodeError?
    ensures r.Ok? <==> |data| >= HEADER_LEN && 1 <= data[0] <= 3
    ensures r.Ok? ==> ToU8(r.value.0) == data[0] && BigEndian(r.value.1) == data[1..5]
  {
    if |data| < HEADER_LEN then Err(DecodeError("Packet too short"))
    else
      match FromU8(data[0])
      case None => Err(DecodeError("Unknown msg type: " + Text.NatToString(data[0])))
      case Some(t) =>
        var s := FromBigEndian(data[1], data[2], data[3], data[4]);
        BigEndianOfValue(data[1], data[2], data[3], data[4]);
        Ok((t, s))
  }

  /** `decode_request_payload`: the body of a request packet (bytes from index 5 on). */
  function DecodeRequestPayload(data: seq<byte>): (r: Result<RequestPayload, CommError>)
    ensures r.Err? ==> r.error.DecodeError?
    ensures forall p :: data == PayloadCodec.EncodeRequest(p) ==> r == Ok(p)
  {
    PayloadCodec.RequestRoundTripAll();
    match PayloadCodec.DecodeRequest(data)
    case Ok(p) => Ok(p)
    case Err(e) => Err(DecodeError(e))
  }

  /** `decode_response_payload`: the body of a response packet. */
  function DecodeResponsePayload(data: seq<byte>): (r: Result<ResponsePayload, CommError>)
    ensures r.Err? ==> r.error.DecodeError?
    ensures forall p :: data == PayloadCodec.EncodeResponse(p) ==> r == Ok(p)
  {
    PayloadCodec.ResponseRoundTripAll();
    match PayloadCodec.DecodeResponse(data)
    case Ok(p) => Ok(p)
    case Err(e) => Err(DecodeError(e))
  }

  /** The ACK for sequence `s` as a value: a bare header. */
  function AckBytes(s: u32): (bs: seq<byte>)
    ensures |bs| == HEADER_LEN
  {
    Packet(RequestAck, s, None)
  }

  /** A response packet for sequence `s` carrying `p`. */
  function ResponseBytes(s: u32, p: ResponsePayload): seq<byte>
  {
    Packet(Response, s, Some(ResponseBody(p)))
  }

  /** `encode_request_ack`: exactly five bytes, kind 0x02, the sequence big-endian. */
  method EncodeRequestAck(s: u32) returns (buf: seq<byte>)
    ensures buf == AckBytes(s)
    ensures |buf| == 5 && buf[0] == 0x02 && buf[1..] == BigEndian(s)
  {
    buf := EncodePacket(RequestAck, s, None);
  }

  /** `encode_response`: a response packet whose body decodes back to `p`. */
  method EncodeResponse(s: u32, p: ResponsePayload) returns (buf: seq<byte>)
    ensures buf == ResponseBytes(s, p)
    ensures buf[0] == 0x03 && DecodeResponsePayload(buf[5..]) == Ok(p)
  {
    buf := EncodePacket(Response, s, Some(ResponseBody(p)));
  }

  /** Header round trip: every kind and every sequence number, 0 and 0xFFFF_FFFF included, with or
      without payload. */
  lemma HeaderRoundTrip(t: MsgType, s: u32, payload: Option<Body>)
    ensures DecodeHeader(Packet(t, s, payload)) == Ok((t, s))
  {
    var bs := Packet(t, s, payload);
    assert bs[1..5] == BigEndian(s);
    BigEndianRoundTrip(s);
  }

  /** Bytes after index 4 never affect the decoded header. */
  lemma {:induction false} HeaderIgnoresPayload(data: seq<byte>, tail: seq<byte>)
    requires |data| >= HEADER_LEN
    ensures DecodeHeader(data + tail) == DecodeHeader(data)
  {
    assert (data + tail)[..5] == data[..5];
    assert (data + tail)[0] == data[0] && (data + tail)[1] == data[1] && (data + tail)[2] == data[2];
    assert (data + tail)[3] == data[3] && (data + tail)[4] == data[4];
  }

  /** Exactly five bytes with a known kind always decode. */
  lemma BareHeaderDecodes(data: seq<byte>)
    requires |data| == HEADER_LEN && 1 <= data[0] <= 3
    ensures DecodeHeader(data).Ok?
  {
  }

  /** Payloads round-trip inside whole packets: the body after the header decodes to the record. */
  lemma RequestPacketRoundTrip(s: u32, p: RequestPayload)
    ensures DecodeRequestPayload(Packet(Request, s, Some(RequestBody(p)))[5..]) == Ok(p)
  {
  }

  lemma ResponsePacketRoundTrip(s: u32, p: ResponsePayload)
    ensures DecodeResponsePayload(Packet(Response, s, Some(ResponseBody(p)))[5..]) == Ok(p)
  {
  }

  /** The big-endian layout on a concrete value: 256 is written as 00 00 01 00. */
  lemma Seq256Layout()
    ensures AckBytes(256)[1..] == [0x00, 0x00, 0x01, 0x00]
  {
  }
}
