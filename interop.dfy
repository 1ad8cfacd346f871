/** The CLI and the server speak the same wire format: what one writes the other reads back. */
module Interop {
  import opened Wrappers
  import opened Bytes
  import opened CommTypes
  import opened Protocol
  import Cli
  import PayloadCodec

  /** The CLI builds its request packet by hand; it is exactly the server's request layout. */
  lemma CliRequestIsServerRequest(s: u32, content: string)
    ensures Cli.RequestPacket(s, content) == Packet(Request, s, Some(RequestBody(RequestPayload(content))))
  {
  }

  /** The server reads back from a CLI packet the kind, the sequence number and the content. */
  lemma ServerDecodesCliRequest(s: u32, content: string)
    ensures var bs := Cli.RequestPacket(s, content);
            DecodeHeader(bs) == Ok((Request, s)) && DecodeRequestPayload(bs[5..]) == Ok(RequestPayload(content))
  {
    CliRequestIsServerRequest(s, content);
    HeaderRoundTrip(Request, s, Some(RequestBody(RequestPayload(content))));
    RequestPacketRoundTrip(s, RequestPayload(content));
  }

  /** The server's ACK for `s`, from the target, is the one `wait_for_ack` accepts for `s`. */
  lemma CliAcceptsServerAck(s: u32, target: Cli.Address)
    ensures Cli.AckResult(Cli.Received(target, AckBytes(s)), target, s) == Ok(true)
  {
  }

  /** An ACK for another sequence number is not taken for this request's. */
  lemma CliRejectsOtherAck(s: u32, other: u32, target: Cli.Address)
    requires other != s
    ensures Cli.AckResult(Cli.Received(target, AckBytes(other)), target, s) == Ok(false)
  {
    if Cli.AckResult(Cli.Received(target, AckBytes(other)), target, s) == Ok(true) {
      BigEndianInjective(other, s);
    }
  }

  /** A server response that fits the CLI's 65536-byte buffer is read back intact; a response
      for another sequence number is refused as a mismatch. */
  lemma CliDecodesServerResponse(s: u32, p: ResponsePayload, target: Cli.Address)
    requires |ResponseBytes(s, p)| <= Cli.RESPONSE_BUFFER_LEN
    ensures Cli.ResponseResult(Cli.Received(target, ResponseBytes(s, p)), target, s) == Ok(p)
  {
    var bs := ResponseBytes(s, p);
    assert bs[5..] == PayloadCodec.EncodeResponse(p);
    PayloadCodec.ResponseRoundTrip(p);
    BigEndianRoundTrip(s);
  }

  lemma CliRejectsOtherResponse(s: u32, other: u32, p: ResponsePayload, target: Cli.Address)
    requires other != s
    ensures Cli.ResponseResult(Cli.Received(target, ResponseBytes(other, p)), target, s)
            == Err(Cli.IoError(Cli.InvalidData, "Sequence mismatch"))
  {
    var bs := ResponseBytes(other, p);
    var data := Truncate(bs, Cli.RESPONSE_BUFFER_LEN);
    assert data[..5] == bs[..5];
    BigEndianRoundTrip(other);
  }
}
