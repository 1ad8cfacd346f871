/** The payload body codec. The source serialises `RequestPayload` and `ResponsePayload` with a
    MessagePack library; this model replaces that library with a small self-delimiting stand-in
    that has the properties the protocol relies on: encoding never fails, decoding what was encoded
    gives the record back exactly (for every string, including empty, long, multi-byte and control
    characters), and decoding a malformed body is an error. The stand-in's bytes are not
    MessagePack's bytes.

    Layout of the stand-in: one tag byte (0x91 for a request, 0x92 for a response), for a
    response one flag byte (0xc2 false, 0xc3 true), then three bytes per character holding the
    character's code point, most significant first. */
module PayloadCodec {
  import opened Wrappers
  import opened Bytes
  import opened CommTypes

  const REQUEST_TAG: byte := 0x91
  const RESPONSE_TAG: byte := 0x92
  const FALSE_BYTE: byte := 0xc2
  const TRUE_BYTE: byte := 0xc3

  predicate IsScalar(v: int)
  {
    (0 <= v < 0xD800) || (0xE000 <= v < 0x11_0000)
  }

  function CharBytes(c: char): (bs: seq<byte>)
    ensures |bs| == 3
  {
    var v := c as int;
    [v / 0x1_0000, (v / 0x100) % 0x100, v % 0x100]
  }

  function EncodeChars(s: string): (bs: seq<byte>)
    ensures |bs| == 3 * |s|
  {
    if s == [] then [] else CharBytes(s[0]) + EncodeChars(s[1..])
  }

  function DecodeChars(bs: seq<byte>): (r: Option<string>)
    decreases |bs|
  {
    if bs == [] then Some([])
    else if |bs| < 3 then None
    else
      var v := (bs[0] as int * 0x100 + bs[1]) * 0x100 + bs[2];
      if !IsScalar(v) then None
      else
        match DecodeChars(bs[3..])
        case None => None
        case Some(rest) => Some([v as char] + rest)
  }

  lemma CharBytesValue(c: char)
    ensures var bs := CharBytes(c); (bs[0] as int * 0x100 + bs[1]) * 0x100 + bs[2] == c as int
  {
    var v := c as int;
    assert v == (v / 0x100) * 0x100 + v % 0x100;
    assert v / 0x100 == (v / 0x1_0000) * 0x100 + (v / 0x100) % 0x100;
  }

  /** Characters survive encoding: every string decodes back to itself. */
  lemma {:induction false} CharsRoundTrip(s: string)
    ensures DecodeChars(EncodeChars(s)) == Some(s)
  {
    if s != [] {
      var bs := EncodeChars(s);
      CharBytesValue(s[0]);
      assert bs[..3] == CharBytes(s[0]);
      assert bs[3..] == EncodeChars(s[1..]);
      CharsRoundTrip(s[1..]);
      assert [s[0]] + s[1..] == s;
    }
  }

  function EncodeRequest(p: RequestPayload): (bs: seq<byte>)
    ensures |bs| == 1 + 3 * |p.content|
  {
    [REQUEST_TAG] + EncodeChars(p.content)
  }

  function EncodeResponse(p: ResponsePayload): (bs: seq<byte>)
    ensures |bs| == 2 + 3 * |p.content|
  {
    [RESPONSE_TAG, if p.isError then TRUE_BYTE else FALSE_BYTE] + EncodeChars(p.content)
  }

  /** Decoding a request body; the error text stands for the library's message. */
  function DecodeRequest(bs: seq<byte>): (r: Result<RequestPayload, string>)
    ensures bs == [] ==> r.Err?
  {
    if bs == [] || bs[0] != REQUEST_TAG then Err("invalid request payload")
    else
      match DecodeChars(bs[1..])
      case None => Err("invalid request payload")
      case Some(s) => Ok(RequestPayload(s))
  }

  function DecodeResponse(bs: seq<byte>): (r: Result<ResponsePayload, string>)
    ensures |bs| < 2 ==> r.Err?
  {
    if |bs| < 2 || bs[0] != RESPONSE_TAG || (bs[1] != FALSE_BYTE && bs[1] != TRUE_BYTE) then
      Err("invalid response payload")
    else
      match DecodeChars(bs[2..])
      case None => Err("invalid response payload")
      case Some(s) => Ok(ResponsePayload(s, bs[1] == TRUE_BYTE))
  }

  /** A request record decodes to exactly what was encoded. */
  lemma RequestRoundTrip(p: RequestPayload)
    ensures DecodeRequest(EncodeRequest(p)) == Ok(p)
  {
    assert EncodeRequest(p)[1..] == EncodeChars(p.content);
    CharsRoundTrip(p.content);
  }

  /** A response record decodes to exactly what was encoded, content and error flag alike. */
  lemma ResponseRoundTrip(p: ResponsePayload)
    ensures DecodeResponse(EncodeResponse(p)) == Ok(p)
  {
    assert EncodeResponse(p)[2..] == EncodeChars(p.content);
    CharsRoundTrip(p.content);
  }

  /** A request body is never mistaken for a response body, nor the reverse. */
  lemma BodiesAreDistinguished(p: RequestPayload, q: ResponsePayload)
    ensures DecodeResponse(EncodeRequest(p)).Err?
    ensures DecodeRequest(EncodeResponse(q)).Err?
  {
  }

  lemma RequestRoundTripAll()
    ensures forall p :: DecodeRequest(EncodeRequest(p)) == Ok(p)
  {
    forall p { RequestRoundTrip(p); }
  }

  lemma ResponseRoundTripAll()
    ensures forall p :: DecodeResponse(EncodeResponse(p)) == Ok(p)
  {
    forall p { ResponseRoundTrip(p); }
  }
}
