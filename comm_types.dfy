/** Protocol message kinds and the payload records exchanged with clients and with the main loop
    (src/comm/types.rs). */
module CommTypes {
  import opened Wrappers
  import opened Bytes

  /** The three packet kinds; the discriminant is the byte on the wire. */
  datatype MsgType = Request | RequestAck | Response

  /** `msg_type as u8` (the `#[repr(u8)]` discriminants 0x01, 0x02, 0x03). */
  function ToU8(t: MsgType): (b: byte)
    ensures 1 <= b <= 3
  {
    match t
    case Request => 0x01
    case RequestAck => 0x02
    case Response => 0x03
  }

  /** `MsgType::from_u8`: the three known discriminants and nothing else. */
  function FromU8(v: byte): (r: Option<MsgType>)
    ensures r.Some? <==> 1 <= v <= 3
    ensures r.Some? ==> ToU8(r.value) == v
  {
    match v
    case 0x01 => Some(Request)
    case 0x02 => Some(RequestAck)
    case 0x03 => Some(Response)
    case _ => None
  }

  /** Every kind survives the trip through its byte. */
  lemma FromU8OfToU8(t: MsgType)
    ensures FromU8(ToU8(t)) == Some(t)
  {
  }

  /** The byte is a faithful tag: distinct kinds have distinct discriminants. */
  lemma ToU8Injective(s: MsgType, t: MsgType)
    requires ToU8(s) == ToU8(t)
    ensures s == t
  {
  }

  /** `RequestPayload`: the user's input text. */
  datatype RequestPayload = RequestPayload(content: string)

  /** `ResponsePayload`: the reply text and whether it reports an error. */
  datatype ResponsePayload = ResponsePayload(content: string, isError: bool)

  /** `UserResponse`: what the main loop hands back to the server for one request. */
  datatype UserResponse = UserResponse(content: string, isError: bool)

  /** `UserResponse::new`: a successful reply. */
  function NewResponse(content: string): (r: UserResponse)
    ensures r.content == content && !r.isError
  {
    UserResponse(content, false)
  }

  /** `UserResponse::error`: an error reply. */
  function ErrorResponse(content: string): (r: UserResponse)
    ensures r.content == content && r.isError
  {
    UserResponse(content, true)
  }
}
