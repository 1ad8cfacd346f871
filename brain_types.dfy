/** The Messages API data types (src/brain/types.rs). `f32` sampling parameters are carried as
    their bit patterns and never interpreted. */
module BrainTypes {
  import opened Wrappers
  import opened Json

  /** An `f32`, kept opaque. */
  datatype F32 = F32(bits: nat)

  /** `Role`; `User` is the default. */
  datatype Role = User | Assistant

  function DefaultRole(): (r: Role)
    ensures r == User
  {
    User
  }

  /** `ContentBlock`. */
  datatype ContentBlock =
    | Text(text: string)
    | ToolUse(id: string, name: string, input: Json)
    | ToolResult(toolUseId: string, content: string, isError: Option<bool>)
    | CacheControl(ttl: Option<string>)
    | Thinking(thinking: string)
    | RedactedThinking
    | OtherBlock

  datatype Message = Message(role: Role, content: seq<ContentBlock>)

  /** `Message::user_text`. */
  function UserText(content: string): (m: Message)
    ensures m.role == User && m.content == [Text(content)]
  {
    Message(User, [Text(content)])
  }

  /** `Message::assistant_text`. */
  function AssistantText(content: string): (m: Message)
    ensures m.role == Assistant && m.content == [Text(content)]
  {
    Message(Assistant, [Text(content)])
  }

  /** `StopReason`. */
  datatype StopReason = EndTurn | ToolUseStop | MaxTokens | StopSequence

  /** `StopReason::as_str`, which is also its serialised name. */
  function AsStr(r: StopReason): string
  {
    match r
    case EndTurn => "end_turn"
    case ToolUseStop => "tool_use"
    case MaxTokens => "max_tokens"
    case StopSequence => "stop_sequence"
  }

  /** The serialised name read back (`rename_all = "snake_case"`). */
  function StopReasonFromStr(s: string): (r: Option<StopReason>)
    ensures r.Some? ==> AsStr(r.value) == s
  {
    if s == "end_turn" then Some(EndTurn)
    else if s == "tool_use" then Some(ToolUseStop)
    else if s == "max_tokens" then Some(MaxTokens)
    else if s == "stop_sequence" then Some(StopSequence)
    else None
  }

  /** The four names are distinct: each reads back as the reason it names. */
  lemma StopReasonRoundTrip(r: StopReason)
    ensures StopReasonFromStr(AsStr(r)) == Some(r)
  {
    match r {
      case EndTurn =>
      case ToolUseStop => assert AsStr(r)[0] != "end_turn"[0];
      case MaxTokens => assert AsStr(r)[0] != "end_turn"[0] && AsStr(r)[0] != "tool_use"[0];
      case StopSequence =>
        assert AsStr(r)[0] != "end_turn"[0] && AsStr(r)[0] != "tool_use"[0] && AsStr(r)[0] != "max_tokens"[0];
    }
  }

  lemma AsStrInjective(a: StopReason, b: StopReason)
    requires AsStr(a) == AsStr(b)
    ensures a == b
  {
    StopReasonRoundTrip(a);
    StopReasonRoundTrip(b);
  }

  datatype Usage = Usage(inputTokens: nat, outputTokens: nat, cacheCreationInputTokens: Option<nat>,
                         cacheReadInputTokens: Option<nat>)

  datatype ToolDefinition = ToolDefinition(name: string, description: string, inputSchema: Json)

  /** `MessageRequest`. */
  datatype MessageRequest = MessageRequest(
    model: string,
    system: Option<string>,
    messages: seq<Message>,
    tools: Option<seq<ToolDefinition>>,
    maxTokens: nat,
    temperature: Option<F32>,
    topP: Option<F32>,
    topK: Option<nat>,
    stopSequences: Option<seq<string>>,
    stream: Option<bool>,
    metadata: Option<Json>)

  /** `MessageResponse` (the flattened extra fields are not modelled). */
  datatype MessageResponse = MessageResponse(
    id: string,
    content: seq<ContentBlock>,
    model: string,
    role: Role,
    stopReason: Option<StopReason>,
    stopSequence: Option<string>,
    usage: Option<Usage>)
}
