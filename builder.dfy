/** `RequestBuilder` (src/brain/builder.rs): every method consumes the builder and returns the
    updated one, so the builder is a value and each method a field update. */
module Builder {
  import opened Wrappers
  import opened Json
  import opened BrainTypes

  const DEFAULT_MAX_TOKENS: nat := 4096

  datatype RequestBuilder = RequestBuilder(
    model: string,
    system: Option<string>,
    messages: seq<Message>,
    tools: Option<seq<ToolDefinition>>,
    maxTokens: nat,
    temperature: Option<F32>,
    topP: Option<F32>,
    topK: Option<nat>,
    stopSequences: Option<seq<string>>,
    stream: Option<bool>,
    metadata: Option<Json>)
  {
    /** Appends one message and changes nothing else. */
    function Push(m: Message): (b: RequestBuilder)
      ensures b.messages == messages + [m] && b == this.(messages := b.messages)
    {
      this.(messages := messages + [m])
    }

    function WithSystem(s: string): (b: RequestBuilder)
      ensures b == this.(system := Some(s))
    {
      this.(system := Some(s))
    }

    function UserText(content: string): (b: RequestBuilder)
      ensures b.messages == messages + [Message(User, [Text(content)])] && b == this.(messages := b.messages)
    {
      Push(BrainTypes.UserText(content))
    }

    function UserContent(content: seq<ContentBlock>): (b: RequestBuilder)
      ensures b.messages == messages + [Message(User, content)] && b == this.(messages := b.messages)
    {
      Push(Message(User, content))
    }

    function AssistantText(content: string): (b: RequestBuilder)
      ensures b.messages == messages + [Message(Assistant, [Text(content)])] && b == this.(messages := b.messages)
    {
      Push(BrainTypes.AssistantText(content))
    }

    function AssistantContent(content: seq<ContentBlock>): (b: RequestBuilder)
      ensures b.messages == messages + [Message(Assistant, content)] && b == this.(messages := b.messages)
    {
      Push(Message(Assistant, content))
    }

    function UserToolResult(toolUseId: string, content: string, isError: Option<bool>): (b: RequestBuilder)
      ensures b.messages == messages + [Message(User, [ToolResult(toolUseId, content, isError)])]
      ensures b == this.(messages := b.messages)
    {
      Push(Message(User, [ToolResult(toolUseId, content, isError)]))
    }

    /** `tools`: replaces the whole list. */
    function WithTools(ts: seq<ToolDefinition>): (b: RequestBuilder)
      ensures b == this.(tools := Some(ts))
    {
      this.(tools := Some(ts))
    }

    /** `tool`: appends to the list, creating it when there is none. */
    function WithTool(t: ToolDefinition): (b: RequestBuilder)
      ensures b.tools.Some? && b == this.(tools := b.tools)
      ensures b.tools.value == (if tools.Some? then tools.value else []) + [t]
    {
      match tools
      case Some(ts) => this.(tools := Some(ts + [t]))
      case None => this.(tools := Some([t]))
    }

    function WithMaxTokens(n: nat): (b: RequestBuilder)
      ensures b == this.(maxTokens := n)
    {
      this.(maxTokens := n)
    }

    function WithTemperature(t: F32): (b: RequestBuilder)
      ensures b == this.(temperature := Some(t))
    {
      this.(temperature := Some(t))
    }

    function WithTopP(p: F32): (b: RequestBuilder)
      ensures b == this.(topP := Some(p))
    {
      this.(topP := Some(p))
    }

    function WithTopK(k: nat): (b: RequestBuilder)
      ensures b == this.(topK := Some(k))
    {
      this.(topK := Some(k))
    }

    function WithStopSequences(ss: seq<string>): (b: RequestBuilder)
      ensures b == this.(stopSequences := Some(ss))
    {
      this.(stopSequences := Some(ss))
    }

    function WithStream(s: bool): (b: RequestBuilder)
      ensures b == this.(stream := Some(s))
    {
      this.(stream := Some(s))
    }

    function WithMetadata(m: Json): (b: RequestBuilder)
      ensures b == this.(metadata := Some(m))
    {
      this.(metadata := Some(m))
    }

    /** The request a successful `build` produces: every field as the builder holds it. */
    function Request(): MessageRequest
    {
      MessageRequest(model, system, messages, tools, maxTokens, temperature, topP, topK,
                     stopSequences, stream, metadata)
    }

    /** `build`: refuses an empty conversation and one that does not open with the user. */
    function Build(): (r: Result<MessageRequest, string>)
      ensures messages == [] ==> r == Err("messages cannot be empty")
      ensures messages != [] && messages[0].role != User ==> r == Err("first message must have user role")
      ensures r.Ok? <==> messages != [] && messages[0].role == User
      ensures r.Ok? ==> r.value == Request()
    {
      if messages == [] then Err("messages cannot be empty")
      else if messages[0].role != User then Err("first message must have user role")
      else Ok(Request())
    }
  }

  /** `RequestBuilder::new`. */
  function New(model: string): (b: RequestBuilder)
    ensures b.model == model && b.messages == [] && b.maxTokens == DEFAULT_MAX_TOKENS
    ensures b.system.None? && b.tools.None? && b.temperature.None? && b.topP.None? && b.topK.None?
    ensures b.stopSequences.None? && b.stream.None? && b.metadata.None?
  {
    RequestBuilder(model, None, [], None, DEFAULT_MAX_TOKENS, None, None, None, None, None, None)
  }

  /** A fresh builder cannot be built, whatever its settings. */
  lemma FreshBuilderRefused(model: string)
    ensures New(model).Build() == Err("messages cannot be empty")
  {
  }

  /** Once a builder is buildable, appending any further message keeps it buildable and the
      request grows by exactly that message. */
  lemma AppendKeepsBuildable(b: RequestBuilder, m: Message)
    requires b.Build().Ok?
    ensures b.Push(m).Build().Ok?
    ensures b.Push(m).Build().value.messages == b.Build().value.messages + [m]
  {
  }

  /** Whether a builder can be built depends on its first message alone: starting with a user
      message is accepted and starting with an assistant message is refused, whatever follows. */
  lemma FirstMessageDecides(model: string, first: Message, rest: seq<Message>)
    ensures var b := New(model).(messages := [first] + rest);
            b.Build().Ok? <==> first.role == User
  {
  }

  /** Setters never affect whether a builder can be built and reach the request unchanged. */
  lemma SettersPassThrough(b: RequestBuilder, s: string, t: F32, p: F32, k: nat, n: nat)
    ensures var c := b.WithSystem(s).WithTemperature(t).WithTopP(p).WithTopK(k).WithMaxTokens(n);
            c.Build().Ok? == b.Build().Ok? &&
            (c.Build().Ok? ==> c.Build().value == b.Build().value.(system := Some(s), temperature := Some(t),
                                                                  topP := Some(p), topK := Some(k), maxTokens := n))
  {
  }

  /** Adding tools one by one gives the list `tools` would have set at once. */
  lemma {:induction false} ToolsOneByOne(b: RequestBuilder, ts: seq<ToolDefinition>)
    requires b.tools.None? && ts != []
    ensures AddAll(b, ts) == b.WithTools(ts)
  {
    if |ts| > 1 {
      ToolsOneByOne(b, ts[..|ts| - 1]);
      assert ts[..|ts| - 1] + [ts[|ts| - 1]] == ts;
    } else {
      assert ts[..0] == [] && ts == [ts[0]];
      assert AddAll(b, ts) == AddAll(b, []).WithTool(ts[0]);
    }
  }

  function AddAll(b: RequestBuilder, ts: seq<ToolDefinition>): RequestBuilder
  {
    if ts == [] then b else AddAll(b, ts[..|ts| - 1]).WithTool(ts[|ts| - 1])
  }
}
