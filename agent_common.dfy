/** What the three agent loops (src/agent/inference.rs, src/agent/mod.rs, src/agent/loop_.rs)
    share, defined once: reading text and tool calls out of a response, turning executor results
    into `ToolResult` messages and journal records, building a request from the conversation, and
    the `handle` tool loop that mod.rs and loop_.rs both implement. The brain and the executor
    are oracles: `brain(k, request)` is the reply to the `k`-th inference, `exec(k, name, input)`
    the result of the `k`-th tool execution, counted from 0; errors are carried as their text. */
module AgentCommon {
  import opened Wrappers
  import opened Json
  import opened BrainTypes
  import Builder
  import opened ToolExecutor
  import Journal = Memory

  /** `ToolCall`: a tool-use block's id, tool name and input. */
  datatype ToolCall = ToolCall(id: string, name: string, input: Json)

  /** What the loops read from the brain besides replies. */
  datatype BrainSettings = BrainSettings(model: string, maxOutputTokens: nat, temperature: Option<F32>,
                                         topP: Option<F32>, topK: Option<nat>)

  type BrainOracle = (nat, MessageRequest) -> Result<MessageResponse, string>
  type ExecOracle = (nat, string, Json) -> Result<ToolOutput, string>

  /** `extract_text`: the `Text` blocks' text, in order, joined with nothing between. */
  function ExtractText(content: seq<ContentBlock>): (r: string)
    ensures (forall i :: 0 <= i < |content| ==> !content[i].Text?) ==> r == []
  {
    if content == [] then []
    else (if content[0].Text? then content[0].text else []) + ExtractText(content[1..])
  }

  /** `extract_tool_calls`: the `ToolUse` blocks, in order, with their id, name and input. */
  function ExtractToolCalls(content: seq<ContentBlock>): (r: seq<ToolCall>)
    ensures |r| <= |content|
    ensures r == [] <==> forall i :: 0 <= i < |content| ==> !content[i].ToolUse?
  {
    if content == [] then []
    else
      var rest := ExtractToolCalls(content[1..]);
      assert forall i :: 1 <= i < |content| ==> content[i] == content[1..][i - 1];
      match content[0]
      case ToolUse(id, name, input) => [ToolCall(id, name, input)] + rest
      case _ => rest
  }

  /** Extraction works block by block: the text of two runs of blocks is the text of each. */
  lemma {:induction false} ExtractTextAppend(a: seq<ContentBlock>, b: seq<ContentBlock>)
    ensures ExtractText(a + b) == ExtractText(a) + ExtractText(b)
  {
    if a != [] {
      assert (a + b)[1..] == a[1..] + b;
      assert (a + b)[0] == a[0];
      ExtractTextAppend(a[1..], b);
      var h := if a[0].Text? then a[0].text else [];
      assert ExtractText(a + b) == h + ExtractText(a[1..] + b);
      assert ExtractText(a) == h + ExtractText(a[1..]);
      assert h + (ExtractText(a[1..]) + ExtractText(b)) == (h + ExtractText(a[1..])) + ExtractText(b);
    } else {
      assert a + b == b;
    }
  }

  lemma {:induction false} ExtractToolCallsAppend(a: seq<ContentBlock>, b: seq<ContentBlock>)
    ensures ExtractToolCalls(a + b) == ExtractToolCalls(a) + ExtractToolCalls(b)
  {
    if a != [] {
      assert (a + b)[1..] == a[1..] + b;
      assert (a + b)[0] == a[0];
      ExtractToolCallsAppend(a[1..], b);
      var h := if a[0].ToolUse? then [ToolCall(a[0].id, a[0].name, a[0].input)] else [];
      assert ExtractToolCalls(a + b) == h + ExtractToolCalls(a[1..] + b);
      assert ExtractToolCalls(a) == h + ExtractToolCalls(a[1..]);
    } else {
      assert a + b == b;
    }
  }

  /** Each tool call comes from a `ToolUse` block, and the blocks' order is kept. */
  lemma {:induction false} ToolCallsComeFromBlocks(content: seq<ContentBlock>, i: nat)
    requires i < |ExtractToolCalls(content)|
    ensures var c := ExtractToolCalls(content)[i];
            exists j :: 0 <= j < |content| && content[j] == ToolUse(c.id, c.name, c.input)
  {
    var c := ExtractToolCalls(content)[i];
    if content[0].ToolUse? && i == 0 {
      assert content[0] == ToolUse(c.id, c.name, c.input);
    } else {
      var i' := if content[0].ToolUse? then i - 1 else i;
      ToolCallsComeFromBlocks(content[1..], i');
      var j :| 0 <= j < |content[1..]| && content[1..][j] == ToolUse(c.id, c.name, c.input);
      assert content[j + 1] == content[1..][j];
    }
  }

  /** Two text blocks around a tool-use block read as "Hello World!", and the tool-use block as
      the one call. */
  lemma ExtractionExample(input: Json)
    ensures ExtractText([Text("Hello "), Text("World!"), ToolUse("call-1", "tool", input)]) == "Hello World!"
    ensures ExtractToolCalls([Text("I'll use a tool"), ToolUse("call-123", "bash", input)])
            == [ToolCall("call-123", "bash", input)]
  {
    var c := [Text("Hello "), Text("World!"), ToolUse("call-1", "tool", input)];
    assert c[1..] == [Text("World!"), ToolUse("call-1", "tool", input)];
    assert c[1..][1..] == [ToolUse("call-1", "tool", input)];
    var d := [Text("I'll use a tool"), ToolUse("call-123", "bash", input)];
    assert d[1..] == [ToolUse("call-123", "bash", input)];
  }

  /** The `ToolResult` text and flag for an execution result: a failed run's output and an
      executor error are marked with "Error: " and flagged, a clean run's output is passed as is. */
  function ResultText(result: Result<ToolOutput, string>): (r: (string, bool))
    ensures result.Err? ==> r == ("Error: " + result.error, true)
    ensures result.Ok? && result.value.isError ==> r == ("Error: " + result.value.content, true)
    ensures result.Ok? && !result.value.isError ==> r == (result.value.content, false)
  {
    match result
    case Ok(o) => (if o.isError then "Error: " + o.content else o.content, o.isError)
    case Err(e) => ("Error: " + e, true)
  }

  /** The `User` message carrying one call's result. */
  function ToolResultMessage(call: ToolCall, result: Result<ToolOutput, string>): (m: Message)
    ensures m.role == User && |m.content| == 1 && m.content[0].ToolResult?
    ensures m.content[0].toolUseId == call.id && m.content[0].isError.Some?
  {
    Message(User, [ToolResult(call.id, ResultText(result).0, Some(ResultText(result).1))])
  }

  /** The messages a run of calls appends, one per call in call order, the `i`-th call being
      execution number `x + i`. */
  function ToolResults(calls: seq<ToolCall>, exec: ExecOracle, x: nat): (ms: seq<Message>)
    ensures |ms| == |calls|
  {
    seq(|calls|, i requires 0 <= i < |calls| => ToolResultMessage(calls[i], exec(x + i, calls[i].name, calls[i].input)))
  }

  /** The journal record of one call in `handle`: the result text, or "name: error". */
  function ToolRecord(call: ToolCall, result: Result<ToolOutput, string>): (e: Journal.MemoryEntry)
    ensures result.Ok? ==> e == Journal.ToolResult(call.name, ResultText(result).0)
    ensures result.Err? ==> e == Journal.Error(call.name + ": " + result.error)
  {
    match result
    case Ok(_) => Journal.ToolResult(call.name, ResultText(result).0)
    case Err(e) => Journal.Error(call.name + ": " + e)
  }

  function ToolRecords(calls: seq<ToolCall>, exec: ExecOracle, x: nat): (es: seq<Journal.MemoryEntry>)
    ensures |es| == |calls|
  {
    seq(|calls|, i requires 0 <= i < |calls| => ToolRecord(calls[i], exec(x + i, calls[i].name, calls[i].input)))
  }

  /** The request `build_request` yields, stated directly: the conversation as given, the system
      prompt, all tool definitions, the brain's token limit and whichever sampling parameters the
      brain sets; or the builder's refusal. */
  function RequestFor(s: BrainSettings, system: string, messages: seq<Message>, tools: seq<ToolDefinition>)
    : Result<MessageRequest, string>
  {
    if messages == [] then Err("messages cannot be empty")
    else if messages[0].role != User then Err("first message must have user role")
    else Ok(MessageRequest(s.model, Some(system), messages, Some(tools), s.maxOutputTokens,
                           s.temperature, s.topP, s.topK, None, None, None))
  }

  /** `build_request`: a builder with the model, system prompt and token limit, every message
      re-added with its own role, the tools, the optional sampling parameters, then `build`. */
  method BuildRequest(s: BrainSettings, system: string, messages: seq<Message>, tools: seq<ToolDefinition>)
    returns (r: Result<MessageRequest, string>)
    ensures r == RequestFor(s, system, messages, tools)
  {
    var b := Builder.New(s.model).WithSystem(system).WithMaxTokens(s.maxOutputTokens);
    ghost var base := b;
    var i := 0;
    while i < |messages|
      invariant i <= |messages|
      invariant b == base.(messages := messages[..i])
      decreases |messages| - i
    {
      var msg := messages[i];
      match msg.role {
        case User => b := b.UserContent(msg.content);
        case Assistant => b := b.AssistantContent(msg.content);
      }
      assert messages[..i + 1] == messages[..i] + [msg];
      i := i + 1;
    }
    assert messages[..i] == messages;
    b := b.WithTools(tools);
    if s.temperature.Some? {
      b := b.WithTemperature(s.temperature.value);
    }
    if s.topP.Some? {
      b := b.WithTopP(s.topP.value);
    }
    if s.topK.Some? {
      b := b.WithTopK(s.topK.value);
    }
    r := b.Build();
  }

  /** A conversation that opens with the user always builds, and the request carries it whole. */
  lemma UserFirstBuilds(s: BrainSettings, system: string, messages: seq<Message>, tools: seq<ToolDefinition>)
    requires messages != [] && messages[0].role == User
    ensures RequestFor(s, system, messages, tools).Ok?
    ensures var req := RequestFor(s, system, messages, tools).value;
            req.messages == messages && req.system == Some(system) && req.tools == Some(tools) &&
            (req.temperature.Some? <==> s.temperature.Some?) && (req.topP.Some? <==> s.topP.Some?) &&
            (req.topK.Some? <==> s.topK.Some?)
  {
  }

  /** `execute_tool_calls` of inference.rs: one `ToolResult` message per call, in order. */
  method ExecuteToolCalls(exec: ExecOracle, x: nat, calls: seq<ToolCall>, messages: seq<Message>)
    returns (out: seq<Message>)
    ensures out == messages + ToolResults(calls, exec, x)
  {
    out := messages;
    var i := 0;
    while i < |calls|
      invariant i <= |calls|
      invariant out == messages + ToolResults(calls[..i], exec, x)
    {
      var call := calls[i];
      var result := exec(x + i, call.name, call.input);
      var (text, isError) := ResultText(result);
      out := out + [Message(User, [ToolResult(call.id, text, Some(isError))])];
      assert ToolResults(calls[..i + 1], exec, x) == ToolResults(calls[..i], exec, x) + [ToolResultMessage(call, result)];
      i := i + 1;
    }
    assert calls[..i] == calls;
  }

  /** Adding one more call to a run extends its messages and records by that call's. */
  lemma ToolRunSnoc(calls: seq<ToolCall>, exec: ExecOracle, x: nat, i: nat)
    requires i < |calls|
    ensures var r := exec(x + i, calls[i].name, calls[i].input);
            ToolResults(calls[..i + 1], exec, x) == ToolResults(calls[..i], exec, x) + [ToolResultMessage(calls[i], r)] &&
            ToolRecords(calls[..i + 1], exec, x) == ToolRecords(calls[..i], exec, x) + [ToolRecord(calls[i], r)]
  {
  }

  /** One call's bookkeeping in mod.rs and loop_.rs: its `ToolResult` message, and its journal
      record (`add_tool_result` with the result text, or `add_error` with "name: error"). */
  method RecordCall(memory: Journal.Memory, call: ToolCall, result: Result<ToolOutput, string>)
    returns (m: Message)
    requires memory.Valid()
    modifies memory
    ensures m == ToolResultMessage(call, result) && memory.Valid()
    ensures memory.journal == Journal.KeepLast(old(memory.journal) + [ToolRecord(call, result)], Journal.MAX_JOURNAL_ENTRIES)
    ensures memory.identity == old(memory.identity) && memory.topology == old(memory.topology)
  {
    var (text, isError) := ResultText(result);
    m := Message(User, [ToolResult(call.id, text, Some(isError))]);
    match result {
      case Ok(_) => memory.AddToolResult(call.name, text);
      case Err(e) => memory.AddError(call.name + ": " + e);
    }
  }

  /** The tool loop of mod.rs and loop_.rs, with a memory: each call appends its `ToolResult`
      message and its journal record, in call order. */
  method ExecuteRecorded(memory: Journal.Memory, exec: ExecOracle, x: nat, calls: seq<ToolCall>, messages: seq<Message>)
    returns (out: seq<Message>)
    requires memory.Valid()
    modifies memory
    ensures memory.Valid()
    ensures out == messages + ToolResults(calls, exec, x)
    ensures memory.journal == Journal.KeepLast(old(memory.journal) + ToolRecords(calls, exec, x), Journal.MAX_JOURNAL_ENTRIES)
    ensures memory.identity == old(memory.identity) && memory.topology == old(memory.topology)
  {
    out := messages;
    ghost var j0 := memory.journal;
    var i := 0;
    while i < |calls|
      invariant i <= |calls| && memory.Valid()
      invariant out == messages + ToolResults(calls[..i], exec, x)
      invariant memory.journal == Journal.KeepLast(j0 + ToolRecords(calls[..i], exec, x), Journal.MAX_JOURNAL_ENTRIES)
      invariant memory.identity == old(memory.identity) && memory.topology == old(memory.topology)
    {
      var call := calls[i];
      var result := exec(x + i, call.name, call.input);
      var m := RecordCall(memory, call, result);
      out := out + [m];
      ToolRunSnoc(calls, exec, x, i);
      Journal.KeepLastTwice(j0 + ToolRecords(calls[..i], exec, x), [ToolRecord(call, result)], Journal.MAX_JOURNAL_ENTRIES);
      assert j0 + ToolRecords(calls[..i], exec, x) + [ToolRecord(call, result)] == j0 + ToolRecords(calls[..i + 1], exec, x);
      i := i + 1;
    }
    assert calls[..i] == calls;
  }

  const ABORT_MESSAGE: string := "Maximum tool call rounds reached. Operation aborted."

  /** Why `handle` failed: the builder refused the conversation, or the brain failed. */
  datatype HandleFailure = BuildFailed(msg: string) | InferFailed(msg: string)

  /** What stays fixed through one `handle`: the brain's settings, the system prompt, the tool
      definitions, the oracles and `max_tool_rounds`. */
  datatype Env = Env(settings: BrainSettings, system: string, tools: seq<ToolDefinition>, brain: BrainOracle,
                     exec: ExecOracle, maxRounds: nat)

  /** One round of `handle`'s loop: it either ends the loop with a result, or goes on with the
      records it made and the grown conversation. */
  datatype Round =
    | Finished(result: Result<string, HandleFailure>, k: nat)
    | Continued(records: seq<Journal.MemoryEntry>, messages: seq<Message>, k: nat, x: nat)

  /** Round `rounds + 1`: past `max_tool_rounds` the loop ends with the abort text; a `ToolUse`
      reply appends the assistant message and the calls' results and goes on; any other reply
      ends with its text. `k` and `x` count the inferences and executions so far. */
  function HandleRound(e: Env, messages: seq<Message>, rounds: nat, k: nat, x: nat)
    : (r: Round)
    ensures r.Continued? ==> rounds + 1 <= e.maxRounds && r.k == k + 1 && messages <= r.messages
  {
    if rounds + 1 > e.maxRounds then Finished(Ok(ABORT_MESSAGE), k)
    else
      match RequestFor(e.settings, e.system, messages, e.tools)
      case Err(msg) => Finished(Err(BuildFailed(msg)), k)
      case Ok(req) =>
        match e.brain(k, req)
        case Err(msg) => Finished(Err(InferFailed(msg)), k + 1)
        case Ok(resp) =>
          if resp.stopReason == Some(ToolUseStop) then
            var calls := ExtractToolCalls(resp.content);
            Continued(ToolRecords(calls, e.exec, x),
                      messages + [Message(Assistant, resp.content)] + ToolResults(calls, e.exec, x),
                      k + 1, x + |calls|)
          else Finished(Ok(ExtractText(resp.content)), k + 1)
  }

  /** The whole effect of `handle` from a given round on: its result, the journal records it
      makes in order, and the inference and execution counters at the end. */
  datatype HandleOutcome = HandleOutcome(result: Result<string, HandleFailure>, records: seq<Journal.MemoryEntry>,
                                         inferences: nat, executions: nat)

  /** `handle`'s loop after `rounds` rounds: round after round until one finishes. */
  function HandleFrom(e: Env, messages: seq<Message>, rounds: nat, k: nat, x: nat)
    : HandleOutcome
    decreases e.maxRounds - rounds
  {
    match HandleRound(e, messages, rounds, k, x)
    case Finished(r, k') => HandleOutcome(r, [], k', x)
    case Continued(records, ms, k', x') =>
      var next := HandleFrom(e, ms, rounds + 1, k', x');
      next.(records := records + next.records)
  }

  /** One round as `handle` runs it: build, infer, and on `ToolUse` execute and record the calls. */
  method RunRound(memory: Journal.Memory, e: Env, messages: seq<Message>, rounds: nat, k: nat, x: nat)
    returns (r: Round)
    requires memory.Valid()
    modifies memory
    ensures memory.Valid()
    ensures r == HandleRound(e, messages, rounds, k, x)
    ensures r.Finished? ==> memory.journal == old(memory.journal)
    ensures r.Continued? ==>
              memory.journal == Journal.KeepLast(old(memory.journal) + r.records, Journal.MAX_JOURNAL_ENTRIES)
    ensures memory.identity == old(memory.identity) && memory.topology == old(memory.topology)
  {
    if rounds + 1 > e.maxRounds {
      return Finished(Ok(ABORT_MESSAGE), k);
    }
    var request := BuildRequest(e.settings, e.system, messages, e.tools);
    if request.Err? {
      return Finished(Err(BuildFailed(request.error)), k);
    }
    var reply := e.brain(k, request.value);
    if reply.Err? {
      return Finished(Err(InferFailed(reply.error)), k + 1);
    }
    var response := reply.value;
    var text := ExtractText(response.content);
    if response.stopReason != Some(ToolUseStop) {
      return Finished(Ok(text), k + 1);
    }
    var calls := ExtractToolCalls(response.content);
    var grown := messages + [Message(Assistant, response.content)];
    grown := ExecuteRecorded(memory, e.exec, x, calls, grown);
    r := Continued(ToolRecords(calls, e.exec, x), grown, k + 1, x + |calls|);
  }

  /** `HandleFrom` unfolded once, on the round it starts with. */
  lemma HandleUnfold(e: Env, messages: seq<Message>, rounds: nat, k: nat, x: nat)
    ensures var here := HandleFrom(e, messages, rounds, k, x);
            var step := HandleRound(e, messages, rounds, k, x);
            (step.Finished? ==> here.result == step.result && here.records == []) &&
            (step.Continued? ==>
               var next := HandleFrom(e, step.messages, rounds + 1, step.k, step.x);
               here.result == next.result && here.records == step.records + next.records)
  {
  }

  lemma AppendAssoc<T>(a: seq<T>, b: seq<T>, c: seq<T>)
    ensures a + b + c == a + (b + c)
  {
  }

  /** The body of `handle` once the system prompt is fixed: start from the user's text alone and
      run rounds until one finishes, recording each call in `memory`. */
  method RunHandle(memory: Journal.Memory, e: Env, input: string)
    returns (r: Result<string, HandleFailure>)
    requires memory.Valid()
    modifies memory
    ensures memory.Valid()
    ensures var out := HandleFrom(e, [UserText(input)], 0, 0, 0);
            r == out.result &&
            memory.journal == Journal.KeepLast(old(memory.journal) + out.records, Journal.MAX_JOURNAL_ENTRIES)
    ensures memory.identity == old(memory.identity) && memory.topology == old(memory.topology)
  {
    var messages := [Message(User, [Text(input)])];
    var rounds: nat, k: nat, x: nat := 0, 0, 0;
    ghost var whole := HandleFrom(e, messages, 0, 0, 0);
    ghost var recs: seq<Journal.MemoryEntry> := [];
    ghost var j0 := memory.journal;
    while true
      invariant rounds <= e.maxRounds && memory.Valid()
      invariant var cur := HandleFrom(e, messages, rounds, k, x);
                whole.result == cur.result && whole.records == recs + cur.records
      invariant memory.journal == Journal.KeepLast(j0 + recs, Journal.MAX_JOURNAL_ENTRIES)
      invariant memory.identity == old(memory.identity) && memory.topology == old(memory.topology)
      decreases e.maxRounds - rounds
    {
      var step := RunRound(memory, e, messages, rounds, k, x);
      HandleStep(e, messages, rounds, k, x, whole, recs);
      if step.Finished? {
        return step.result;
      }
      JournalStep(j0, recs, step.records);
      recs := recs + step.records;
      messages, rounds, k, x := step.messages, rounds + 1, step.k, step.x;
    }
  }

  /** The loop invariant of `RunHandle` after one more round: a finishing round settles the
      result, a continuing one moves its records from the remaining outcome to those made. */
  lemma HandleStep(e: Env, messages: seq<Message>, rounds: nat, k: nat, x: nat, whole: HandleOutcome,
                   recs: seq<Journal.MemoryEntry>)
    requires var cur := HandleFrom(e, messages, rounds, k, x);
             whole.result == cur.result && whole.records == recs + cur.records
    ensures var step := HandleRound(e, messages, rounds, k, x);
            (step.Finished? ==> whole.result == step.result && whole.records == recs) &&
            (step.Continued? ==>
               var next := HandleFrom(e, step.messages, rounds + 1, step.k, step.x);
               whole.result == next.result && whole.records == (recs + step.records) + next.records)
  {
    HandleUnfold(e, messages, rounds, k, x);
    var step := HandleRound(e, messages, rounds, k, x);
    if step.Finished? {
      assert recs + [] == recs;
    } else {
      var next := HandleFrom(e, step.messages, rounds + 1, step.k, step.x);
      AppendAssoc(recs, step.records, next.records);
    }
  }

  /** Appending a round's records to the capped journal is capping the journal with all
      records so far. */
  lemma JournalStep(j0: seq<Journal.MemoryEntry>, recs: seq<Journal.MemoryEntry>, more: seq<Journal.MemoryEntry>)
    ensures Journal.KeepLast(Journal.KeepLast(j0 + recs, Journal.MAX_JOURNAL_ENTRIES) + more, Journal.MAX_JOURNAL_ENTRIES)
            == Journal.KeepLast(j0 + (recs + more), Journal.MAX_JOURNAL_ENTRIES)
  {
    Journal.KeepLastTwice(j0 + recs, more, Journal.MAX_JOURNAL_ENTRIES);
    AppendAssoc(j0, recs, more);
  }

  /** `handle` makes at most `max_tool_rounds` inferences, and journals exactly one record per
      tool execution. */
  lemma {:induction false} HandleBounded(e: Env, messages: seq<Message>, rounds: nat, k: nat, x: nat)
    requires rounds <= e.maxRounds
    ensures var out := HandleFrom(e, messages, rounds, k, x);
            k <= out.inferences <= k + (e.maxRounds - rounds) &&
            x <= out.executions && |out.records| == out.executions - x
    decreases e.maxRounds - rounds
  {
    var step := HandleRound(e, messages, rounds, k, x);
    if step.Continued? {
      var calls := ExtractToolCalls(e.brain(k, RequestFor(e.settings, e.system, messages, e.tools).value).value.content);
      assert |step.records| == |calls| && step.x == x + |calls|;
      HandleBounded(e, step.messages, rounds + 1, step.k, step.x);
    }
  }

  /** A conversation that opens with the user keeps doing so, so `handle` never fails to build
      a request: its only failures come from the brain. */
  lemma {:induction false} HandleAlwaysBuilds(e: Env, messages: seq<Message>, rounds: nat, k: nat, x: nat)
    requires messages != [] && messages[0].role == User
    ensures var out := HandleFrom(e, messages, rounds, k, x);
            out.result.Err? ==> out.result.error.InferFailed?
    decreases e.maxRounds - rounds
  {
    var step := HandleRound(e, messages, rounds, k, x);
    UserFirstBuilds(e.settings, e.system, messages, e.tools);
    if step.Continued? {
      assert step.messages[0] == messages[0];
      HandleAlwaysBuilds(e, step.messages, rounds + 1, step.k, step.x);
    }
  }

  /** A brain that asks for tools every time exhausts the rounds: `handle` then returns the
      abort text after exactly `max_tool_rounds` inferences. */
  lemma {:induction false} EndlessToolUseAborts(e: Env, messages: seq<Message>, rounds: nat, k: nat, x: nat)
    requires messages != [] && messages[0].role == User && rounds <= e.maxRounds
    requires forall n: nat, req :: e.brain(n, req).Ok? && e.brain(n, req).value.stopReason == Some(ToolUseStop)
    ensures var out := HandleFrom(e, messages, rounds, k, x);
            out.result == Ok(ABORT_MESSAGE) && out.inferences == k + (e.maxRounds - rounds)
    decreases e.maxRounds - rounds
  {
    var step := HandleRound(e, messages, rounds, k, x);
    UserFirstBuilds(e.settings, e.system, messages, e.tools);
    if rounds + 1 <= e.maxRounds {
      assert step.Continued?;
      assert step.messages[0] == messages[0];
      EndlessToolUseAborts(e, step.messages, rounds + 1, step.k, step.x);
    }
  }

  /** A first reply that is not `ToolUse` ends `handle` with that reply's text and no records. */
  lemma FirstAnswerIsFinal(e: Env, input: string)
    requires e.maxRounds >= 1
    requires var req := RequestFor(e.settings, e.system, [UserText(input)], e.tools).value;
             e.brain(0, req).Ok? && e.brain(0, req).value.stopReason != Some(ToolUseStop)
    ensures var req := RequestFor(e.settings, e.system, [UserText(input)], e.tools).value;
            var out := HandleFrom(e, [UserText(input)], 0, 0, 0);
            out.result == Ok(ExtractText(e.brain(0, req).value.content)) && out.records == [] && out.inferences == 1
  {
  }

  /** With `max_tool_rounds` 0 the brain is never asked. */
  lemma NoRoundsNoInference(e: Env, messages: seq<Message>, k: nat, x: nat)
    requires e.maxRounds == 0
    ensures HandleFrom(e, messages, 0, k, x) == HandleOutcome(Ok(ABORT_MESSAGE), [], k, x)
  {
  }
}
