/** src/agent/mod.rs: its `AgentError`, its default `AgentConfig`, and its `run_init`, which makes
    a single inference on the init prompt and records the answer and the raw output of every
    tool it asks for. `handle`, `handle_user_request` and `shutdown` are `AgentCore.AgentLoop`'s. */
module Agent {
  import opened Wrappers
  import opened BrainTypes
  import opened AgentCommon
  import opened AgentCore
  import Journal = Memory
  import Builder
  import ToolExecutor
  import Text

  /** `AgentError` of mod.rs. */
  datatype AgentError =
    | Inference(msg: string)
    | RequestBuild(msg: string)
    | Timeout(secs: nat)
    | Executor(msg: string)

  /** `Display` for `AgentError`. */
  function ErrorText(e: AgentError): string
  {
    match e
    case Inference(s) => "Inference error: " + s
    case RequestBuild(s) => "Request build error: " + s
    case Timeout(secs) => "Timeout after " + Text.NatToString(secs) + "s"
    case Executor(s) => "Executor error: " + s
  }

  /** The `AgentError` `handle` returns for each way it fails. */
  function FromFailure(f: HandleFailure): (e: AgentError)
    ensures f.BuildFailed? ==> e == RequestBuild(f.msg)
    ensures f.InferFailed? ==> e == Inference(f.msg)
  {
    match f
    case BuildFailed(m) => RequestBuild(m)
    case InferFailed(m) => Inference(m)
  }

  /** The reply text of a failed `handle` is its `AgentError`'s `Display`. */
  lemma FailureTextIsDisplay(f: HandleFailure)
    ensures FailureText(f) == ErrorText(FromFailure(f))
  {
  }

  /** Distinct errors display differently, so a reply or journal text names its error. */
  lemma ErrorTextInjective(a: AgentError, b: AgentError)
    requires ErrorText(a) == ErrorText(b)
    ensures a == b
  {
    var s := ErrorText(a);
    assert s[0] == ErrorText(b)[0];
    match a
    case Inference(m) =>
      assert b.Inference?;
      assert s[17..] == m && ErrorText(b)[17..] == b.msg;
    case RequestBuild(m) =>
      assert b.RequestBuild?;
      assert s[21..] == m && ErrorText(b)[21..] == b.msg;
    case Executor(m) =>
      assert b.Executor?;
      assert s[16..] == m && ErrorText(b)[16..] == b.msg;
    case Timeout(n) =>
      assert b.Timeout?;
      assert s[14..|s| - 1] == Text.NatToString(n);
      assert ErrorText(b)[14..|s| - 1] == Text.NatToString(b.secs);
      Text.NatToStringInjective(n, b.secs);
  }

  /** `AgentConfig::default()` of mod.rs. */
  function DefaultConfig(): (c: AgentConfig)
    ensures c.maxToolRounds == 20 && c.initTimeoutSecs == 120 && c.shutdownTimeoutSecs == 30
    ensures c.handleTimeoutSecs == 300 && c.identity == "Shelly - a system daemon agent"
  {
    AgentConfig(20, 120, 30, 300, SYSTEM_PROMPT, "Shelly - a system daemon agent", INIT_PROMPT)
  }

  const SYSTEM_PROMPT: string := "You are Shelly, a system daemon running on this machine.\nYou are helpful, cautious, and thorough. You prefer to observe and understand before acting.\nWhen you need to perform operations, use the tools available to you.\nAlways explain your reasoning before taking actions that could have side effects.\nLog your important decisions and observations."

  const INIT_PROMPT: string := "You just started. Explore your environment:\n- Check system metadata (hostname, OS version)\n- Check disk usage\n- Check network status\n- Check running services\n\nUse the tools available to you. Report what you find."

  /** `build_request` of mod.rs: model, system prompt, the init prompt as the only user message,
      token limit and tools. It always builds, and it sets no sampling parameter even when the
      brain has them. */
  function InitRequest(s: BrainSettings, systemPrompt: string, initPrompt: string, tools: seq<ToolDefinition>)
    : (r: Result<MessageRequest, string>)
    ensures r == Ok(MessageRequest(s.model, Some(systemPrompt), [UserText(initPrompt)], Some(tools),
                                   s.maxOutputTokens, None, None, None, None, None, None))
  {
    var b := Builder.New(s.model).WithSystem(systemPrompt).UserText(initPrompt);
    assert b.messages == [UserText(initPrompt)];
    b.WithMaxTokens(s.maxOutputTokens).WithTools(tools).Build()
  }

  /** The journal entry `handle_inference_response` makes for one call: the output's raw
      content, or "name: error". */
  function InitRecord(call: ToolCall, result: Result<ToolExecutor.ToolOutput, string>): Journal.MemoryEntry
  {
    match result
    case Ok(output) => Journal.ToolResult(call.name, output.content)
    case Err(e) => Journal.Error(call.name + ": " + e)
  }

  function InitRecords(calls: seq<ToolCall>, exec: ExecOracle): (es: seq<Journal.MemoryEntry>)
    ensures |es| == |calls|
  {
    seq(|calls|, i requires 0 <= i < |calls| => InitRecord(calls[i], exec(i, calls[i].name, calls[i].input)))
  }

  /** Everything `handle_inference_response` records: the answer's text as an observation, then,
      on `ToolUse`, one record per call. */
  function InitResponseRecords(response: MessageResponse, exec: ExecOracle): (es: seq<Journal.MemoryEntry>)
    ensures |es| >= 1 && es[0] == Journal.Observation(ExtractText(response.content))
    ensures response.stopReason != Some(ToolUseStop) ==> |es| == 1
    ensures response.stopReason == Some(ToolUseStop) ==> |es| == 1 + |ExtractToolCalls(response.content)|
  {
    [Journal.Observation(ExtractText(response.content))] +
    (if response.stopReason == Some(ToolUseStop) then InitRecords(ExtractToolCalls(response.content), exec) else [])
  }

  /** Init records a tool's raw output, `handle` the text it sent back to the brain: the two
      agree exactly unless the tool reported an error, which `handle` prefixes with "Error: ". */
  lemma InitRecordVersusHandle(call: ToolCall, result: Result<ToolExecutor.ToolOutput, string>)
    ensures InitRecord(call, result) == ToolRecord(call, result) <==> !(result.Ok? && result.value.isError)
  {
    if result.Ok? && result.value.isError {
      var a := InitRecord(call, result).result;
      var b := ToolRecord(call, result).result;
      assert |b| == |a| + 7;
    }
  }

  /** `handle_inference_response`: record the answer, then run each requested tool and record
      what it gave. It never fails. */
  method HandleInferenceResponse(agent: AgentLoop, response: MessageResponse, exec: ExecOracle)
    returns (r: Result<(), AgentError>)
    requires agent.memory.Valid()
    modifies agent.memory
    ensures r == Ok(()) && agent.memory.Valid()
    ensures agent.memory.journal ==
              Journal.KeepLast(old(agent.memory.journal) + InitResponseRecords(response, exec), Journal.MAX_JOURNAL_ENTRIES)
    ensures agent.memory.identity == old(agent.memory.identity) && agent.memory.topology == old(agent.memory.topology)
  {
    var memory := agent.memory;
    ghost var j0 := memory.journal;
    var text := ExtractText(response.content);
    memory.AddObservation(text);
    var obs := [Journal.Observation(text)];
    if response.stopReason != Some(ToolUseStop) {
      return Ok(());
    }
    var calls := ExtractToolCalls(response.content);
    var i := 0;
    while i < |calls|
      invariant i <= |calls| && memory.Valid()
      invariant memory.journal == Journal.KeepLast(j0 + obs + InitRecords(calls[..i], exec), Journal.MAX_JOURNAL_ENTRIES)
      invariant memory.identity == old(memory.identity) && memory.topology == old(memory.topology)
    {
      var call := calls[i];
      var result := exec(i, call.name, call.input);
      RecordInit(memory, call, result);
      InitRecordsStep(j0 + obs, calls, i, exec);
      i := i + 1;
    }
    assert calls[..i] == calls;
    AppendAssoc(j0, obs, InitRecords(calls, exec));
    r := Ok(());
  }

  /** One call's entry in `handle_inference_response`: its output's content, or "name: error". */
  method RecordInit(memory: Journal.Memory, call: ToolCall, result: Result<ToolExecutor.ToolOutput, string>)
    requires memory.Valid()
    modifies memory
    ensures memory.Valid()
    ensures memory.journal == Journal.KeepLast(old(memory.journal) + [InitRecord(call, result)], Journal.MAX_JOURNAL_ENTRIES)
    ensures memory.identity == old(memory.identity) && memory.topology == old(memory.topology)
  {
    match result {
      case Ok(output) => memory.AddToolResult(call.name, output.content);
      case Err(e) => memory.AddError(call.name + ": " + e);
    }
  }

  /** Recording call `i` after the first `i` extends the capped journal by one more record. */
  lemma InitRecordsStep(j: seq<Journal.MemoryEntry>, calls: seq<ToolCall>, i: nat, exec: ExecOracle)
    requires i < |calls|
    ensures var one := [InitRecord(calls[i], exec(i, calls[i].name, calls[i].input))];
            Journal.KeepLast(Journal.KeepLast(j + InitRecords(calls[..i], exec), Journal.MAX_JOURNAL_ENTRIES) + one,
                             Journal.MAX_JOURNAL_ENTRIES)
            == Journal.KeepLast(j + InitRecords(calls[..i + 1], exec), Journal.MAX_JOURNAL_ENTRIES)
  {
    var one := [InitRecord(calls[i], exec(i, calls[i].name, calls[i].input))];
    assert InitRecords(calls[..i + 1], exec) == InitRecords(calls[..i], exec) + one;
    Journal.KeepLastTwice(j + InitRecords(calls[..i], exec), one, Journal.MAX_JOURNAL_ENTRIES);
    AppendAssoc(j, InitRecords(calls[..i], exec), one);
  }

  /** `run_init` of mod.rs: one inference on the init prompt under the init timeout. A timeout or
      a brain failure leaves the journal as it was; an answer is handed to
      `handle_inference_response`. `tools` are the definitions the executor listed. */
  method RunInit(agent: AgentLoop, brain: BrainOracle, exec: ExecOracle, timedOut: bool)
    returns (r: Result<(), AgentError>, ghost tools: seq<ToolDefinition>)
    requires agent.memory.Valid()
    modifies agent.memory
    ensures agent.memory.Valid() && ListsTools(agent.executor.tools, tools)
    ensures var req := InitRequest(agent.settings, agent.config.systemPrompt, agent.config.initPrompt, tools).value;
            if timedOut then
              r == Err(Timeout(agent.config.initTimeoutSecs)) && agent.memory.journal == old(agent.memory.journal)
            else if brain(0, req).Err? then
              r == Err(Inference(brain(0, req).error)) && agent.memory.journal == old(agent.memory.journal)
            else
              r == Ok(()) &&
              agent.memory.journal == Journal.KeepLast(old(agent.memory.journal) + InitResponseRecords(brain(0, req).value, exec),
                                                       Journal.MAX_JOURNAL_ENTRIES)
    ensures agent.memory.identity == old(agent.memory.identity) && agent.memory.topology == old(agent.memory.topology)
  {
    var defs := agent.executor.ToolDefinitions();
    tools := defs;
    // The builder never refuses this request, so `map_err(AgentError::RequestBuild)` cannot fire.
    var request := InitRequest(agent.settings, agent.config.systemPrompt, agent.config.initPrompt, defs).value;
    if timedOut {
      return Err(Timeout(agent.config.initTimeoutSecs)), tools;
    }
    var reply := brain(0, request);
    if reply.Err? {
      return Err(Inference(reply.error)), tools;
    }
    r := HandleInferenceResponse(agent, reply.value, exec);
  }
}
