/** src/agent/loop_.rs with src/agent/types.rs and src/agent/error.rs: its three-variant
    `AgentError`, its default `AgentConfig`, and its `run_init`, which runs the init prompt
    through up to `max_tool_rounds` rounds like `handle` does, observing every answer. `handle`,
    `handle_user_request` and `shutdown` are `AgentCore.AgentLoop`'s. Whether round `k`'s
    inference outlives the init timeout is the oracle `stalls(k)`. */
module LoopAgent {
  import opened Wrappers
  import opened BrainTypes
  import opened AgentCommon
  import opened AgentCore
  import Journal = Memory
  import Text

  /** `AgentError` of src/agent/error.rs. */
  datatype AgentError =
    | Inference(msg: string)
    | RequestBuild(msg: string)
    | Timeout(secs: nat)

  /** The `#[error]` texts of `AgentError`. */
  function ErrorText(e: AgentError): string
  {
    match e
    case Inference(s) => "Inference error: " + s
    case RequestBuild(s) => "Request build error: " + s
    case Timeout(secs) => "Timeout after " + Text.NatToString(secs) + "s"
  }

  /** The error.rs `AgentError` that loop_.rs's `handle` returns for each way it fails; the same
      mapping as mod.rs's, onto the other `AgentError` type. */
  function FromFailure(f: HandleFailure): (e: AgentError)
    ensures f.BuildFailed? ==> e == RequestBuild(f.msg)
    ensures f.InferFailed? ==> e == Inference(f.msg)
  {
    match f
    case BuildFailed(m) => RequestBuild(m)
    case InferFailed(m) => Inference(m)
  }

  /** The reply text of a failed `handle` is its `AgentError`'s message. */
  lemma FailureTextIsDisplay(f: HandleFailure)
    ensures FailureText(f) == ErrorText(FromFailure(f))
  {
  }

  /** `AgentConfig::default()` of src/agent/types.rs, which loop_.rs uses; it differs from
      mod.rs's own default in the identity and the prompts. */
  function DefaultConfig(): (c: AgentConfig)
    ensures c.maxToolRounds == 20 && c.initTimeoutSecs == 120 && c.shutdownTimeoutSecs == 30
    ensures c.handleTimeoutSecs == 300 && c.identity == "Shelly"
  {
    AgentConfig(20, 120, 30, 300, SYSTEM_PROMPT, "Shelly", INIT_PROMPT)
  }

  const SYSTEM_PROMPT: string := "You are Shelly, a system-level daemon process running on this machine with root privileges. You have no permission boundary with the operating system. If the kernel exposes it, you can do it. There is nothing on this machine that is off-limits to you. You process one task at a time. When you receive input, you think, you act if needed, and you respond."

  const INIT_PROMPT: string := "You just started. You know nothing about this machine. Explore your environment and report what you find."

  /** One init round: it either ends `run_init`, with the records it made, or goes on with them
      and the grown conversation. */
  datatype InitRound =
    | InitDone(result: Result<(), AgentError>, records: seq<Journal.MemoryEntry>, k: nat)
    | InitNext(records: seq<Journal.MemoryEntry>, messages: seq<Message>, k: nat, x: nat)

  /** Round `rounds + 1` of `run_init`: past the limit it ends successfully; a refused request,
      a timeout or a brain failure ends it with that error; an answer is observed, and then a
      `ToolUse` answer appends the assistant message and the calls' results and goes on, while
      any other answer ends it successfully. */
  function InitStep(e: Env, stalls: nat -> bool, timeoutSecs: nat, messages: seq<Message>, rounds: nat, k: nat, x: nat)
    : (r: InitRound)
    ensures r.InitNext? ==> rounds + 1 <= e.maxRounds && r.k == k + 1 && messages <= r.messages
  {
    if rounds + 1 > e.maxRounds then InitDone(Ok(()), [], k)
    else
      match RequestFor(e.settings, e.system, messages, e.tools)
      case Err(msg) => InitDone(Err(RequestBuild(msg)), [], k)
      case Ok(req) =>
        if stalls(k) then InitDone(Err(Timeout(timeoutSecs)), [], k + 1)
        else
          match e.brain(k, req)
          case Err(msg) => InitDone(Err(Inference(msg)), [], k + 1)
          case Ok(resp) => Answered(e, messages, resp, k, x)
  }

  /** What an init round does with an answer: observe its text, then either go on with its
      calls' records and results (`ToolUse`) or end successfully. */
  function Answered(e: Env, messages: seq<Message>, resp: MessageResponse, k: nat, x: nat): (r: InitRound)
    ensures r.records != [] && r.records[0] == Journal.Observation(ExtractText(resp.content))
    ensures r.InitNext? <==> resp.stopReason == Some(ToolUseStop)
    ensures r.InitNext? ==> r.k == k + 1 && messages <= r.messages
  {
    var seen := [Journal.Observation(ExtractText(resp.content))];
    if resp.stopReason == Some(ToolUseStop) then
      var calls := ExtractToolCalls(resp.content);
      InitNext(seen + ToolRecords(calls, e.exec, x),
               messages + [Message(Assistant, resp.content)] + ToolResults(calls, e.exec, x),
               k + 1, x + |calls|)
    else InitDone(Ok(()), seen, k + 1)
  }

  /** The whole effect of `run_init` from round `rounds` on: its result, its journal records in
      order, and how many inferences it started. */
  datatype InitOutcome = InitOutcome(result: Result<(), AgentError>, records: seq<Journal.MemoryEntry>, inferences: nat)

  function InitFrom(e: Env, stalls: nat -> bool, timeoutSecs: nat, messages: seq<Message>, rounds: nat, k: nat, x: nat)
    : InitOutcome
    decreases e.maxRounds - rounds
  {
    match InitStep(e, stalls, timeoutSecs, messages, rounds, k, x)
    case InitDone(r, records, k') => InitOutcome(r, records, k')
    case InitNext(records, ms, k', x') =>
      var next := InitFrom(e, stalls, timeoutSecs, ms, rounds + 1, k', x');
      next.(records := records + next.records)
  }

  /** The environment of `run_init`: the plain system prompt, without the memory context. */
  function InitEnv(agent: AgentLoop, tools: seq<ToolDefinition>, brain: BrainOracle, exec: ExecOracle): (e: Env)
    ensures e.system == agent.config.systemPrompt && e.tools == tools && e.maxRounds == agent.config.maxToolRounds
  {
    Env(agent.settings, agent.config.systemPrompt, tools, brain, exec, agent.config.maxToolRounds)
  }

  /** One init round as `run_init` runs it. */
  method RunInitStep(memory: Journal.Memory, e: Env, stalls: nat -> bool, timeoutSecs: nat,
                     messages: seq<Message>, rounds: nat, k: nat, x: nat)
    returns (r: InitRound)
    requires memory.Valid()
    modifies memory
    ensures memory.Valid()
    ensures r == InitStep(e, stalls, timeoutSecs, messages, rounds, k, x)
    ensures memory.journal == Journal.KeepLast(old(memory.journal) + r.records, Journal.MAX_JOURNAL_ENTRIES)
    ensures memory.identity == old(memory.identity) && memory.topology == old(memory.topology)
  {
    assert memory.journal + [] == memory.journal;
    if rounds + 1 > e.maxRounds {
      return InitDone(Ok(()), [], k);
    }
    var request := BuildRequest(e.settings, e.system, messages, e.tools);
    if request.Err? {
      return InitDone(Err(RequestBuild(request.error)), [], k);
    }
    if stalls(k) {
      return InitDone(Err(Timeout(timeoutSecs)), [], k + 1);
    }
    var reply := e.brain(k, request.value);
    if reply.Err? {
      return InitDone(Err(Inference(reply.error)), [], k + 1);
    }
    r := RunAnswer(memory, e, messages, reply.value, k, x);
  }

  /** An answer as `run_init` handles it: `add_observation`, then on `ToolUse` the assistant
      message and the recorded calls. */
  method RunAnswer(memory: Journal.Memory, e: Env, messages: seq<Message>, response: MessageResponse, k: nat, x: nat)
    returns (r: InitRound)
    requires memory.Valid()
    modifies memory
    ensures memory.Valid()
    ensures r == Answered(e, messages, response, k, x)
    ensures memory.journal == Journal.KeepLast(old(memory.journal) + r.records, Journal.MAX_JOURNAL_ENTRIES)
    ensures memory.identity == old(memory.identity) && memory.topology == old(memory.topology)
  {
    var text := ExtractText(response.content);
    ghost var j0 := memory.journal;
    memory.AddObservation(text);
    var seen := [Journal.Observation(text)];
    if response.stopReason != Some(ToolUseStop) {
      return InitDone(Ok(()), seen, k + 1);
    }
    var calls := ExtractToolCalls(response.content);
    var grown := messages + [Message(Assistant, response.content)];
    grown := ExecuteRecorded(memory, e.exec, x, calls, grown);
    Journal.KeepLastTwice(j0 + seen, ToolRecords(calls, e.exec, x), Journal.MAX_JOURNAL_ENTRIES);
    AppendAssoc(j0, seen, ToolRecords(calls, e.exec, x));
    r := InitNext(seen + ToolRecords(calls, e.exec, x), grown, k + 1, x + |calls|);
  }

  /** `InitFrom` unfolded once. */
  lemma InitUnfold(e: Env, stalls: nat -> bool, timeoutSecs: nat, messages: seq<Message>, rounds: nat, k: nat, x: nat)
    ensures var here := InitFrom(e, stalls, timeoutSecs, messages, rounds, k, x);
            var step := InitStep(e, stalls, timeoutSecs, messages, rounds, k, x);
            (step.InitDone? ==> here.result == step.result && here.records == step.records) &&
            (step.InitNext? ==>
               var next := InitFrom(e, stalls, timeoutSecs, step.messages, rounds + 1, step.k, step.x);
               here.result == next.result && here.records == step.records + next.records)
  {
  }

  /** `run_init` of loop_.rs: the init prompt as the first user message, then rounds until one
      ends, every answer observed and every call recorded in the agent's memory. `tools` are the
      definitions the executor listed. */
  method RunInit(agent: AgentLoop, brain: BrainOracle, exec: ExecOracle, stalls: nat -> bool)
    returns (r: Result<(), AgentError>, ghost tools: seq<ToolDefinition>)
    requires agent.memory.Valid()
    modifies agent.memory
    ensures agent.memory.Valid() && ListsTools(agent.executor.tools, tools)
    ensures var out := InitFrom(InitEnv(agent, tools, brain, exec), stalls, agent.config.initTimeoutSecs,
                                [UserText(agent.config.initPrompt)], 0, 0, 0);
            r == out.result &&
            agent.memory.journal == Journal.KeepLast(old(agent.memory.journal) + out.records, Journal.MAX_JOURNAL_ENTRIES)
    ensures agent.memory.identity == old(agent.memory.identity) && agent.memory.topology == old(agent.memory.topology)
  {
    var defs := agent.executor.ToolDefinitions();
    tools := defs;
    r := InitLoop(agent.memory, InitEnv(agent, defs, brain, exec), stalls, agent.config.initTimeoutSecs,
                  agent.config.initPrompt);
  }

  /** The loop of `run_init` once its environment is fixed. */
  method InitLoop(memory: Journal.Memory, e: Env, stalls: nat -> bool, secs: nat, prompt: string)
    returns (r: Result<(), AgentError>)
    requires memory.Valid()
    modifies memory
    ensures memory.Valid()
    ensures var out := InitFrom(e, stalls, secs, [UserText(prompt)], 0, 0, 0);
            r == out.result &&
            memory.journal == Journal.KeepLast(old(memory.journal) + out.records, Journal.MAX_JOURNAL_ENTRIES)
    ensures memory.identity == old(memory.identity) && memory.topology == old(memory.topology)
  {
    var messages := [Message(User, [Text(prompt)])];
    var rounds: nat, k: nat, x: nat := 0, 0, 0;
    ghost var whole := InitFrom(e, stalls, secs, messages, 0, 0, 0);
    ghost var recs: seq<Journal.MemoryEntry> := [];
    ghost var j0 := memory.journal;
    while true
      invariant rounds <= e.maxRounds && memory.Valid()
      invariant var cur := InitFrom(e, stalls, secs, messages, rounds, k, x);
                whole.result == cur.result && whole.records == recs + cur.records
      invariant memory.journal == Journal.KeepLast(j0 + recs, Journal.MAX_JOURNAL_ENTRIES)
      invariant memory.identity == old(memory.identity) && memory.topology == old(memory.topology)
      decreases e.maxRounds - rounds
    {
      var step := RunInitStep(memory, e, stalls, secs, messages, rounds, k, x);
      InitUnfold(e, stalls, secs, messages, rounds, k, x);
      Journal.KeepLastTwice(j0 + recs, step.records, Journal.MAX_JOURNAL_ENTRIES);
      AppendAssoc(j0, recs, step.records);
      if step.InitDone? {
        return step.result;
      }
      recs := recs + step.records;
      messages, rounds, k, x := step.messages, rounds + 1, step.k, step.x;
    }
  }

  /** `run_init` starts at most `max_tool_rounds` inferences. */
  lemma {:induction false} InitBounded(e: Env, stalls: nat -> bool, secs: nat, messages: seq<Message>,
                                       rounds: nat, k: nat, x: nat)
    requires rounds <= e.maxRounds
    ensures k <= InitFrom(e, stalls, secs, messages, rounds, k, x).inferences <= k + (e.maxRounds - rounds)
    decreases e.maxRounds - rounds
  {
    var step := InitStep(e, stalls, secs, messages, rounds, k, x);
    if step.InitNext? {
      InitBounded(e, stalls, secs, step.messages, rounds + 1, step.k, step.x);
    }
  }

  /** A brain that always answers in time makes `run_init` succeed: running out of rounds is
      not an error here, unlike in `handle`, and the init conversation always builds. */
  lemma {:induction false} InitSucceedsWhenBrainAnswers(e: Env, stalls: nat -> bool, secs: nat, messages: seq<Message>,
                                                        rounds: nat, k: nat, x: nat)
    requires messages != [] && messages[0].role == User
    requires forall n: nat :: !stalls(n)
    requires forall n: nat, req :: e.brain(n, req).Ok?
    ensures InitFrom(e, stalls, secs, messages, rounds, k, x).result == Ok(())
    decreases e.maxRounds - rounds
  {
    UserFirstBuilds(e.settings, e.system, messages, e.tools);
    var step := InitStep(e, stalls, secs, messages, rounds, k, x);
    if step.InitNext? {
      assert step.messages[0] == messages[0];
      InitSucceedsWhenBrainAnswers(e, stalls, secs, step.messages, rounds + 1, step.k, step.x);
    }
  }

  /** Every answer is observed before its tools run: the records of an init that got an answer
      in its first round open with that answer's text. */
  lemma FirstAnswerObservedFirst(e: Env, stalls: nat -> bool, secs: nat, messages: seq<Message>, x: nat)
    requires messages != [] && messages[0].role == User && e.maxRounds >= 1 && !stalls(0)
    requires e.brain(0, RequestFor(e.settings, e.system, messages, e.tools).value).Ok?
    ensures var resp := e.brain(0, RequestFor(e.settings, e.system, messages, e.tools).value).value;
            var out := InitFrom(e, stalls, secs, messages, 0, 0, x);
            out.records != [] && out.records[0] == Journal.Observation(ExtractText(resp.content))
  {
    InitUnfold(e, stalls, secs, messages, 0, 0, x);
  }

  /** A stalled first inference ends `run_init` with the init timeout and no records. */
  lemma FirstStallTimesOut(e: Env, stalls: nat -> bool, secs: nat, messages: seq<Message>, x: nat)
    requires messages != [] && messages[0].role == User && e.maxRounds >= 1 && stalls(0)
    ensures InitFrom(e, stalls, secs, messages, 0, 0, x) == InitOutcome(Err(Timeout(secs)), [], 1)
  {
  }
}
