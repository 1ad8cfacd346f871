/** The `AgentLoop` object that src/agent/mod.rs and src/agent/loop_.rs both define, with the
    parts the two share word for word: its state (brain settings, executor, memory, config), the
    constructor, `handle`, `handle_user_request` and `shutdown`. Their `run_init`s differ and live
    in `Agent` and `AgentLoopImpl`. The brain and the tool runs are the oracles of `Env`; a
    `timedOut` flag says whether the surrounding `tokio::time::timeout` fired. */
module AgentCore {
  import opened Wrappers
  import opened BrainTypes
  import opened CommTypes
  import opened AgentCommon
  import Journal = Memory
  import ToolExecutor

  /** `AgentConfig`; its fields are the same in both agent implementations. */
  datatype AgentConfig = AgentConfig(maxToolRounds: nat, initTimeoutSecs: nat, shutdownTimeoutSecs: nat,
                                     handleTimeoutSecs: nat, systemPrompt: string, identity: string,
                                     initPrompt: string)

  const CONTEXT_HEADING: string := "\n\n# Current Context\n"

  /** `handle`'s system prompt: the configured prompt, a context heading, then the memory's
      context. */
  function SystemWithContext(prompt: string, context: string): (s: string)
    ensures |s| == |prompt| + |CONTEXT_HEADING| + |context|
    ensures s[..|prompt|] == prompt && s[|prompt|..|prompt| + |CONTEXT_HEADING|] == CONTEXT_HEADING
    ensures s[|prompt| + |CONTEXT_HEADING|..] == context
  {
    prompt + CONTEXT_HEADING + context
  }

  /** The `Display` text of the `AgentError` a failed `handle` returns; it reads the same for
      both agent implementations. */
  function FailureText(f: HandleFailure): string
  {
    match f
    case BuildFailed(m) => "Request build error: " + m
    case InferFailed(m) => "Inference error: " + m
  }

  const HANDLE_TIMEOUT_RECORD: string := "Handle timeout"
  const REQUEST_TIMEOUT_REPLY: string := "Request timeout"
  const SHUTDOWN_PROMPT: string :=
    "The system is about to shut down. Please save any important state and perform any necessary cleanup. Report what you did."
  const SHUTDOWN_PREFIX: string := "Shutdown: "

  /** The reply `handle_user_request` sends for a finished `handle`. */
  function ReplyFor(result: Result<string, HandleFailure>): (r: UserResponse)
    ensures r.isError <==> result.Err?
    ensures result.Ok? ==> r.content == result.value
    ensures result.Err? ==> r.content == FailureText(result.error)
  {
    match result
    case Ok(text) => NewResponse(text)
    case Err(f) => ErrorResponse(FailureText(f))
  }

  /** The journal entry `handle_user_request` adds for a finished `handle`: the exchange, or the
      error's text. */
  function ReplyRecord(query: string, result: Result<string, HandleFailure>): (e: Journal.MemoryEntry)
    ensures result.Ok? ==> e == Journal.UserInteraction(query, result.value)
    ensures result.Err? ==> e == Journal.Error(FailureText(result.error))
  {
    match result
    case Ok(text) => Journal.UserInteraction(query, text)
    case Err(f) => Journal.Error(FailureText(f))
  }

  /** `defs` holds exactly one definition per registered tool. */
  ghost predicate ListsTools(tools: map<string, ToolExecutor.Tool>, defs: seq<ToolDefinition>)
  {
    |defs| == |tools.Keys| &&
    (forall n :: n in tools ==> ToolExecutor.Definition(tools[n]) in defs) &&
    (forall d :: d in defs ==> exists n :: n in tools && d == ToolExecutor.Definition(tools[n]))
  }

  class AgentLoop {
    const settings: BrainSettings
    const executor: ToolExecutor.Executor
    const memory: Journal.Memory
    const config: AgentConfig

    /** `AgentLoop::new`: a fresh memory whose identity is the configured one. */
    constructor (settings: BrainSettings, executor: ToolExecutor.Executor, config: AgentConfig)
      ensures this.settings == settings && this.executor == executor && this.config == config
      ensures fresh(memory) && memory.Valid()
      ensures memory.identity == config.identity && memory.journal == [] && memory.topology == []
    {
      this.settings := settings;
      this.executor := executor;
      this.config := config;
      memory := new Journal.Memory(config.identity);
    }

    /** The fixed part of one `handle`: the system prompt with the memory context it read at the
        start, the tool definitions, the oracles and the round limit. */
    function EnvFor(context: string, tools: seq<ToolDefinition>, brain: BrainOracle, exec: ExecOracle): (e: Env)
      ensures e.system == SystemWithContext(config.systemPrompt, context) && e.tools == tools
      ensures e.maxRounds == config.maxToolRounds && e.settings == settings
    {
      Env(settings, SystemWithContext(config.systemPrompt, context), tools, brain, exec, config.maxToolRounds)
    }

    /** `handle`: read the context and the tool definitions, then run the tool loop from the user's
        text. `tools` are the definitions the executor listed. */
    method Handle(input: string, brain: BrainOracle, exec: ExecOracle)
      returns (r: Result<string, HandleFailure>, ghost tools: seq<ToolDefinition>)
      requires memory.Valid()
      modifies memory
      ensures memory.Valid() && ListsTools(executor.tools, tools)
      ensures var out := HandleFrom(EnvFor(old(memory.Context()), tools, brain, exec), [UserText(input)], 0, 0, 0);
              r == out.result &&
              memory.journal == Journal.KeepLast(old(memory.journal) + out.records, Journal.MAX_JOURNAL_ENTRIES)
      ensures memory.identity == old(memory.identity) && memory.topology == old(memory.topology)
    {
      var context := memory.Context();
      var defs := executor.ToolDefinitions();
      tools := defs;
      r := RunHandle(memory, EnvFor(context, defs, brain, exec), input);
    }

    /** `handle_user_request`: run `handle` under the handle timeout, record the outcome and
        return the reply. A timeout records "Handle timeout" and replies "Request timeout". */
    method HandleUserRequest(content: string, brain: BrainOracle, exec: ExecOracle, timedOut: bool)
      returns (resp: UserResponse, ghost tools: seq<ToolDefinition>)
      requires memory.Valid()
      modifies memory
      ensures memory.Valid()
      ensures timedOut ==>
                resp == ErrorResponse(REQUEST_TIMEOUT_REPLY) &&
                memory.journal == Journal.KeepLast(old(memory.journal) + [Journal.Error(HANDLE_TIMEOUT_RECORD)],
                                                   Journal.MAX_JOURNAL_ENTRIES)
      ensures !timedOut ==>
                ListsTools(executor.tools, tools) &&
                var out := HandleFrom(EnvFor(old(memory.Context()), tools, brain, exec), [UserText(content)], 0, 0, 0);
                resp == ReplyFor(out.result) &&
                memory.journal == Journal.KeepLast(old(memory.journal) + out.records + [ReplyRecord(content, out.result)],
                                                   Journal.MAX_JOURNAL_ENTRIES)
      ensures memory.identity == old(memory.identity) && memory.topology == old(memory.topology)
    {
      if timedOut {
        memory.AddError(HANDLE_TIMEOUT_RECORD);
        resp := ErrorResponse(REQUEST_TIMEOUT_REPLY);
        tools := [];
        return;
      }
      ghost var j0 := memory.journal;
      var r;
      r, tools := Handle(content, brain, exec);
      ghost var records := HandleFrom(EnvFor(old(memory.Context()), tools, brain, exec), [UserText(content)], 0, 0, 0).records;
      match r {
        case Ok(text) =>
          memory.AddInteraction(content, text);
          resp := NewResponse(text);
        case Err(f) =>
          memory.AddError(FailureText(f));
          resp := ErrorResponse(FailureText(f));
      }
      Journal.KeepLastTwice(j0 + records, [ReplyRecord(content, r)], Journal.MAX_JOURNAL_ENTRIES);
    }

    /** `shutdown`: run `handle` on the shutdown prompt under the shutdown timeout; only a
        successful answer is recorded, as an observation prefixed "Shutdown: ". */
    method Shutdown(brain: BrainOracle, exec: ExecOracle, timedOut: bool) returns (ghost tools: seq<ToolDefinition>)
      requires memory.Valid()
      modifies memory
      ensures memory.Valid()
      ensures timedOut ==> memory.journal == old(memory.journal)
      ensures !timedOut ==>
                ListsTools(executor.tools, tools) &&
                var out := HandleFrom(EnvFor(old(memory.Context()), tools, brain, exec), [UserText(SHUTDOWN_PROMPT)], 0, 0, 0);
                memory.journal == Journal.KeepLast(old(memory.journal) + out.records + ShutdownRecord(out.result),
                                                   Journal.MAX_JOURNAL_ENTRIES)
      ensures memory.identity == old(memory.identity) && memory.topology == old(memory.topology)
    {
      tools := [];
      if timedOut {
        return;
      }
      ghost var j0 := memory.journal;
      var r;
      r, tools := Handle(SHUTDOWN_PROMPT, brain, exec);
      ghost var records := HandleFrom(EnvFor(old(memory.Context()), tools, brain, exec), [UserText(SHUTDOWN_PROMPT)], 0, 0, 0).records;
      if r.Ok? {
        memory.AddObservation(SHUTDOWN_PREFIX + r.value);
        Journal.KeepLastTwice(j0 + records, ShutdownRecord(r), Journal.MAX_JOURNAL_ENTRIES);
      } else {
        assert j0 + records + ShutdownRecord(r) == j0 + records;
      }
    }
  }

  /** What `shutdown` adds after `handle`: the answer as an observation, or nothing on failure. */
  function ShutdownRecord(result: Result<string, HandleFailure>): (es: seq<Journal.MemoryEntry>)
    ensures result.Ok? ==> es == [Journal.Observation(SHUTDOWN_PREFIX + result.value)]
    ensures result.Err? ==> es == []
  {
    if result.Ok? then [Journal.Observation(SHUTDOWN_PREFIX + result.value)] else []
  }
}
