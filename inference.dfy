/** `inference_loop` (src/agent/inference.rs): build a request from the conversation, ask the
    brain, and on `ToolUse` execute the calls and recurse with one more tool round, until the brain
    stops for any other reason or the rounds run out. The brain and the executor are the oracles of
    `AgentCommon.Env`, indexed by how many inferences and executions came before. */
module Inference {
  import opened Wrappers
  import opened BrainTypes
  import opened AgentCommon
  import opened Json
  import ToolExecutor

  /** The failures of `inference_loop`. */
  datatype InferenceError =
    | RequestBuild(msg: string)
    | InferenceFailed(msg: string)
    | MaxToolRounds(maxRounds: nat, actualRounds: nat)

  const BUILD_FAILED: string := "Failed to build request"

  /** `InferenceResult`: the final text and the number of tool rounds executed. */
  datatype InferenceResult = InferenceResult(text: string, toolRounds: nat)

  /** The whole effect of one `inference_loop` call: its result, the conversation as the caller
      sees it afterwards, and the inference and execution counters at the end. */
  datatype LoopOutcome = LoopOutcome(result: Result<InferenceResult, InferenceError>, messages: seq<Message>,
                                     inferences: nat, executions: nat)

  /** `inference_loop` from `toolRounds` rounds on, as a function of the conversation. */
  function Loop(e: Env, messages: seq<Message>, toolRounds: nat, k: nat, x: nat): LoopOutcome
    decreases e.maxRounds - toolRounds
  {
    match RequestFor(e.settings, e.system, messages, e.tools)
    case Err(_) => LoopOutcome(Err(RequestBuild(BUILD_FAILED)), messages, k, x)
    case Ok(req) =>
      match e.brain(k, req)
      case Err(msg) => LoopOutcome(Err(InferenceFailed(msg)), messages, k + 1, x)
      case Ok(resp) =>
        if resp.stopReason == Some(ToolUseStop) then
          if toolRounds + 1 > e.maxRounds then
            LoopOutcome(Err(MaxToolRounds(e.maxRounds, toolRounds + 1)), messages, k + 1, x)
          else
            var calls := ExtractToolCalls(resp.content);
            Loop(e, messages + [Message(Assistant, resp.content)] + ToolResults(calls, e.exec, x),
                 toolRounds + 1, k + 1, x + |calls|)
        else
          LoopOutcome(Ok(InferenceResult(ExtractText(resp.content), toolRounds)),
                      messages + [Message(Assistant, resp.content)], k + 1, x)
  }

  /** `inference_loop` as the source runs it: recursive, with the conversation passed in and
      handed back. */
  method InferenceLoop(e: Env, messages: seq<Message>, toolRounds: nat, k: nat, x: nat)
    returns (r: Result<InferenceResult, InferenceError>, out: seq<Message>, inferences: nat, executions: nat)
    ensures LoopOutcome(r, out, inferences, executions) == Loop(e, messages, toolRounds, k, x)
    decreases e.maxRounds - toolRounds
  {
    var request := BuildRequest(e.settings, e.system, messages, e.tools);
    if request.Err? {
      return Err(RequestBuild(BUILD_FAILED)), messages, k, x;
    }
    var reply := e.brain(k, request.value);
    if reply.Err? {
      return Err(InferenceFailed(reply.error)), messages, k + 1, x;
    }
    var response := reply.value;
    var text := ExtractText(response.content);
    var calls := ExtractToolCalls(response.content);
    if response.stopReason == Some(ToolUseStop) {
      var next := toolRounds + 1;
      if next > e.maxRounds {
        return Err(MaxToolRounds(e.maxRounds, next)), messages, k + 1, x;
      }
      var grown := messages + [Message(Assistant, response.content)];
      grown := ExecuteToolCalls(e.exec, x, calls, grown);
      r, out, inferences, executions := InferenceLoop(e, grown, next, k + 1, x + |calls|);
    } else {
      out := messages + [Message(Assistant, response.content)];
      r, inferences, executions := Ok(InferenceResult(text, toolRounds)), k + 1, x;
    }
  }

  /** The conversation only grows: whatever the outcome, the caller's messages are a prefix of
      what it holds afterwards, and the counters never go back. */
  lemma {:induction false} MessagesOnlyGrow(e: Env, messages: seq<Message>, toolRounds: nat, k: nat, x: nat)
    ensures var out := Loop(e, messages, toolRounds, k, x);
            messages <= out.messages && k <= out.inferences && x <= out.executions
    decreases e.maxRounds - toolRounds
  {
    match RequestFor(e.settings, e.system, messages, e.tools)
    case Err(_) =>
    case Ok(req) =>
      match e.brain(k, req)
      case Err(_) =>
      case Ok(resp) =>
        if resp.stopReason == Some(ToolUseStop) && toolRounds + 1 <= e.maxRounds {
          var calls := ExtractToolCalls(resp.content);
          var grown := messages + [Message(Assistant, resp.content)] + ToolResults(calls, e.exec, x);
          MessagesOnlyGrow(e, grown, toolRounds + 1, k + 1, x + |calls|);
        }
  }

  /** On success the rounds never exceed `max_tool_rounds`, and the conversation has grown by one
      assistant message per tool round, one result message per execution, and the final
      assistant message. */
  lemma {:induction false} SuccessAccounting(e: Env, messages: seq<Message>, toolRounds: nat, k: nat, x: nat)
    requires toolRounds <= e.maxRounds
    ensures var out := Loop(e, messages, toolRounds, k, x);
            out.result.Ok? ==>
              toolRounds <= out.result.value.toolRounds <= e.maxRounds &&
              out.inferences == k + (out.result.value.toolRounds - toolRounds) + 1 &&
              |out.messages| == |messages| + (out.result.value.toolRounds - toolRounds) + (out.executions - x) + 1
    decreases e.maxRounds - toolRounds
  {
    match RequestFor(e.settings, e.system, messages, e.tools)
    case Err(_) =>
    case Ok(req) =>
      match e.brain(k, req)
      case Err(_) =>
      case Ok(resp) =>
        if resp.stopReason == Some(ToolUseStop) && toolRounds + 1 <= e.maxRounds {
          var calls := ExtractToolCalls(resp.content);
          var grown := messages + [Message(Assistant, resp.content)] + ToolResults(calls, e.exec, x);
          SuccessAccounting(e, grown, toolRounds + 1, k + 1, x + |calls|);
          MessagesOnlyGrow(e, grown, toolRounds + 1, k + 1, x + |calls|);
        }
  }

  /** `MaxToolRounds` always reports the configured maximum and one round past it. */
  lemma {:induction false} MaxRoundsReportsOnePast(e: Env, messages: seq<Message>, toolRounds: nat, k: nat, x: nat)
    requires toolRounds <= e.maxRounds
    ensures var out := Loop(e, messages, toolRounds, k, x);
            out.result.Err? && out.result.error.MaxToolRounds? ==>
              out.result.error.maxRounds == e.maxRounds && out.result.error.actualRounds == e.maxRounds + 1
    decreases e.maxRounds - toolRounds
  {
    match RequestFor(e.settings, e.system, messages, e.tools)
    case Err(_) =>
    case Ok(req) =>
      match e.brain(k, req)
      case Err(_) =>
      case Ok(resp) =>
        if resp.stopReason == Some(ToolUseStop) && toolRounds + 1 <= e.maxRounds {
          var calls := ExtractToolCalls(resp.content);
          var grown := messages + [Message(Assistant, resp.content)] + ToolResults(calls, e.exec, x);
          MaxRoundsReportsOnePast(e, grown, toolRounds + 1, k + 1, x + |calls|);
        }
  }

  /** A conversation that opens with the user is never refused by the builder, so the loop only
      fails through the brain or the round limit. */
  lemma {:induction false} UserFirstNeverRefused(e: Env, messages: seq<Message>, toolRounds: nat, k: nat, x: nat)
    requires messages != [] && messages[0].role == User
    ensures var out := Loop(e, messages, toolRounds, k, x);
            !(out.result.Err? && out.result.error.RequestBuild?)
    decreases e.maxRounds - toolRounds
  {
    UserFirstBuilds(e.settings, e.system, messages, e.tools);
    var req := RequestFor(e.settings, e.system, messages, e.tools).value;
    match e.brain(k, req)
    case Err(_) =>
    case Ok(resp) =>
      if resp.stopReason == Some(ToolUseStop) && toolRounds + 1 <= e.maxRounds {
        var calls := ExtractToolCalls(resp.content);
        var grown := messages + [Message(Assistant, resp.content)] + ToolResults(calls, e.exec, x);
        assert grown[0] == messages[0];
        UserFirstNeverRefused(e, grown, toolRounds + 1, k + 1, x + |calls|);
      }
  }

  /** A brain that always asks for tools ends the loop with `MaxToolRounds`, after one inference
      per remaining round and one more. */
  lemma {:induction false} EndlessToolUseHitsLimit(e: Env, messages: seq<Message>, toolRounds: nat, k: nat, x: nat)
    requires messages != [] && messages[0].role == User && toolRounds <= e.maxRounds
    requires forall n: nat, req :: e.brain(n, req).Ok? && e.brain(n, req).value.stopReason == Some(ToolUseStop)
    ensures var out := Loop(e, messages, toolRounds, k, x);
            out.result == Err(MaxToolRounds(e.maxRounds, e.maxRounds + 1)) &&
            out.inferences == k + (e.maxRounds - toolRounds) + 1
    decreases e.maxRounds - toolRounds
  {
    UserFirstBuilds(e.settings, e.system, messages, e.tools);
    var req := RequestFor(e.settings, e.system, messages, e.tools).value;
    var resp := e.brain(k, req).value;
    if toolRounds + 1 <= e.maxRounds {
      var calls := ExtractToolCalls(resp.content);
      var grown := messages + [Message(Assistant, resp.content)] + ToolResults(calls, e.exec, x);
      assert grown[0] == messages[0];
      EndlessToolUseHitsLimit(e, grown, toolRounds + 1, k + 1, x + |calls|);
    }
  }

  /** A failing brain fails the loop at once with its own message, and nothing is appended. */
  lemma BrainFailureIsPassedOn(e: Env, messages: seq<Message>, toolRounds: nat, k: nat, x: nat)
    requires messages != [] && messages[0].role == User
    requires e.brain(k, RequestFor(e.settings, e.system, messages, e.tools).value).Err?
    ensures var out := Loop(e, messages, toolRounds, k, x);
            out.result == Err(InferenceFailed(e.brain(k, RequestFor(e.settings, e.system, messages, e.tools).value).error)) &&
            out.messages == messages
  {
  }

  /** The test with one tool round: a `ToolUse` reply, a successful `bash` run, then an `EndTurn`
      reply, leaves four messages and reports one tool round. */
  lemma OneToolRoundExample(s: BrainSettings, system: string, input: Json)
    ensures
      var toolReply := MessageResponse("test-id", [ToolUse("tool-1", "bash", input)], "test", Assistant,
                                      Some(ToolUseStop), None, None);
      var textReply := MessageResponse("test-id", [Text("Let me check that.")], "test", Assistant,
                                      Some(EndTurn), None, None);
      var e := Env(s, system, [], (n: nat, req: MessageRequest) => if n == 0 then Ok(toolReply) else Ok(textReply),
                   (n: nat, name: string, j: Json) => Ok(ToolExecutor.Success("hello")), 20);
      var out := Loop(e, [UserText("Check something")], 0, 0, 0);
      out.result == Ok(InferenceResult("Let me check that.", 1)) && |out.messages| == 4 &&
      out.messages[2] == Message(User, [ToolResult("tool-1", "hello", Some(false))])
  {
    var toolReply := MessageResponse("test-id", [ToolUse("tool-1", "bash", input)], "test", Assistant,
                                    Some(ToolUseStop), None, None);
    var textReply := MessageResponse("test-id", [Text("Let me check that.")], "test", Assistant,
                                    Some(EndTurn), None, None);
    var e := Env(s, system, [], (n: nat, req: MessageRequest) => if n == 0 then Ok(toolReply) else Ok(textReply),
                 (n: nat, name: string, j: Json) => Ok(ToolExecutor.Success("hello")), 20);
    var calls := ExtractToolCalls(toolReply.content);
    assert calls == [ToolCall("tool-1", "bash", input)];
    var grown := [UserText("Check something"), Message(Assistant, toolReply.content)] + ToolResults(calls, e.exec, 0);
    assert ExtractText(textReply.content) == "Let me check that.";
    assert Loop(e, [UserText("Check something")], 0, 0, 0) == Loop(e, grown, 1, 1, 1);
  }

  /** The test with a failing tool: the result message says "Error: Command failed" and is
      marked as an error. */
  lemma FailedToolExample(call: ToolCall)
    ensures ToolResults([call], (n: nat, name: string, j: Json) => Err("Command failed"), 0)
            == [Message(User, [ToolResult(call.id, "Error: Command failed", Some(true))])]
  {
    var exec: ExecOracle := (n: nat, name: string, j: Json) => Err("Command failed");
    var ms := ToolResults([call], exec, 0);
    assert ms[0] == ToolResultMessage(call, Err("Command failed"));
    assert "Error: " + "Command failed" == "Error: Command failed";
  }
}
