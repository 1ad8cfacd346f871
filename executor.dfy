/** The tool executor (src/executor/): the bash tool's definition, input parsing and output
    formatting (bash.rs), and the registry that holds the tools by name (runner.rs). Spawning
    `/bin/sh -c` is an oracle: `spawn(command)` is the captured output or the OS error text. */
module ToolExecutor {
  import opened Wrappers
  import opened Json
  import opened BrainTypes
  import Text

  /** `ToolOutput`: the text of a run and whether it failed. */
  datatype ToolOutput = ToolOutput(content: string, isError: bool)

  /** `ToolOutput::success`. */
  function Success(content: string): (o: ToolOutput)
    ensures o.content == content && !o.isError
  {
    ToolOutput(content, false)
  }

  /** `ToolOutput::error`. */
  function Failure(content: string): (o: ToolOutput)
    ensures o.content == content && o.isError
  {
    ToolOutput(content, true)
  }

  /** `ExecutorError` (foreign error values are carried as their text). */
  datatype ExecutorError =
    | UnknownTool(name: string)
    | InvalidInput(tool: string, msg: string)
    | SpawnFailed(tool: string, msg: string)
    | Timeout(tool: string, secs: nat)
    | OutputCaptureFailed(tool: string, msg: string)
    | Io(msg: string)
    | JsonFailed(msg: string)
    | TomlParse(msg: string)

  /** `ExecutorError`'s `Display`. */
  function ErrorText(e: ExecutorError): string
  {
    match e
    case UnknownTool(n) => "Unknown tool: " + n
    case InvalidInput(t, m) => "Invalid input for tool '" + t + "': " + m
    case SpawnFailed(t, m) => "Failed to spawn process for tool '" + t + "': " + m
    case Timeout(t, s) => "Execution timeout for tool '" + t + "' after " + Text.NatToString(s) + " seconds"
    case OutputCaptureFailed(t, m) => "Failed to capture output for tool '" + t + "': " + m
    case Io(m) => "IO error: " + m
    case JsonFailed(m) => "JSON error: " + m
    case TomlParse(m) => "TOML parse error: " + m
  }

  const BASH: string := "bash"

  /** `default_bash_description()`. */
  const DEFAULT_BASH_DESCRIPTION: string :=
    "Execute a shell command via /bin/sh -c.\nThe system is Linux.\nCommands run with daemon process privileges.\nStdout and stderr are captured. Exit code is returned."

  /** The JSON schema of the bash tool's input: one required string property, `command`. */
  function BashSchema(): (j: Json)
    ensures j.JObject? && "required" in j.fields && j.fields["required"] == JArray([JString("command")])
  {
    JObject(map[
      "type" := JString("object"),
      "properties" := JObject(map[
        "command" := JObject(map[
          "type" := JString("string"),
          "description" := JString("The bash command to execute")])]),
      "required" := JArray([JString("command")])])
  }

  /** `BashTool::definition`. */
  function BashDefinition(description: string): (d: ToolDefinition)
    ensures d.name == BASH && d.description == description && d.inputSchema == BashSchema()
  {
    ToolDefinition(BASH, description, BashSchema())
  }

  /** `serde_json::from_value::<BashInput>`: a map with a string `command` (other keys are
      ignored), or the sequence form of the struct, an array holding exactly that string. */
  function ParseBashInput(input: Json): (r: Option<string>)
    ensures r.Some? <==> StringField(input, "command").Some? ||
                         (input.JArray? && |input.items| == 1 && input.items[0].JString?)
    ensures StringField(input, "command").Some? ==> r == StringField(input, "command")
  {
    match input
    case JObject(_) => StringField(input, "command")
    case JArray(items) => if |items| == 1 && items[0].JString? then Some(items[0].s) else None
    case _ => None
  }

  /** What `Command::output` captures: both streams (already decoded) and the exit code, which
      is absent when the process was ended by a signal. */
  datatype ProcessOutput = ProcessOutput(stdout: string, stderr: string, code: Option<int>)

  /** `ExitStatus::success`: the process exited with code 0. */
  predicate Succeeded(code: Option<int>)
  {
    code == Some(0)
  }

  /** `status.code().unwrap_or(-1)`. */
  function ExitCodeText(code: Option<int>): string
  {
    Text.IntToString(if code.Some? then code.value else -1)
  }

  const STDOUT_TAG: string := "[stdout]\n"
  const STDERR_TAG: string := "[stderr]\n"
  const EXIT_TAG: string := "\n[exit_code]\n"

  function StdoutBlock(stdout: string): string
  {
    if stdout != [] then STDOUT_TAG + stdout else []
  }

  function StderrBlock(stdout: string, stderr: string): string
  {
    if stderr != [] then (if stdout != [] then "\n" else []) + STDERR_TAG + stderr else []
  }

  /** The content layout as a whole: a stdout block when there is output, a stderr block when
      there are errors (after a newline if the stdout block is there), then the exit code. */
  function Content(stdout: string, stderr: string, code: Option<int>): string
  {
    StdoutBlock(stdout) + StderrBlock(stdout, stderr) + EXIT_TAG + ExitCodeText(code)
  }

  /** The content-building part of `run`, one `push_str` at a time. */
  method FormatContent(stdout: string, stderr: string, code: Option<int>) returns (content: string)
    ensures content == Content(stdout, stderr, code)
  {
    content := [];
    if stdout != [] {
      content := content + STDOUT_TAG;
      content := content + stdout;
    }
    assert content == StdoutBlock(stdout) && (content != [] <==> stdout != []);
    ghost var before := content;
    if stderr != [] {
      if content != [] {
        content := content + "\n";
      }
      content := content + STDERR_TAG;
      content := content + stderr;
    }
    assert content == before + StderrBlock(stdout, stderr);
    content := content + EXIT_TAG + ExitCodeText(code);
  }

  /** The stdout block opens the content exactly when there was output. */
  lemma StdoutBlockIffOutput(stdout: string, stderr: string, code: Option<int>)
    ensures STDOUT_TAG <= Content(stdout, stderr, code) <==> stdout != []
  {
    var c := Content(stdout, stderr, code);
    if stdout == [] {
      assert c[4] != STDOUT_TAG[4] || c[0] != STDOUT_TAG[0];
    }
  }

  /** With nothing on either stream, only the exit-code block remains. */
  lemma SilentRunShowsOnlyExitCode(code: Option<int>)
    ensures Content([], [], code) == EXIT_TAG + ExitCodeText(code)
  {
  }

  /** Whatever the streams hold, the content ends with the exit-code block. */
  lemma ContentEndsWithExitCode(stdout: string, stderr: string, code: Option<int>)
    ensures var c := Content(stdout, stderr, code);
            var tail := EXIT_TAG + ExitCodeText(code);
            |c| >= |tail| && c[|c| - |tail|..] == tail
  {
    var head := StdoutBlock(stdout) + StderrBlock(stdout, stderr);
    var x := ExitCodeText(code);
    assert Content(stdout, stderr, code) == head + EXIT_TAG + x;
    EndsWith(head, EXIT_TAG, x);
  }

  lemma EndsWith<T>(a: seq<T>, b: seq<T>, c: seq<T>)
    ensures var s := a + b + c;
            |s| >= |b + c| && s[|s| - |b + c|..] == b + c
  {
    assert a + b + c == a + (b + c);
    assert (a + (b + c))[|a|..] == b + c;
  }

  /** With both streams present, the blocks appear in order, separated by one newline. */
  lemma BothStreamsLayout(stdout: string, stderr: string, code: Option<int>)
    requires stdout != [] && stderr != []
    ensures Content(stdout, stderr, code) == STDOUT_TAG + stdout + "\n" + STDERR_TAG + stderr + EXIT_TAG + ExitCodeText(code)
  {
  }

  /** A run the kernel ended without an exit code reports `-1`. */
  lemma SignalledRunReportsMinusOne()
    ensures ExitCodeText(None) == "-1"
  {
  }

  /** `BashTool::run`: parse the input, spawn `/bin/sh -c command`, format what it printed, and
      flag the result as an error unless the exit status is success. */
  method RunBash(input: Json, describe: Json -> string, spawn: string -> Result<ProcessOutput, string>)
    returns (r: Result<ToolOutput, ExecutorError>)
    ensures ParseBashInput(input).None? ==> r == Err(InvalidInput(BASH, describe(input)))
    ensures ParseBashInput(input).Some? && spawn(ParseBashInput(input).value).Err? ==>
              r == Err(SpawnFailed(BASH, spawn(ParseBashInput(input).value).error))
    ensures ParseBashInput(input).Some? && spawn(ParseBashInput(input).value).Ok? ==>
              var out := spawn(ParseBashInput(input).value).value;
              r == Ok(ToolOutput(Content(out.stdout, out.stderr, out.code), !Succeeded(out.code)))
  {
    var command := ParseBashInput(input);
    if command.None? {
      return Err(InvalidInput(BASH, describe(input)));
    }
    var spawned := spawn(command.value);
    if spawned.Err? {
      return Err(SpawnFailed(BASH, spawned.error));
    }
    var out := spawned.value;
    var content := FormatContent(out.stdout, out.stderr, out.code);
    r := Ok(ToolOutput(content, !Succeeded(out.code)));
  }

  /** The registered tool kinds; bash is the only one. */
  datatype Tool = Bash(description: string)

  function Definition(t: Tool): (d: ToolDefinition)
    ensures d.name == BASH
  {
    match t
    case Bash(desc) => BashDefinition(desc)
  }

  /** The registry `init` builds from the loaded descriptions: only bash, described by its
      configured text or by the default one. */
  function InitialTools(descriptions: map<string, string>): (tools: map<string, Tool>)
    ensures tools.Keys == {BASH}
    ensures BASH in descriptions ==> tools[BASH] == Bash(descriptions[BASH])
    ensures BASH !in descriptions ==> tools[BASH] == Bash(DEFAULT_BASH_DESCRIPTION)
  {
    map[BASH := Bash(if BASH in descriptions then descriptions[BASH] else DEFAULT_BASH_DESCRIPTION)]
  }

  class Executor {
    /** The tools by name, as `init` registered them. */
    const tools: map<string, Tool>

    /** `Executor::init`, given what `load_tool_descriptions` read (empty when it failed). */
    constructor (descriptions: map<string, string>)
      ensures tools == InitialTools(descriptions)
    {
      tools := InitialTools(descriptions);
    }

    /** `tool_definitions`: one definition per registered tool, in the map's iteration order,
        which is left unspecified. */
    method ToolDefinitions() returns (defs: seq<ToolDefinition>)
      ensures |defs| == |tools.Keys|
      ensures forall n :: n in tools ==> Definition(tools[n]) in defs
      ensures forall d :: d in defs ==> exists n :: n in tools && d == Definition(tools[n])
    {
      var table := tools;
      var remaining := table.Keys;
      defs := [];
      while remaining != {}
        invariant remaining <= table.Keys
        invariant |defs| + |remaining| == |table.Keys|
        invariant forall n :: n in table && n !in remaining ==> Definition(table[n]) in defs
        invariant forall d :: d in defs ==> exists n :: n in table && d == Definition(table[n])
        decreases |remaining|
      {
        var n :| n in remaining;
        defs := defs + [Definition(table[n])];
        remaining := remaining - {n};
      }
    }

    /** `execute`: an unregistered name is refused without running anything; bash runs its
        input. */
    method Execute(name: string, input: Json, describe: Json -> string,
                   spawn: string -> Result<ProcessOutput, string>)
      returns (r: Result<ToolOutput, ExecutorError>, ran: bool)
      ensures name !in tools ==> r == Err(UnknownTool(name)) && !ran
      ensures name in tools <==> ran
      ensures ran && ParseBashInput(input).None? ==> r == Err(InvalidInput(BASH, describe(input)))
      ensures ran && ParseBashInput(input).Some? && spawn(ParseBashInput(input).value).Err? ==>
                r == Err(SpawnFailed(BASH, spawn(ParseBashInput(input).value).error))
      ensures ran && ParseBashInput(input).Some? && spawn(ParseBashInput(input).value).Ok? ==>
                var out := spawn(ParseBashInput(input).value).value;
                r == Ok(ToolOutput(Content(out.stdout, out.stderr, out.code), !Succeeded(out.code)))
    {
      if name !in tools {
        return Err(UnknownTool(name)), false;
      }
      match tools[name]
      case Bash(_) =>
        r := RunBash(input, describe, spawn);
        ran := true;
    }
  }

  /** An input without a string `command` (here: the wrong key) is refused as invalid. */
  lemma WrongFieldIsInvalid()
    ensures ParseBashInput(JObject(map["wrong_field" := JString("value")])).None?
  {
  }

  /** Exit code 0 is the one non-error outcome, and exit code 1 is an error. */
  lemma ExitCodesDecideError(c: int)
    ensures Succeeded(Some(c)) <==> c == 0
    ensures !Succeeded(Some(1)) && !Succeeded(None)
  {
  }
}
