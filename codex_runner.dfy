/**
 * The in-process engine runner (codex_runner.rs): project an agent's run
 * settings into a profile named after the agent, overlay its servers onto
 * the base configuration, build the overrides (absolute cwd, non-blank base
 * instructions, verbatim sandbox mode and tool toggles), submit the task and
 * drain the engine's events into stdout and stderr.
 *
 * The engine itself is abstract: the base configuration is an input, and
 * loading the final configuration, starting a conversation and submitting the
 * task is one function from the configuration to a stream of events.
 */
module CodexRunner {
  import opened Wrappers
  import opened Strings
  import opened Paths
  import opened Naming
  import opened ModelTypes
  import opened LoaderServers

  /** A profile of the engine's configuration: only the fields the runner sets. */
  datatype ConfigProfile = ConfigProfile(
    model: Option<string>,
    modelProvider: Option<string>,
    approvalPolicy: Option<string>,
    disableResponseStorage: Option<bool>,
    modelReasoningEffort: Option<string>,
    modelReasoningSummary: Option<string>,
    modelVerbosity: Option<string>,
    chatgptBaseUrl: Option<string>)

  /** `ConfigProfile::default()` */
  const EmptyProfile := ConfigProfile(None, None, None, None, None, None, None, None)

  /** The parts of the engine's base configuration the runner touches. */
  datatype EngineConfig = EngineConfig(
    profile: Option<string>,
    profiles: map<string, ConfigProfile>,
    mcpServers: map<string, McpServerConfig>)

  /** The engine's configuration overrides the runner sets. */
  datatype ConfigOverrides = ConfigOverrides(
    configProfile: Option<string>,
    cwd: Option<string>,
    baseInstructions: Option<string>,
    sandboxMode: Option<string>,
    includePlanTool: Option<bool>,
    includeApplyPatchTool: Option<bool>,
    includeViewImageTool: Option<bool>,
    toolsWebSearchRequest: Option<bool>)

  /** The engine's events, reduced to what the runner distinguishes. */
  datatype EventMsg =
    | TaskStarted
    | TaskComplete(lastAgentMessage: Option<string>)
    | AgentMessage(message: string)
    | ShutdownComplete
    | Error(message: string)
    | StreamError(message: string)
    | Background(message: string)
    /** Every event the runner only logs. */
    | Other

  /** The events the conversation delivers in order, after which receiving fails with `failure`. */
  datatype EventStream = EventStream(events: seq<EventMsg>, failure: string)

  /** `CodexRunOutput` */
  datatype RunOutput = RunOutput(ok: bool, status: int, stdout: string, stderr: string)

  /** What the runner needs from the engine. */
  datatype Engine = Engine(
    /** Locating the engine home and loading its config file. */
    base: Result<EngineConfig, string>,
    /** Loading the final configuration, starting a conversation and submitting the task. */
    launch: (EngineConfig, ConfigOverrides, string) -> Result<EventStream, string>)

  // ------------------------------------------------------------- the profile

  /** The profile of an agent: each run field that is set, and nothing else. */
  function ProfileOf(run: Option<AgentRun>): ConfigProfile {
    match run
    case None => EmptyProfile
    case Some(r) => ConfigProfile(r.model, r.modelProvider, r.approvalPolicy, r.disableResponseStorage,
      r.modelReasoningEffort, r.modelReasoningSummary, r.modelVerbosity, r.chatgptBaseUrl)
  }

  /** The profile, filled one field at a time from the run settings. */
  method BuildProfile(run: Option<AgentRun>) returns (profile: ConfigProfile)
    ensures profile == ProfileOf(run)
  {
    profile := EmptyProfile;
    if run.Some? {
      var r := run.value;
      if r.model.Some? { profile := profile.(model := r.model); }
      if r.modelProvider.Some? { profile := profile.(modelProvider := r.modelProvider); }
      if r.approvalPolicy.Some? { profile := profile.(approvalPolicy := r.approvalPolicy); }
      if r.disableResponseStorage.Some? { profile := profile.(disableResponseStorage := r.disableResponseStorage); }
      if r.modelReasoningEffort.Some? { profile := profile.(modelReasoningEffort := r.modelReasoningEffort); }
      if r.modelReasoningSummary.Some? { profile := profile.(modelReasoningSummary := r.modelReasoningSummary); }
      if r.modelVerbosity.Some? { profile := profile.(modelVerbosity := r.modelVerbosity); }
      if r.chatgptBaseUrl.Some? { profile := profile.(chatgptBaseUrl := r.chatgptBaseUrl); }
    }
  }

  /** The profile never invents a value: whatever it sets comes from the run settings, unchanged. */
  lemma ProfileInventsNothing(run: Option<AgentRun>)
    ensures var p := ProfileOf(run);
      && (run.None? ==> p == EmptyProfile)
      && (p.model.Some? ==> run.Some? && run.value.model == p.model)
      && (p.modelProvider.Some? ==> run.Some? && run.value.modelProvider == p.modelProvider)
      && (p.approvalPolicy.Some? ==> run.Some? && run.value.approvalPolicy == p.approvalPolicy)
      && (p.disableResponseStorage.Some? ==> run.Some? && run.value.disableResponseStorage == p.disableResponseStorage)
      && (p.modelReasoningEffort.Some? ==> run.Some? && run.value.modelReasoningEffort == p.modelReasoningEffort)
      && (p.modelReasoningSummary.Some? ==> run.Some? && run.value.modelReasoningSummary == p.modelReasoningSummary)
      && (p.modelVerbosity.Some? ==> run.Some? && run.value.modelVerbosity == p.modelVerbosity)
      && (p.chatgptBaseUrl.Some? ==> run.Some? && run.value.chatgptBaseUrl == p.chatgptBaseUrl)
  {
  }

  /** The run settings a profile holds: projecting them back gives the same profile. */
  function RunOfProfile(p: ConfigProfile): AgentRun {
    EmptyRun.(model := p.model, modelProvider := p.modelProvider, approvalPolicy := p.approvalPolicy,
      disableResponseStorage := p.disableResponseStorage, modelReasoningEffort := p.modelReasoningEffort,
      modelReasoningSummary := p.modelReasoningSummary, modelVerbosity := p.modelVerbosity,
      chatgptBaseUrl := p.chatgptBaseUrl)
  }

  /** Every profile is the projection of some run settings, and the projection forgets only the override fields. */
  lemma ProfileRoundTrip(p: ConfigProfile, run: AgentRun)
    ensures ProfileOf(Some(RunOfProfile(p))) == p
    ensures RunOfProfile(ProfileOf(Some(run))) ==
      run.(sandboxMode := None, includePlanTool := None, includeApplyPatchTool := None,
           includeViewImageTool := None, toolsWebSearchRequest := None)
  {
  }

  // ----------------------------------------------------- the configuration

  /** The configuration `exec_task` builds (codex_runner.rs:88-124): the base with the agent's profile selected and its servers overlaid. */
  function ConfigFor(base: EngineConfig, prepared: PreparedAgent): EngineConfig {
    var safe := SafeName(prepared.name);
    EngineConfig(Some(safe), base.profiles[safe := ProfileOf(prepared.run)], base.mcpServers + prepared.mcpServers)
  }

  method PrepareConfig(base: EngineConfig, prepared: PreparedAgent) returns (cfg: EngineConfig)
    ensures cfg == ConfigFor(base, prepared)
  {
    var safe := SafeName(prepared.name);
    cfg := base.(profile := Some(safe));
    var profile := BuildProfile(prepared.run);
    cfg := cfg.(profiles := cfg.profiles[safe := profile]);
    var servers := InsertAll(cfg.mcpServers, prepared.mcpServers);
    cfg := cfg.(mcpServers := servers);
  }

  /** The profile is named after the agent's safe name, selected, and holds the projected run settings. */
  lemma ProfileSelected(base: EngineConfig, prepared: PreparedAgent)
    ensures var cfg := ConfigFor(base, prepared);
      && cfg.profile == Some(SafeName(prepared.name))
      && SafeName(prepared.name) in cfg.profiles
      && cfg.profiles[SafeName(prepared.name)] == ProfileOf(prepared.run)
      && (forall n | n in base.profiles && n != SafeName(prepared.name) :: n in cfg.profiles && cfg.profiles[n] == base.profiles[n])
  {
  }

  /** Attached servers replace base entries under the same key; other base entries stay. */
  lemma ServersOverwrite(base: EngineConfig, prepared: PreparedAgent)
    ensures var cfg := ConfigFor(base, prepared);
      && cfg.mcpServers.Keys == base.mcpServers.Keys + prepared.mcpServers.Keys
      && (forall k | k in prepared.mcpServers :: cfg.mcpServers[k] == prepared.mcpServers[k])
      && (forall k | k in base.mcpServers && k !in prepared.mcpServers :: cfg.mcpServers[k] == base.mcpServers[k])
  {
  }

  // ------------------------------------------------------------ the overrides

  /** `cwd` accepted by the runner: non-empty and absolute. */
  predicate CwdOk(cwd: string) { cwd != "" && IsAbsolute(cwd) }

  /** The `ConfigOverrides` `exec_task` builds (codex_runner.rs:126-150) for an agent and an accepted cwd. */
  function OverridesFor(prepared: PreparedAgent, cwd: string): ConfigOverrides {
    var instr := if prepared.instructions.Some? && !IsBlank(prepared.instructions.value) then prepared.instructions else None;
    var o := ConfigOverrides(Some(SafeName(prepared.name)), Some(cwd), instr, None, None, None, None, None);
    match prepared.run
    case None => o
    case Some(r) => o.(sandboxMode := r.sandboxMode, includePlanTool := r.includePlanTool,
      includeApplyPatchTool := r.includeApplyPatchTool, includeViewImageTool := r.includeViewImageTool,
      toolsWebSearchRequest := r.toolsWebSearchRequest)
  }

  const CwdError := "cwd must be an absolute path"

  method BuildOverrides(prepared: PreparedAgent, cwd: string) returns (r: Result<ConfigOverrides, string>)
    ensures !CwdOk(cwd) ==> r == Err(CwdError)
    ensures CwdOk(cwd) ==> r == Ok(OverridesFor(prepared, cwd))
  {
    if cwd == "" || !IsAbsolute(cwd) {
      return Err(CwdError);
    }
    var overrides := ConfigOverrides(Some(SafeName(prepared.name)), Some(cwd), None, None, None, None, None, None);
    if prepared.instructions.Some? && !IsBlank(prepared.instructions.value) {
      overrides := overrides.(baseInstructions := prepared.instructions);
    }
    if prepared.run.Some? {
      var run := prepared.run.value;
      overrides := overrides.(sandboxMode := run.sandboxMode);
      overrides := overrides.(includePlanTool := run.includePlanTool);
      overrides := overrides.(includeApplyPatchTool := run.includeApplyPatchTool);
      overrides := overrides.(includeViewImageTool := run.includeViewImageTool);
      overrides := overrides.(toolsWebSearchRequest := run.toolsWebSearchRequest);
    }
    return Ok(overrides);
  }

  /** Base instructions are set exactly for present, non-blank instructions, and then verbatim. */
  lemma BaseInstructionsNonBlank(prepared: PreparedAgent, cwd: string)
    ensures var o := OverridesFor(prepared, cwd);
      && (o.baseInstructions.Some? <==> prepared.instructions.Some? && !IsBlank(prepared.instructions.value))
      && (o.baseInstructions.Some? ==> o.baseInstructions == prepared.instructions)
  {
  }

  /** The sandbox mode and the four tool toggles are the run's own, and the profile selection is the agent's. */
  lemma OverridesCopyRun(prepared: PreparedAgent, cwd: string)
    ensures var o := OverridesFor(prepared, cwd);
      && o.configProfile == ConfigFor(EngineConfig(None, map[], map[]), prepared).profile
      && o.cwd == Some(cwd)
      && (prepared.run.Some? ==>
            var r := prepared.run.value;
            && o.sandboxMode == r.sandboxMode && o.includePlanTool == r.includePlanTool
            && o.includeApplyPatchTool == r.includeApplyPatchTool && o.includeViewImageTool == r.includeViewImageTool
            && o.toolsWebSearchRequest == r.toolsWebSearchRequest)
      && (prepared.run.None? ==>
            o.sandboxMode.None? && o.includePlanTool.None? && o.includeApplyPatchTool.None?
            && o.includeViewImageTool.None? && o.toolsWebSearchRequest.None?)
  {
  }

  // ----------------------------------------------------------- the event loop

  const ErrorTag := "error: "
  const StreamErrorTag := "stream_error: "

  /** One output line: a tag, the text and a newline. */
  function Line(tag: string, text: string): string { tag + text + "\n" }

  /** What one event adds to stdout. */
  function StdoutPart(e: EventMsg): string {
    if e.TaskComplete? && e.lastAgentMessage.Some? then Line("", e.lastAgentMessage.value) else ""
  }

  /** What one event adds to stderr. */
  function StderrPart(e: EventMsg): string {
    match e
    case Error(m) => Line(ErrorTag, m)
    case StreamError(m) => Line(StreamErrorTag, m)
    case Background(m) => Line("", m)
    case _ => ""
  }

  /** The parts the given events add to a buffer, in arrival order. */
  function Collect(events: seq<EventMsg>, part: EventMsg -> string): string {
    if |events| == 0 then "" else Collect(events[..|events| - 1], part) + part(events[|events| - 1])
  }

  /** stdout after the given events. */
  function StdoutOf(events: seq<EventMsg>): string { Collect(events, StdoutPart) }

  /** stderr after the given events. */
  function StderrOf(events: seq<EventMsg>): string { Collect(events, StderrPart) }

  lemma CollectSnoc(events: seq<EventMsg>, e: EventMsg, part: EventMsg -> string)
    ensures Collect(events + [e], part) == Collect(events, part) + part(e)
  {
    assert (events + [e])[..|events|] == events;
  }

  /** Collecting is a homomorphism from event sequences to strings. */
  lemma {:induction false} CollectAppend(a: seq<EventMsg>, b: seq<EventMsg>, part: EventMsg -> string)
    ensures Collect(a + b, part) == Collect(a, part) + Collect(b, part)
    decreases |b|
  {
    if |b| == 0 {
      assert a + b == a;
    } else {
      var b0 := b[..|b| - 1];
      var last := b[|b| - 1];
      calc {
        Collect(a + b, part);
        == { assert a + b == (a + b0) + [last]; CollectSnoc(a + b0, last, part); }
        Collect(a + b0, part) + part(last);
        == { CollectAppend(a, b0, part); }
        Collect(a, part) + Collect(b0, part) + part(last);
        == { assert b == b0 + [last]; CollectSnoc(b0, last, part); }
        Collect(a, part) + Collect(b, part);
      }
    }
  }

  /** The position of the first `ShutdownComplete`, if any. */
  function FirstShutdown(events: seq<EventMsg>): (r: Option<nat>)
    ensures r.Some? ==> r.value < |events| && events[r.value] == ShutdownComplete
    ensures r.Some? ==> forall j | 0 <= j < r.value :: events[j] != ShutdownComplete
    ensures r.None? ==> forall j | 0 <= j < |events| :: events[j] != ShutdownComplete
  {
    if events == [] then None
    else if events[0] == ShutdownComplete then Some(0)
    else match FirstShutdown(events[1..])
      case None => None
      case Some(i) => Some(i + 1)
  }

  const ReceiveErrorPrefix := "error receiving event: "

  /** The event loop of `exec_task` (codex_runner.rs:184-362) as a fold: the events up to the first shutdown, or all of them and the receive failure. */
  function DrainSpec(stream: EventStream): RunOutput {
    match FirstShutdown(stream.events)
    case Some(i) => RunOutput(true, 0, StdoutOf(stream.events[..i]), StderrOf(stream.events[..i]))
    case None => RunOutput(false, 1, StdoutOf(stream.events),
      StderrOf(stream.events) + Line(ReceiveErrorPrefix, stream.failure))
  }

  method DrainEvents(stream: EventStream) returns (out: RunOutput)
    ensures out == DrainSpec(stream)
  {
    var events := stream.events;
    var stdoutBuf := "";
    var stderrBuf := "";
    var ok := false;
    var i := 0;
    while i < |events|
      invariant 0 <= i <= |events|
      invariant forall j | 0 <= j < i :: events[j] != ShutdownComplete
      invariant stdoutBuf == StdoutOf(events[..i]) && stderrBuf == StderrOf(events[..i])
      decreases |events| - i
    {
      var e := events[i];
      assert events[..i + 1] == events[..i] + [e];
      CollectSnoc(events[..i], e, StdoutPart);
      CollectSnoc(events[..i], e, StderrPart);
      match e {
        case TaskComplete(msg) =>
          if msg.Some? {
            stdoutBuf := stdoutBuf + Line("", msg.value);
          }
        case ShutdownComplete =>
          ok := true;
          break;
        case Error(m) =>
          stderrBuf := stderrBuf + Line(ErrorTag, m);
        case StreamError(m) =>
          stderrBuf := stderrBuf + Line(StreamErrorTag, m);
        case Background(m) =>
          stderrBuf := stderrBuf + Line("", m);
        case _ =>
      }
      i := i + 1;
    }
    if !ok {
      assert events[..i] == events;
      stderrBuf := stderrBuf + Line(ReceiveErrorPrefix, stream.failure);
    }
    var statusCode := if ok then 0 else 1;
    out := RunOutput(ok, statusCode, stdoutBuf, stderrBuf);
  }

  /** The run is ok exactly when a shutdown arrives, and the status is 0 exactly then. */
  lemma OkIffShutdown(stream: EventStream)
    ensures DrainSpec(stream).ok <==> ShutdownComplete in stream.events
    ensures DrainSpec(stream).status == (if DrainSpec(stream).ok then 0 else 1)
  {
    if ShutdownComplete in stream.events {
      var j :| 0 <= j < |stream.events| && stream.events[j] == ShutdownComplete;
      assert FirstShutdown(stream.events).Some?;
    }
  }

  /** Nothing that arrives after the first shutdown reaches the output. */
  lemma AfterShutdownIgnored(before: seq<EventMsg>, after: seq<EventMsg>, failure: string, failure2: string)
    requires ShutdownComplete !in before
    ensures DrainSpec(EventStream(before + [ShutdownComplete] + after, failure)) ==
            DrainSpec(EventStream(before + [ShutdownComplete], failure2))
  {
    var e1 := before + [ShutdownComplete] + after;
    var e2 := before + [ShutdownComplete];
    FirstShutdownAt(e1, |before|);
    FirstShutdownAt(e2, |before|);
    assert e1[..|before|] == before && e2[..|before|] == before;
  }

  lemma FirstShutdownAt(events: seq<EventMsg>, i: nat)
    requires i < |events| && events[i] == ShutdownComplete
    requires forall j | 0 <= j < i :: events[j] != ShutdownComplete
    ensures FirstShutdown(events) == Some(i)
  {
    var r := FirstShutdown(events);
    assert r.Some?;
  }

  /** Diagnostics never reach stdout. */
  lemma DiagnosticsStayOffStdout(before: seq<EventMsg>, e: EventMsg, after: seq<EventMsg>)
    requires e.Error? || e.StreamError? || e.Background?
    ensures StdoutOf(before + [e] + after) == StdoutOf(before + after)
  {
    CollectSnoc(before, e, StdoutPart);
    CollectAppend(before + [e], after, StdoutPart);
    CollectAppend(before, after, StdoutPart);
  }

  /** Agent output never reaches stderr. */
  lemma OutputStaysOffStderr(before: seq<EventMsg>, e: EventMsg, after: seq<EventMsg>)
    requires e.TaskComplete? || e.AgentMessage?
    ensures StderrOf(before + [e] + after) == StderrOf(before + after)
  {
    CollectSnoc(before, e, StderrPart);
    CollectAppend(before + [e], after, StderrPart);
    CollectAppend(before, after, StderrPart);
  }

  /** The task's final message ends up on stdout, followed by a newline. */
  lemma TaskMessageOnStdout(events: seq<EventMsg>, m: string)
    ensures StdoutOf(events + [TaskComplete(Some(m))]) == StdoutOf(events) + m + "\n"
  {
    CollectSnoc(events, TaskComplete(Some(m)), StdoutPart);
  }

  // ---------------------------------------------------------------- the run

  /** `exec_task`: base config, cwd check, engine launch, then the drain. */
  function ExecSpec(prepared: PreparedAgent, task: string, cwd: string, engine: Engine): Result<RunOutput, string> {
    match engine.base
    case Err(e) => Err(e)
    case Ok(base) =>
      if !CwdOk(cwd) then Err(CwdError)
      else match engine.launch(ConfigFor(base, prepared), OverridesFor(prepared, cwd), task)
        case Err(e) => Err(e)
        case Ok(stream) => Ok(DrainSpec(stream))
  }

  method ExecTask(prepared: PreparedAgent, task: string, cwd: string, engine: Engine) returns (r: Result<RunOutput, string>)
    ensures r == ExecSpec(prepared, task, cwd, engine)
  {
    if engine.base.Err? {
      return Err(engine.base.error);
    }
    var cfg := PrepareConfig(engine.base.value, prepared);
    var overrides := BuildOverrides(prepared, cwd);
    if overrides.Err? {
      return Err(overrides.error);
    }
    var started := engine.launch(cfg, overrides.value, task);
    if started.Err? {
      return Err(started.error);
    }
    var output := DrainEvents(started.value);
    return Ok(output);
  }

  /** A relative or empty cwd is refused once the base configuration loads, whatever the engine would do. */
  lemma RelativeCwdRefused(prepared: PreparedAgent, task: string, cwd: string, engine: Engine)
    requires engine.base.Ok? && !IsAbsolute(cwd)
    ensures ExecSpec(prepared, task, cwd, engine) == Err(CwdError)
  {
  }

  /** What the engine is handed: the agent's profile and servers, and the overrides for the cwd. */
  lemma EngineSeesAgent(prepared: PreparedAgent, task: string, cwd: string, engine: Engine)
    requires engine.base.Ok? && CwdOk(cwd)
    ensures var launched := engine.launch(ConfigFor(engine.base.value, prepared), OverridesFor(prepared, cwd), task);
      && (launched.Err? ==> ExecSpec(prepared, task, cwd, engine) == Err(launched.error))
      && (launched.Ok? ==> ExecSpec(prepared, task, cwd, engine) == Ok(DrainSpec(launched.value)))
  {
  }
}
