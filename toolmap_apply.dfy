/**
 * `apply_mapping` (toolmap/apply.rs): rewrites an agent's tool references
 * through its provider's mapping table. A bare reference is first renamed by
 * the alias table, then looked up exactly: a built-in toggle switches on its
 * run setting, terminal access is consumed, a server tool becomes a
 * namespaced reference (and, when allowed, a server definition), and an
 * unmapped name stays bare under its resolved name. Namespaced references
 * pass through.
 *
 * The agent is passed by exclusive reference in the Rust code; here it goes in
 * as a value and the updated agent comes back.
 */
module ToolMapApply {
  import opened Wrappers
  import opened McpTypes
  import opened ModelTypes
  import opened ToolMapTypes

  /** The table of a provider: VS Code has its own, Anthropic and Codex share the Anthropic one. */
  function TableFor(provider: ProviderId, mapping: LoadedMapping): ToolMappingTable {
    match provider
    case Vscode => mapping.vscode
    case Anthropic => mapping.anthropic
    case Codex => mapping.anthropic
  }

  /** The alias-resolved name of a bare tool. */
  function Resolve(t: ToolMappingTable, tool: string): string {
    if tool in t.aliases then t.aliases[tool] else tool
  }

  /** Where a bare tool goes after alias resolution, if it is mapped. */
  function Dest(t: ToolMappingTable, tool: string): Option<MappingDest> {
    var key := Resolve(t, tool);
    if key in t.dests then Some(t.dests[key]) else None
  }

  /** What one reference becomes: itself, nothing, a namespaced server tool, or a bare resolved name. */
  function RefOut(t: ToolMappingTable, r: McpToolRef): seq<McpToolRef> {
    match r
    case Namespaced(_, _) => [r]
    case Bare(tool) =>
      match Dest(t, tool)
      case None => [Bare(Resolve(t, tool))]
      case Some(Builtin(_)) => []
      case Some(McpTool(key, name, _, _, _)) => [Namespaced(key, name)]
  }

  /** The server definition a server destination contributes. */
  function ServerOf(key: string, command: string, args: seq<string>, env: map<string, string>): NormalizedMcpServer {
    NormalizedMcpServer(key, Stdio(command, args, env), McpServerOrigin(Mapping, None, Some("toolmap default")))
  }

  /** The server definition one reference contributes: only a bare tool mapped to a server, and only when allowed. */
  function ServerOut(t: ToolMappingTable, r: McpToolRef, allow: bool): (out: seq<NormalizedMcpServer>)
    ensures |out| <= 1
    ensures out != [] <==> allow && r.Bare? && Dest(t, r.tool).Some? && Dest(t, r.tool).value.McpTool?
  {
    if allow && r.Bare? then
      match Dest(t, r.tool)
      case Some(McpTool(key, _, command, args, env)) => [ServerOf(key, command, args, env)]
      case _ => []
    else []
  }

  /** Switching on a built-in toggle; terminal access sets nothing. */
  function ToggleRun(run: AgentRun, b: BuiltinToggle): AgentRun {
    match b
    case Plan => run.(includePlanTool := Some(true))
    case ApplyPatch => run.(includeApplyPatchTool := Some(true))
    case ViewImage => run.(includeViewImageTool := Some(true))
    case WebSearch => run.(toolsWebSearchRequest := Some(true))
    case TerminalAccess => run
  }

  function RunStep(t: ToolMappingTable, run: AgentRun, r: McpToolRef): AgentRun {
    if r.Bare? && Dest(t, r.tool).Some? && Dest(t, r.tool).value.Builtin? then ToggleRun(run, Dest(t, r.tool).value.toggle)
    else run
  }

  /** The references produced for `rs`, in order. */
  function Refs(t: ToolMappingTable, rs: seq<McpToolRef>): seq<McpToolRef> {
    if rs == [] then [] else Refs(t, rs[..|rs| - 1]) + RefOut(t, rs[|rs| - 1])
  }

  /** The server definitions produced for `rs`, in order. */
  function Servers(t: ToolMappingTable, rs: seq<McpToolRef>, allow: bool): seq<NormalizedMcpServer> {
    if rs == [] then [] else Servers(t, rs[..|rs| - 1], allow) + ServerOut(t, rs[|rs| - 1], allow)
  }

  /** The run settings after the toggles of `rs` are applied to `run`. */
  function RunAfter(t: ToolMappingTable, rs: seq<McpToolRef>, run: AgentRun): AgentRun {
    if rs == [] then run else RunStep(t, RunAfter(t, rs[..|rs| - 1], run), rs[|rs| - 1])
  }

  /** `apply_mapping` as a function of its inputs: the updated agent and the custom servers. */
  function ApplySpec(provider: ProviderId, agent: AgentConfig, mapping: LoadedMapping, allow: bool): (AgentConfig, seq<NormalizedMcpServer>) {
    match agent.mcpToolRefs
    case None => (agent, [])
    case Some(rs) =>
      var t := TableFor(provider, mapping);
      var out := Refs(t, rs);
      (agent.(mcpToolRefs := if out == [] then None else Some(out), run := Some(RunAfter(t, rs, agent.run.GetOr(EmptyRun)))),
       Servers(t, rs, allow))
  }

  /** `apply_mapping`: one pass over the references, collecting new references, toggles and servers. */
  method ApplyMapping(provider: ProviderId, agent: AgentConfig, mapping: LoadedMapping, allow: bool)
    returns (updated: AgentConfig, customServers: seq<NormalizedMcpServer>)
    ensures (updated, customServers) == ApplySpec(provider, agent, mapping, allow)
  {
    customServers := [];
    if agent.mcpToolRefs.None? {
      return agent, customServers;
    }
    var refs := agent.mcpToolRefs.value;
    var table := TableFor(provider, mapping);
    var newRefs: seq<McpToolRef> := [];
    var run := agent.run.GetOr(EmptyRun);
    var i := 0;
    while i < |refs|
      invariant 0 <= i <= |refs|
      invariant newRefs == Refs(table, refs[..i])
      invariant customServers == Servers(table, refs[..i], allow)
      invariant run == RunAfter(table, refs[..i], agent.run.GetOr(EmptyRun))
    {
      ApplyStep(table, refs, i, allow, agent.run.GetOr(EmptyRun));
      match refs[i] {
        case Namespaced(key, tool) =>
          newRefs := newRefs + [Namespaced(key, tool)];
        case Bare(tool) =>
          var key := if tool in table.aliases then table.aliases[tool] else tool;
          if key in table.dests {
            match table.dests[key]
            case Builtin(b) =>
              match b {
                case Plan => run := run.(includePlanTool := Some(true));
                case ApplyPatch => run := run.(includeApplyPatchTool := Some(true));
                case ViewImage => run := run.(includeViewImageTool := Some(true));
                case WebSearch => run := run.(toolsWebSearchRequest := Some(true));
                case TerminalAccess =>
              }
            case McpTool(serverKey, name, command, args, env) =>
              newRefs := newRefs + [Namespaced(serverKey, name)];
              if allow {
                customServers := customServers + [ServerOf(serverKey, command, args, env)];
              }
          } else {
            newRefs := newRefs + [Bare(key)];
          }
      }
      i := i + 1;
    }
    assert refs[..i] == refs;
    updated := agent.(mcpToolRefs := if newRefs == [] then None else Some(newRefs), run := Some(run));
  }

  /** One reference more: each of the three folds takes one step. */
  lemma ApplyStep(t: ToolMappingTable, rs: seq<McpToolRef>, i: nat, allow: bool, run: AgentRun)
    requires i < |rs|
    ensures Refs(t, rs[..i + 1]) == Refs(t, rs[..i]) + RefOut(t, rs[i])
    ensures Servers(t, rs[..i + 1], allow) == Servers(t, rs[..i], allow) + ServerOut(t, rs[i], allow)
    ensures RunAfter(t, rs[..i + 1], run) == RunStep(t, RunAfter(t, rs[..i], run), rs[i])
  {
    assert rs[..i + 1][..i] == rs[..i];
  }

  // -------------------------------------------------------------- properties

  /**
   * What one reference becomes: a namespaced one is kept as it is; a bare
   * one is dropped exactly when its resolved name is a built-in toggle, comes
   * out namespaced exactly when it maps to a server tool (under that tool's
   * server key and name), and otherwise stays bare under its resolved name.
   */
  lemma RefOutCases(t: ToolMappingTable, r: McpToolRef)
    ensures |RefOut(t, r)| <= 1
    ensures r.Namespaced? ==> RefOut(t, r) == [r]
    ensures r.Bare? ==> (RefOut(t, r) == [] <==> Resolve(t, r.tool) in t.dests && t.dests[Resolve(t, r.tool)].Builtin?)
    ensures r.Bare? && Resolve(t, r.tool) in t.dests && t.dests[Resolve(t, r.tool)].McpTool? ==>
      RefOut(t, r) == [Namespaced(t.dests[Resolve(t, r.tool)].serverKey, t.dests[Resolve(t, r.tool)].tool)]
    ensures r.Bare? && Resolve(t, r.tool) !in t.dests ==> RefOut(t, r) == [Bare(if r.tool in t.aliases then t.aliases[r.tool] else r.tool)]
  {
  }

  /** Codex agents are rewritten through the Anthropic table, so the two providers give the same result. */
  lemma CodexUsesAnthropicTable(agent: AgentConfig, mapping: LoadedMapping, allow: bool)
    ensures ApplySpec(ProviderId.Codex, agent, mapping, allow) == ApplySpec(ProviderId.Anthropic, agent, mapping, allow)
    ensures TableFor(ProviderId.Codex, mapping) == mapping.anthropic && TableFor(ProviderId.Vscode, mapping) == mapping.vscode
  {
  }

  /**
   * `apply_mapping` leaves an agent without tool references untouched and
   * returns no server; otherwise it changes only the references and the run
   * settings (which are then always present), and references disappear
   * only when every one of them was consumed.
   */
  lemma ApplyChangesRefsAndRun(provider: ProviderId, agent: AgentConfig, mapping: LoadedMapping, allow: bool)
    ensures var r := ApplySpec(provider, agent, mapping, allow);
      && (agent.mcpToolRefs.None? ==> r == (agent, []))
      && (agent.mcpToolRefs.Some? ==>
            var t := TableFor(provider, mapping);
            && r.0 == agent.(mcpToolRefs := r.0.mcpToolRefs, run := r.0.run)
            && r.0.run.Some?
            && (r.0.mcpToolRefs.None? <==> Refs(t, agent.mcpToolRefs.value) == [])
            && (!allow ==> r.1 == []))
  {
    if agent.mcpToolRefs.Some? {
      NoServersUnlessAllowed(TableFor(provider, mapping), agent.mcpToolRefs.value);
    }
  }

  /** The rewrite works reference by reference: the output for `a + b` is the output for `a` followed by that for `b`. */
  lemma {:induction false} RefsConcat(t: ToolMappingTable, a: seq<McpToolRef>, b: seq<McpToolRef>)
    ensures Refs(t, a + b) == Refs(t, a) + Refs(t, b)
    decreases |b|
  {
    if b == [] {
      assert a + b == a;
    } else {
      var b' := b[..|b| - 1];
      assert (a + b)[..|a + b| - 1] == a + b';
      assert (a + b)[|a + b| - 1] == b[|b| - 1];
      RefsConcat(t, a, b');
    }
  }

  /** A namespaced reference stays exactly where it was relative to the output of its neighbours. */
  lemma NamespacedKeptInPlace(t: ToolMappingTable, a: seq<McpToolRef>, key: string, tool: string, b: seq<McpToolRef>)
    ensures Refs(t, a + [Namespaced(key, tool)] + b) == Refs(t, a) + [Namespaced(key, tool)] + Refs(t, b)
  {
    RefsConcat(t, a + [Namespaced(key, tool)], b);
    RefsConcat(t, a, [Namespaced(key, tool)]);
    assert [Namespaced(key, tool)][..0] == [];
  }

  /** References that are all namespaced come out unchanged. */
  lemma {:induction false} AllNamespacedUnchanged(t: ToolMappingTable, rs: seq<McpToolRef>)
    requires forall k | 0 <= k < |rs| :: rs[k].Namespaced?
    ensures Refs(t, rs) == rs
  {
    if rs != [] {
      AllNamespacedUnchanged(t, rs[..|rs| - 1]);
      assert rs[..|rs| - 1] + [rs[|rs| - 1]] == rs;
    }
  }

  /** Without `allow_custom_servers` no server definition is returned. */
  lemma {:induction false} NoServersUnlessAllowed(t: ToolMappingTable, rs: seq<McpToolRef>)
    ensures Servers(t, rs, false) == []
  {
    if rs != [] { NoServersUnlessAllowed(t, rs[..|rs| - 1]); }
  }

  /** Every returned server comes from a bare reference mapped to a server tool, and is marked as the mapping's. */
  lemma {:induction false} ServersFromMappedRefs(t: ToolMappingTable, rs: seq<McpToolRef>, allow: bool)
    ensures forall s <- Servers(t, rs, allow) ::
      && s.origin == McpServerOrigin(Mapping, None, Some("toolmap default"))
      && exists k | 0 <= k < |rs| :: (
        && rs[k].Bare? && Dest(t, rs[k].tool).Some? && Dest(t, rs[k].tool).value.McpTool?
        && s == ServerOf(Dest(t, rs[k].tool).value.serverKey, Dest(t, rs[k].tool).value.command,
          Dest(t, rs[k].tool).value.args, Dest(t, rs[k].tool).value.env))
  {
    if rs != [] {
      var rs' := rs[..|rs| - 1];
      ServersFromMappedRefs(t, rs', allow);
      forall s <- Servers(t, rs, allow)
        ensures exists k | 0 <= k < |rs| :: (
          && rs[k].Bare? && Dest(t, rs[k].tool).Some? && Dest(t, rs[k].tool).value.McpTool?
          && s == ServerOf(Dest(t, rs[k].tool).value.serverKey, Dest(t, rs[k].tool).value.command,
            Dest(t, rs[k].tool).value.args, Dest(t, rs[k].tool).value.env))
      {
        if s in Servers(t, rs', allow) {
          var k :| 0 <= k < |rs'| && rs'[k].Bare? && Dest(t, rs'[k].tool).Some? && Dest(t, rs'[k].tool).value.McpTool?
            && s == ServerOf(Dest(t, rs'[k].tool).value.serverKey, Dest(t, rs'[k].tool).value.command,
              Dest(t, rs'[k].tool).value.args, Dest(t, rs'[k].tool).value.env);
          assert rs[k] == rs'[k];
        } else {
          assert rs[|rs| - 1].Bare?;
        }
      }
    }
  }

  /** Some bare reference of `rs` resolves to the built-in toggle `b`. */
  predicate Hits(t: ToolMappingTable, rs: seq<McpToolRef>, b: BuiltinToggle) {
    exists k | 0 <= k < |rs| :: rs[k].Bare? && Dest(t, rs[k].tool) == Some(Builtin(b))
  }

  /** A run setting with its toggle: switched on when some reference hits it, otherwise as before. */
  function Toggled(before: Option<bool>, hit: bool): Option<bool> {
    if hit then Some(true) else before
  }

  /**
   * Each of the four toggles is switched on exactly when some reference hits
   * it and keeps its earlier value otherwise; the other nine run settings
   * are never touched.
   */
  lemma {:induction false} RunAfterFields(t: ToolMappingTable, rs: seq<McpToolRef>, run: AgentRun)
    ensures var r := RunAfter(t, rs, run);
      && r.includePlanTool == Toggled(run.includePlanTool, Hits(t, rs, Plan))
      && r.includeApplyPatchTool == Toggled(run.includeApplyPatchTool, Hits(t, rs, ApplyPatch))
      && r.includeViewImageTool == Toggled(run.includeViewImageTool, Hits(t, rs, ViewImage))
      && r.toolsWebSearchRequest == Toggled(run.toolsWebSearchRequest, Hits(t, rs, WebSearch))
      && r.(includePlanTool := run.includePlanTool, includeApplyPatchTool := run.includeApplyPatchTool,
            includeViewImageTool := run.includeViewImageTool, toolsWebSearchRequest := run.toolsWebSearchRequest) == run
  {
    if rs != [] {
      var rs' := rs[..|rs| - 1];
      RunAfterFields(t, rs', run);
      forall b ensures Hits(t, rs, b) <==> Hits(t, rs', b) || (rs[|rs| - 1].Bare? && Dest(t, rs[|rs| - 1].tool) == Some(Builtin(b))) {
        if Hits(t, rs, b) {
          var k :| 0 <= k < |rs| && rs[k].Bare? && Dest(t, rs[k].tool) == Some(Builtin(b));
          if k < |rs'| { assert rs'[k] == rs[k]; }
        }
        if Hits(t, rs', b) {
          var k :| 0 <= k < |rs'| && rs'[k].Bare? && Dest(t, rs'[k].tool) == Some(Builtin(b));
          assert rs[k] == rs'[k];
        }
      }
    }
  }

  // ------------------------------------------------------- expected results

  /** An agent with the references `refs` and no run settings. */
  function StubAgent(refs: seq<McpToolRef>): AgentConfig {
    AgentConfig("t", "d", None, None, Some(refs), None, None, None, None)
  }

  /** VS Code ["edit", "search"]: apply_patch and web_search switched on, no server, no reference left. */
  lemma VscodeEditSearch()
    ensures var r := ApplySpec(ProviderId.Vscode, StubAgent([Bare("edit"), Bare("search")]), DefaultMapping, false);
      && r.1 == [] && r.0.mcpToolRefs.None?
      && r.0.run == Some(EmptyRun.(includeApplyPatchTool := Some(true), toolsWebSearchRequest := Some(true)))
  {
    var t := DefaultMapping.vscode;
    var rs := [Bare("edit"), Bare("search")];
    assert rs[..1] == [Bare("edit")] && [Bare("edit")][..0] == [];
    VscodeEditSearchDests();
    var r0 := [Bare("edit")];
    assert r0[..|r0| - 1] == [] && r0[|r0| - 1] == Bare("edit");
    assert RunAfter(t, [], EmptyRun) == EmptyRun;
    var r1 := RunAfter(t, r0, EmptyRun);
    assert r1 == RunStep(t, EmptyRun, Bare("edit")) == EmptyRun.(includeApplyPatchTool := Some(true));
    assert RunAfter(t, rs, EmptyRun) == RunStep(t, r1, Bare("search")) == r1.(toolsWebSearchRequest := Some(true));
    assert Refs(t, [Bare("edit")]) == RefOut(t, Bare("edit")) == [];
    assert Refs(t, rs) == Refs(t, [Bare("edit")]) + RefOut(t, Bare("search")) == [];
    NoServersUnlessAllowed(t, rs);
    assert TableFor(ProviderId.Vscode, DefaultMapping) == t;
  }

  lemma VscodeEditSearchDests()
    ensures Dest(DefaultMapping.vscode, "edit") == Some(Builtin(ApplyPatch))
    ensures Dest(DefaultMapping.vscode, "search") == Some(Builtin(WebSearch))
  {
    assert Resolve(DefaultMapping.vscode, "edit") == "edit";
    assert Resolve(DefaultMapping.vscode, "search") == "search";
  }

  /** Claude's aliases: Edit, WebFetch and TodoWrite switch on apply_patch, web_search and plan. */
  lemma AnthropicAliasesToToggles()
    ensures var r := ApplySpec(ProviderId.Anthropic, StubAgent([Bare("Edit"), Bare("WebFetch"), Bare("TodoWrite")]), DefaultMapping, false);
      && r.0.mcpToolRefs.None?
      && r.0.run == Some(EmptyRun.(includePlanTool := Some(true), includeApplyPatchTool := Some(true), toolsWebSearchRequest := Some(true)))
  {
    var t := DefaultMapping.anthropic;
    var rs := [Bare("Edit"), Bare("WebFetch"), Bare("TodoWrite")];
    assert rs[..2] == [Bare("Edit"), Bare("WebFetch")];
    assert rs[..2][..1] == [Bare("Edit")] && [Bare("Edit")][..0] == [];
    assert Dest(t, "Edit") == Some(Builtin(ApplyPatch));
    assert Dest(t, "WebFetch") == Some(Builtin(WebSearch));
    assert Dest(t, "TodoWrite") == Some(Builtin(Plan));
    var r1 := RunAfter(t, [Bare("Edit")], EmptyRun);
    assert r1 == EmptyRun.(includeApplyPatchTool := Some(true));
    var r2 := RunAfter(t, rs[..2], EmptyRun);
    assert r2 == r1.(toolsWebSearchRequest := Some(true));
    assert RunAfter(t, rs, EmptyRun) == r2.(includePlanTool := Some(true));
    assert Refs(t, rs) == [];
  }

  /** Claude's terminal tools are consumed: no reference left and no toggle set. */
  lemma AnthropicTerminalConsumed()
    ensures var r := ApplySpec(ProviderId.Anthropic, StubAgent([Bare("Bash"), Bare("Grep")]), DefaultMapping, false);
      r.0.mcpToolRefs.None? && r.0.run == Some(EmptyRun)
  {
    var t := DefaultMapping.anthropic;
    var rs := [Bare("Bash"), Bare("Grep")];
    assert rs[..1] == [Bare("Bash")] && [Bare("Bash")][..0] == [];
    assert Refs(t, rs) == [];
  }

  /** VS Code "memory" becomes `memory::memory`, and with custom servers allowed, the npx memory server. */
  lemma VscodeMemoryServer()
    ensures var r := ApplySpec(ProviderId.Vscode, StubAgent([Bare("memory")]), DefaultMapping, true);
      && r.0.mcpToolRefs == Some([Namespaced("memory", "memory")])
      && r.1 == [NormalizedMcpServer("memory", Stdio("npx", ["-y", "@modelcontextprotocol/server-memory"], map[]),
                   McpServerOrigin(Mapping, None, Some("toolmap default")))]
  {
    var t := DefaultMapping.vscode;
    var rs := [Bare("memory")];
    assert rs[..0] == [];
    assert "memory" !in VscodeAliases;
    assert Dest(t, "memory") == Some(MemoryDest);
    assert RefOut(t, Bare("memory")) == [Namespaced("memory", "memory")];
    assert Refs(t, rs) == Refs(t, []) + RefOut(t, Bare("memory"));
    assert Servers(t, rs, true) == Servers(t, [], true) + ServerOut(t, Bare("memory"), true);
    assert Refs(t, rs) == [Namespaced("memory", "memory")];
    var r := ApplySpec(ProviderId.Vscode, StubAgent(rs), DefaultMapping, true);
    assert TableFor(ProviderId.Vscode, DefaultMapping) == t;
    assert r.0.mcpToolRefs.Some?;
  }

  /** VS Code "runCommands" is terminal access: consumed, with no toggle set. */
  lemma VscodeRunCommandsConsumed()
    ensures var r := ApplySpec(ProviderId.Vscode, StubAgent([Bare("runCommands")]), DefaultMapping, false);
      r.0.mcpToolRefs.None? && r.0.run == Some(EmptyRun)
  {
    var t := DefaultMapping.vscode;
    var rs := [Bare("runCommands")];
    assert rs[..0] == [];
    assert Resolve(t, "runCommands") == "runCommands";
    assert Dest(t, "runCommands") == Some(Builtin(TerminalAccess));
    assert Refs(t, rs) == Refs(t, []) + RefOut(t, Bare("runCommands")) == [];
    assert RunAfter(t, rs, EmptyRun) == RunStep(t, RunAfter(t, [], EmptyRun), Bare("runCommands")) == EmptyRun;
    assert TableFor(ProviderId.Vscode, DefaultMapping) == t;
  }

  /** An unmapped VS Code tool stays bare, under its alias-resolved name. */
  lemma VscodeUnmappedKeptResolved()
    ensures ApplySpec(ProviderId.Vscode, StubAgent([Bare("Find Usages")]), DefaultMapping, false).0.mcpToolRefs == Some([Bare("usages")])
  {
    var t := DefaultMapping.vscode;
    var rs := [Bare("Find Usages")];
    assert rs[..0] == [];
    assert Resolve(t, "Find Usages") == "usages";
    assert "usages" !in VscodeMap;
    assert RefOut(t, Bare("Find Usages")) == [Bare("usages")];
    assert Refs(t, rs) == Refs(t, []) + RefOut(t, Bare("Find Usages"));
    assert Refs(t, rs) == [Bare("usages")];
    assert TableFor(ProviderId.Vscode, DefaultMapping) == t;
  }
}
