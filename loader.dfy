/**
 * `prepare_all` (loader.rs): load the enabled variants, de-duplicate tool
 * names, discover servers and drop Switchboard's own, apply the built-in
 * tool mapping, attach or gate servers, filter the agents and prepare each
 * one (instructions, engine server configs, model mapping). What the
 * program reads from the outside world is an `Environment`.
 */
module Loader {
  import opened Wrappers
  import opened Strings
  import opened Naming
  import opened McpTypes
  import opened ModelTypes
  import opened ModelMapTypes
  import opened LoaderNames
  import opened LoaderServers
  import opened LoaderVariant
  import Discovery
  import ModelMapLoad
  import ModelMapApply

  /** The loader settings the pipeline consults (paths are replaced by what reading them gives). */
  datatype LoaderSettings = LoaderSettings(
    enableCodex: bool,
    enableAnthropic: bool,
    enableVscode: bool,
    prefixes: EnvPrefixes,
    filter: Option<string>,
    enableMcpDiscovery: bool,
    limitMcpToReferenced: bool,
    enumerate: bool,
    enumMaxServers: nat,
    enumStrict: bool,
    enumFallbackAll: bool,
    toolmapEnable: bool,
    toolmapAllowCustomServers: bool,
    modelMapEnable: bool,
    modelMapStrict: bool,
    modelMapOverrideProvider: bool,
    modelMapNormalizeProvider: bool)

  /** What the pipeline reads: directory listings, config files, the environment, server probes. */
  datatype Environment = Environment(
    codexDirs: seq<Dir>,
    anthropicDirs: seq<Dir>,
    vscodeDirs: seq<Dir>,
    decoders: Decoders,
    mcpSources: Discovery.Sources,
    /** `SWITCHBOARD_SKIP_SELF`, when set. */
    skipSelfVar: Option<string>,
    /** Listing a server's tools; `None` for a failure or a timeout. */
    probe: NormalizedMcpServer -> Option<set<string>>,
    /** The model map file's table as decoded, when the file can be read and decoded. */
    modelMapFile: Option<RawMappingFile>,
    readFile: string -> Option<string>,
    serverDecoders: ServerDecoders)

  /** The agents and the servers they may draw on, between the pipeline's steps. */
  datatype Stage = Stage(agents: seq<ResolvedAgent>, servers: ServerMap)

  // ---------------------------------------------------------- the stages

  /** Loading: engine agents, then Anthropic agents, then chat modes; the first failure aborts. */
  function LoadAll(s: LoaderSettings, w: Environment): Result<seq<ResolvedAgent>, LoadError> {
    var c := if s.enableCodex then LoadSpec(AgentVariant.Codex, w.codexDirs, s.prefixes, w.decoders) else Ok([]);
    if c.Err? then c
    else
      var a := if s.enableAnthropic then LoadSpec(AgentVariant.Anthropic, w.anthropicDirs, s.prefixes, w.decoders) else Ok([]);
      if a.Err? then a
      else
        var v := if s.enableVscode then LoadSpec(AgentVariant.Vscode, w.vscodeDirs, s.prefixes, w.decoders) else Ok([]);
        if v.Err? then v else Ok(c.value + a.value + v.value)
  }

  /** Discovery (when enabled), then skipping Switchboard's own server (unless turned off). */
  function InitialServers(s: LoaderSettings, w: Environment): (r: ServerMap)
    ensures KeysConsistent(r)
  {
    Discovery.DiscoverKeysConsistent(w.mcpSources);
    var d := if s.enableMcpDiscovery then Discovery.DiscoverSpec(w.mcpSources) else map[];
    if SkipSelfSetting(w.skipSelfVar) && d != map[] then SkipSelf(d) else d
  }

  /** The tool-mapping step, when enabled. */
  function MappedStage(s: LoaderSettings, st: Stage): Stage {
    if !s.toolmapEnable then st
    else
      var allow := s.toolmapAllowCustomServers;
      Stage(seq(|st.agents|, i requires 0 <= i < |st.agents| => Mapped(st.agents[i], allow)),
            OrInsertAll(st.servers, CustomsOf(st.agents, allow)))
  }

  /** Enumerating the picked servers, pruning the failures and gating; or attaching without enumeration. */
  function AttachedStage(s: LoaderSettings, w: Environment, st: Stage, keys: set<string>): Stage {
    if st.servers == map[] then st
    else if s.enumerate then
      var inventory := InventoryFor(keys, st.servers, w.probe);
      var pruned := Restrict(st.servers, inventory.Keys);
      Stage(seq(|st.agents|, i requires 0 <= i < |st.agents| =>
              GateSpec(st.agents[i], pruned, inventory, s.enumFallbackAll, s.limitMcpToReferenced)),
            pruned)
    else
      Stage(seq(|st.agents|, i requires 0 <= i < |st.agents| => AttachSpec(st.agents[i], st.servers, s.limitMcpToReferenced)),
            st.servers)
  }

  /** The servers chosen for enumeration are a legitimate `take(cap)` of the candidates. */
  predicate ValidPick(s: LoaderSettings, st: Stage, keys: set<string>) {
    s.enumerate && st.servers != map[] ==>
      var cands := AllCandidates(st.agents, st.servers);
      keys <= cands && |keys| == Min(|cands|, s.enumMaxServers)
  }

  /**
   * `mm` is the model map in force when the file's provider aliases are
   * visited in `order`: none when mapping is off, the map built from the
   * file's table when it loads, the built-in one when it does not.
   */
  predicate ModelMapFor(s: LoaderSettings, w: Environment, mm: Option<ModelMap>, order: seq<string>) {
    && (s.modelMapEnable <==> mm.Some?)
    && (s.modelMapEnable && w.modelMapFile.None? ==> mm == Some(ModelMapLoad.LoadDefault()))
    && (s.modelMapEnable && w.modelMapFile.Some? ==> ModelMapLoad.BuiltFrom(w.modelMapFile.value, mm.value, order))
  }

  /** `read_instructions`: a readable, non-blank instructions file wins over the inline text. */
  function ReadInstructions(cfg: AgentConfig, readFile: string -> Option<string>): Option<string> {
    if cfg.instructionsFile.Some? && readFile(cfg.instructionsFile.value).Some?
       && !IsBlank(readFile(cfg.instructionsFile.value).value)
    then readFile(cfg.instructionsFile.value)
    else cfg.instructions
  }

  /**
   * The instructions in force are the inline ones unless a named file can be
   * read and is not blank; then they are that file's text, which is never
   * blank. No file, an unreadable one or a blank one all fall back.
   */
  lemma InstructionsPrecedence(cfg: AgentConfig, readFile: string -> Option<string>)
    ensures var r, f := ReadInstructions(cfg, readFile), cfg.instructionsFile;
      && (r == cfg.instructions || (f.Some? && r == readFile(f.value)))
      && (r != cfg.instructions ==> r.Some? && !IsBlank(r.value))
      && (f.None? ==> r == cfg.instructions)
      && (f.Some? && readFile(f.value).None? ==> r == cfg.instructions)
      && (f.Some? && readFile(f.value).Some? && IsBlank(readFile(f.value).value) ==> r == cfg.instructions)
      && (f.Some? && readFile(f.value).Some? && !IsBlank(readFile(f.value).value) ==> r == readFile(f.value))
  {
  }

  function ModelOptions(s: LoaderSettings): ApplyOptions {
    ApplyOptions(s.modelMapNormalizeProvider, s.modelMapOverrideProvider, s.modelMapStrict)
  }

  /** The prepared agent for one resolved agent. */
  function PrepareOne(ra: ResolvedAgent, mm: Option<ModelMap>, s: LoaderSettings, w: Environment): PreparedAgent {
    var cfg := if mm.Some? then ModelMapApply.ApplySpec(ra.config, mm.value, ModelOptions(s)) else ra.config;
    PreparedAgent(ra.toolName, cfg.name, cfg.description, cfg.tags, ra.source.variant,
      ConvertSpec(ra, w.serverDecoders), ReadInstructions(ra.config, w.readFile), cfg.run)
  }

  function PreparedOf(agents: seq<ResolvedAgent>, mm: Option<ModelMap>, s: LoaderSettings, w: Environment): (r: seq<PreparedAgent>)
    ensures |r| == |agents|
  {
    seq(|agents|, i requires 0 <= i < |agents| => PrepareOne(agents[i], mm, s, w))
  }

  /** The stage before filtering: agents with their servers, and the servers left. */
  function Pipeline(s: LoaderSettings, w: Environment, keys: set<string>): Result<Stage, LoadError> {
    match LoadAll(s, w)
    case Err(e) => Err(e)
    case Ok(loaded) => Ok(AttachedStage(s, w, MappedStage(s, Stage(DedupeSpec(loaded), InitialServers(s, w))), keys))
  }

  /** The agents that get prepared. */
  function Resolved(s: LoaderSettings, w: Environment, keys: set<string>): Result<seq<ResolvedAgent>, LoadError> {
    match Pipeline(s, w, keys)
    case Err(e) => Err(e)
    case Ok(st) => Ok(ApplyFilter(st.agents, s.filter))
  }

  /** `prepare_all` as a function of the settings, the environment, the enumeration pick and the model map in force. */
  function PrepareSpec(s: LoaderSettings, w: Environment, keys: set<string>, mm: Option<ModelMap>): Result<seq<PreparedAgent>, LoadError> {
    match Resolved(s, w, keys)
    case Err(e) => Err(e)
    case Ok(agents) => Ok(PreparedOf(agents, mm, s, w))
  }

  /** The enumeration pick is a legitimate one (it matters only when enumerating). */
  predicate PickOk(s: LoaderSettings, w: Environment, keys: set<string>) {
    LoadAll(s, w).Ok? ==> ValidPick(s, MappedStage(s, Stage(DedupeSpec(LoadAll(s, w).value), InitialServers(s, w))), keys)
  }

  // ------------------------------------------------------------ the methods

  /** The three optional `load_variant` calls, extended in order. */
  method LoadAgents(s: LoaderSettings, w: Environment) returns (r: Result<seq<ResolvedAgent>, LoadError>)
    ensures r == LoadAll(s, w)
  {
    var codex: seq<ResolvedAgent> := [];
    if s.enableCodex {
      var l := LoadVariant(AgentVariant.Codex, w.codexDirs, s.prefixes, w.decoders);
      if l.Err? {
        return Err(l.error);
      }
      codex := l.value;
    }
    var anthropic: seq<ResolvedAgent> := [];
    if s.enableAnthropic {
      var l := LoadVariant(AgentVariant.Anthropic, w.anthropicDirs, s.prefixes, w.decoders);
      if l.Err? {
        return Err(l.error);
      }
      anthropic := l.value;
    }
    var vscode: seq<ResolvedAgent> := [];
    if s.enableVscode {
      var l := LoadVariant(AgentVariant.Vscode, w.vscodeDirs, s.prefixes, w.decoders);
      if l.Err? {
        return Err(l.error);
      }
      vscode := l.value;
    }
    return Ok(codex + anthropic + vscode);
  }

  /** `dedupe_tool_names` on a fresh array holding the agents. */
  method Dedupe(agents: seq<ResolvedAgent>) returns (out: seq<ResolvedAgent>)
    ensures out == DedupeSpec(agents)
  {
    var records := new ResolvedAgent[|agents|](i requires 0 <= i < |agents| => agents[i]);
    assert records[..] == agents;
    DedupeToolNames(records);
    out := records[..];
  }

  /** Discovery and the self-skip. */
  method DiscoverServers(s: LoaderSettings, w: Environment) returns (discovered: ServerMap)
    ensures discovered == InitialServers(s, w)
  {
    discovered := map[];
    if s.enableMcpDiscovery {
      discovered := Discovery.DiscoverStdioServers(w.mcpSources);
    }
    var skipSelf := SkipSelfSetting(w.skipSelfVar);
    if skipSelf && discovered != map[] {
      discovered := SkipSelf(discovered);
    }
  }

  method MapTools(s: LoaderSettings, st: Stage) returns (out: Stage)
    ensures out == MappedStage(s, st)
  {
    out := st;
    if s.toolmapEnable {
      var agents, servers := ApplyToolMappings(st.agents, st.servers, s.toolmapAllowCustomServers);
      out := Stage(agents, servers);
    }
  }

  /** Enumerate and gate, or attach; nothing happens without servers. */
  method AttachServers(s: LoaderSettings, w: Environment, st: Stage) returns (out: Stage, ghost keys: set<string>)
    requires KeysConsistent(st.servers)
    ensures out == AttachedStage(s, w, st, keys)
    ensures ValidPick(s, st, keys)
  {
    keys := {};
    out := st;
    if st.servers == map[] {
      return;
    }
    if s.enumerate {
      var candidates := Candidates(st.agents, st.servers);
      var picked := TakeUpTo(candidates, s.enumMaxServers);
      keys := picked;
      var inventory := EnumerateInventory(picked, st.servers, w.probe);
      var pruned := Restrict(st.servers, inventory.Keys);
      var agents := GateAll(st.agents, pruned, inventory, s.enumFallbackAll, s.limitMcpToReferenced);
      out := Stage(agents, pruned);
    } else {
      var agents := AttachAll(st.agents, st.servers, s.limitMcpToReferenced);
      out := Stage(agents, st.servers);
    }
  }

  /** `agents.retain(|ra| match_agent(..))` */
  method RetainMatching(agents: seq<ResolvedAgent>, allowed: set<string>) returns (out: seq<ResolvedAgent>)
    ensures out == Retained(agents, allowed)
  {
    out := [];
    for i := 0 to |agents|
      invariant out == Retained(agents[..i], allowed)
    {
      assert agents[..i + 1][..i] == agents[..i];
      var keep := MatchAgent(agents[i].config, allowed);
      if keep {
        out := out + [agents[i]];
      }
    }
    assert agents[..|agents|] == agents;
  }

  method FilterAgents(agents: seq<ResolvedAgent>, filter: Option<string>) returns (out: seq<ResolvedAgent>)
    ensures out == ApplyFilter(agents, filter)
  {
    out := agents;
    if filter.Some? && !IsBlank(filter.value) {
      var allowed := BuildAllowedSet(filter.value);
      out := RetainMatching(agents, allowed);
    }
  }

  /** The `PreparedAgent` list, one per remaining agent in order. */
  method PrepareAgents(agents: seq<ResolvedAgent>, mm: Option<ModelMap>, s: LoaderSettings, w: Environment)
    returns (prepared: seq<PreparedAgent>)
    ensures prepared == PreparedOf(agents, mm, s, w)
  {
    prepared := [];
    for i := 0 to |agents|
      invariant |prepared| == i
      invariant forall j | 0 <= j < i :: prepared[j] == PrepareOne(agents[j], mm, s, w)
    {
      var ra := agents[i];
      var instructions := ReadInstructions(ra.config, w.readFile);
      var servers := ConvertServersForAgent(ra, w.serverDecoders);
      var cfg := ra.config;
      if mm.Some? {
        cfg := ModelMapApply.ApplyToAgent(cfg, mm.value, ModelOptions(s));
      }
      prepared := prepared + [PreparedAgent(ra.toolName, cfg.name, cfg.description, cfg.tags, ra.source.variant,
        servers, instructions, cfg.run)];
    }
  }

  /** The model map step of `prepare_all`: the file's table built into a map, or the built-in map when the file does not load. */
  method LoadModelMap(s: LoaderSettings, w: Environment) returns (mm: Option<ModelMap>, ghost order: seq<string>)
    ensures s.modelMapEnable <==> mm.Some?
    ensures s.modelMapEnable && w.modelMapFile.None? ==> mm == Some(ModelMapLoad.LoadDefault())
    ensures s.modelMapEnable && w.modelMapFile.Some? ==> mm.value.byToken == ModelMapLoad.ByToken(w.modelMapFile.value.mappings)
    ensures ModelMapFor(s, w, mm, order)
  {
    order := [];
    if !s.modelMapEnable {
      return None, order;
    }
    match w.modelMapFile
    case None =>
      mm := Some(ModelMapLoad.LoadDefault());
    case Some(raw) =>
      var m;
      m, order := ModelMapLoad.BuildModelMap(raw);
      mm := Some(m);
  }

  /** `prepare_all`: the stages in the order of the Rust function. */
  method PrepareAll(s: LoaderSettings, w: Environment)
    returns (r: Result<seq<PreparedAgent>, LoadError>, ghost keys: set<string>, ghost mm: Option<ModelMap>, ghost order: seq<string>)
    ensures r == PrepareSpec(s, w, keys, mm)
    ensures PickOk(s, w, keys)
    ensures r.Ok? ==> ModelMapFor(s, w, mm, order)
  {
    keys, mm, order := {}, None, [];
    var loaded := LoadAgents(s, w);
    if loaded.Err? {
      return Err(loaded.error), keys, mm, order;
    }
    var agents := Dedupe(loaded.value);
    var discovered := DiscoverServers(s, w);
    var mapped := MapTools(s, Stage(agents, discovered));
    if s.toolmapEnable {
      OrInsertAllConsistent(discovered, CustomsOf(agents, s.toolmapAllowCustomServers));
    }
    var modelMap;
    modelMap, order := LoadModelMap(s, w);
    var attached;
    attached, keys := AttachServers(s, w, mapped);
    var kept := FilterAgents(attached.agents, s.filter);
    var prepared := PrepareAgents(kept, modelMap, s, w);
    return Ok(prepared), keys, modelMap, order;
  }

  // -------------------------------------------------------------- properties

  /** Loading fails exactly when an enabled variant has a directory that cannot be listed or holds an unreadable entry. */
  lemma LoadFailure(s: LoaderSettings, w: Environment, keys: set<string>, mm: Option<ModelMap>)
    ensures PrepareSpec(s, w, keys, mm).Err? <==>
      || (s.enableCodex && LoadSpec(AgentVariant.Codex, w.codexDirs, s.prefixes, w.decoders).Err?)
      || (s.enableAnthropic && LoadSpec(AgentVariant.Anthropic, w.anthropicDirs, s.prefixes, w.decoders).Err?)
      || (s.enableVscode && LoadSpec(AgentVariant.Vscode, w.vscodeDirs, s.prefixes, w.decoders).Err?)
  {
  }

  /** A non-blank filter leaves only matching agents; a missing or blank one keeps every agent of the pipeline. */
  lemma PreparedAreFiltered(s: LoaderSettings, w: Environment, keys: set<string>, mm: Option<ModelMap>)
    requires Pipeline(s, w, keys).Ok?
    ensures var st := Pipeline(s, w, keys).value; var agents := Resolved(s, w, keys).value;
      && |PrepareSpec(s, w, keys, mm).value| == |agents|
      && (s.filter.None? || IsBlank(s.filter.value) ==> agents == st.agents)
      && (s.filter.Some? && !IsBlank(s.filter.value) ==>
            forall a :: a in agents <==> a in st.agents && Matches(a.config, AllowedSet(s.filter.value)))
  {
    FilterKeeps(Pipeline(s, w, keys).value.agents, s.filter);
  }

  // ----- every agent's servers come from the final server set

  /** Loaded agents carry no servers yet and are named after their variant's prefix. */
  lemma {:induction false} LoadedShape(variant: AgentVariant, dirs: seq<Dir>, env: EnvPrefixes, dec: Decoders)
    requires LoadSpec(variant, dirs, env, dec).Ok?
    ensures forall a | a in LoadSpec(variant, dirs, env, dec).value ::
      a.mcpServers == map[] && a.source.variant == variant && a.toolName == ToolNameFor(ToolPrefixFor(a.source.variant, env), a.config.name)
  {
    if dirs != [] {
      var init := dirs[..|dirs| - 1];
      LoadedShape(variant, init, env, dec);
      var d := dirs[|dirs| - 1];
      if d.listing.Entries? {
        FromEntriesSources(variant, ToolPrefixFor(variant, env), d.listing.entries, dec);
        FromEntriesNoServers(variant, ToolPrefixFor(variant, env), d.listing.entries, dec);
      }
    }
  }

  lemma {:induction false} FromEntriesNoServers(variant: AgentVariant, prefix: string, es: seq<DirEntry>, dec: Decoders)
    ensures forall a | a in FromEntries(variant, prefix, es, dec) :: a.mcpServers == map[]
  {
    if es != [] {
      FromEntriesNoServers(variant, prefix, es[..|es| - 1], dec);
    }
  }

  lemma LoadAllShape(s: LoaderSettings, w: Environment)
    requires LoadAll(s, w).Ok?
    ensures forall a | a in LoadAll(s, w).value ::
      a.mcpServers == map[] && a.toolName == ToolNameFor(ToolPrefixFor(a.source.variant, s.prefixes), a.config.name)
  {
    if s.enableCodex { LoadedShape(AgentVariant.Codex, w.codexDirs, s.prefixes, w.decoders); }
    if s.enableAnthropic { LoadedShape(AgentVariant.Anthropic, w.anthropicDirs, s.prefixes, w.decoders); }
    if s.enableVscode { LoadedShape(AgentVariant.Vscode, w.vscodeDirs, s.prefixes, w.decoders); }
  }

  /** An agent with no servers, or only servers from `m`. */
  predicate ServersFrom(a: ResolvedAgent, m: ServerMap) {
    SubMap(a.mcpServers, m)
  }

  lemma AttachedFromServers(s: LoaderSettings, w: Environment, st: Stage, keys: set<string>)
    requires forall i | 0 <= i < |st.agents| :: st.agents[i].mcpServers == map[]
    ensures var out := AttachedStage(s, w, st, keys);
      forall i | 0 <= i < |out.agents| :: ServersFrom(out.agents[i], out.servers)
  {
    var out := AttachedStage(s, w, st, keys);
    if st.servers != map[] && !s.enumerate {
      forall i | 0 <= i < |out.agents| ensures ServersFrom(out.agents[i], out.servers) {
        var ra := st.agents[i];
        if s.limitMcpToReferenced && ra.config.mcpToolRefs.Some? && !HasBare(ra.config.mcpToolRefs.value) {
          RestrictProps(st.servers, NamespacedKeys(ra.config.mcpToolRefs.value));
        }
      }
    }
  }

  /**
   * An agent only ever gets servers from the final server set: discovered,
   * not Switchboard itself (when skipping), merged from the mapping, and
   * enumerated successfully when enumerating.
   */
  lemma ServersComeFromPipeline(s: LoaderSettings, w: Environment, keys: set<string>)
    requires Pipeline(s, w, keys).Ok?
    ensures var st := Pipeline(s, w, keys).value;
      forall a | a in Resolved(s, w, keys).value :: ServersFrom(a, st.servers)
  {
    var loaded := LoadAll(s, w).value;
    LoadAllShape(s, w);
    var deduped := DedupeSpec(loaded);
    var mapped := MappedStage(s, Stage(deduped, InitialServers(s, w)));
    assert forall i | 0 <= i < |mapped.agents| :: mapped.agents[i].mcpServers == map[] by {
      forall i | 0 <= i < |mapped.agents| ensures mapped.agents[i].mcpServers == map[] {
        assert loaded[i] in loaded;
      }
    }
    AttachedFromServers(s, w, mapped, keys);
    var st := Pipeline(s, w, keys).value;
    FilterKeeps(st.agents, s.filter);
  }

  /** The tool name starts with the variant's prefix and the agent's safe name. */
  predicate Prefixed(a: ResolvedAgent, env: EnvPrefixes) {
    StartsWith(a.toolName, ToolPrefixFor(a.source.variant, env) + SafeName(a.config.name))
  }

  lemma DedupedPrefixed(loaded: seq<ResolvedAgent>, env: EnvPrefixes)
    requires forall a | a in loaded :: a.toolName == ToolNameFor(ToolPrefixFor(a.source.variant, env), a.config.name)
    ensures forall i | 0 <= i < |DedupeSpec(loaded)| :: Prefixed(DedupeSpec(loaded)[i], env)
  {
    forall i | 0 <= i < |loaded| ensures Prefixed(DedupeSpec(loaded)[i], env) {
      assert loaded[i] in loaded;
      DedupedNameStartsWith(ToolNames(loaded), i);
    }
  }

  lemma StagesKeepPrefixed(s: LoaderSettings, w: Environment, st: Stage, keys: set<string>)
    requires forall i | 0 <= i < |st.agents| :: Prefixed(st.agents[i], s.prefixes)
    ensures var out := AttachedStage(s, w, MappedStage(s, st), keys);
      forall i | 0 <= i < |out.agents| :: Prefixed(out.agents[i], s.prefixes)
  {
    var mapped := MappedStage(s, st);
    forall i | 0 <= i < |mapped.agents| ensures Prefixed(mapped.agents[i], s.prefixes) {
      if s.toolmapEnable {
        MappedKeepsName(st.agents[i], s.toolmapAllowCustomServers);
      }
    }
  }

  /** Every prepared tool name starts with its variant's prefix followed by the agent's safe name. */
  lemma ToolNamesPrefixed(s: LoaderSettings, w: Environment, keys: set<string>)
    requires Pipeline(s, w, keys).Ok?
    ensures forall a | a in Resolved(s, w, keys).value :: Prefixed(a, s.prefixes)
  {
    LoadAllShape(s, w);
    DedupedPrefixed(LoadAll(s, w).value, s.prefixes);
    StagesKeepPrefixed(s, w, Stage(DedupeSpec(LoadAll(s, w).value), InitialServers(s, w)), keys);
    FilterKeeps(Pipeline(s, w, keys).value.agents, s.filter);
  }

  lemma DedupedNameStartsWith(names: seq<string>, i: nat)
    requires i < |names|
    ensures StartsWith(DedupedName(names, i), names[i])
  {
  }

  lemma MappedKeepsName(ra: ResolvedAgent, allow: bool)
    ensures Mapped(ra, allow).config.name == ra.config.name
    ensures Mapped(ra, allow).toolName == ra.toolName && Mapped(ra, allow).source == ra.source
  {
  }
}
