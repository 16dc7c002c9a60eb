/**
 * `load_variant` (loader.rs): every readable file of the variant's
 * directories that its parser supports and accepts becomes a resolved
 * agent, with a default description, the engine's toggles folded into the
 * run settings for engine-native agents, and its tool name. The directory
 * listings and file contents are inputs.
 */
module LoaderVariant {
  import opened Wrappers
  import opened Strings
  import opened Values
  import opened Naming
  import opened ModelTypes
  import CodexToml
  import AnthropicFrontmatter
  import VscodeChatmode

  /** One directory entry: its path, whether it is a regular file, and what reading it gives. */
  datatype DirEntry = DirEntry(
    path: string,
    isFile: bool,
    content: Option<string>,
    /** For engine TOML files: the sibling `<stem>.prompt.md`, when it can be read. */
    prompt: Option<string>)

  /**
   * What scanning a configured directory gives: nothing (missing or not a
   * directory), a listing that cannot be opened, or the entries the listing
   * yields, followed by an entry the iterator fails on when `broken`.
   */
  datatype Listing = Absent | Unlistable | Entries(entries: seq<DirEntry>, broken: bool)

  datatype Dir = Dir(path: string, listing: Listing)

  /**
   * The errors `load_variant` propagates: a directory that exists but cannot
   * be listed (reported with its path), or an entry of a listing that cannot
   * be read (the bare I/O error, without a path).
   */
  datatype LoadError = ReadDir(path: string) | ReadEntry

  /** The text decoders the parsers rely on, which are not part of this model. */
  datatype Decoders = Decoders(yaml: string -> Option<Yaml>, toml: string -> Option<map<string, Toml>>, runTokens: CodexToml.RunTokens)

  /** The variant's parser accepts this path. */
  predicate SupportedBy(variant: AgentVariant, path: string) {
    match variant
    case Codex => CodexToml.Supports(path)
    case Anthropic => AnthropicFrontmatter.Supports(path)
    case Vscode => VscodeChatmode.Supports(path)
  }

  /** The variant's parser on a supported file; `None` when unsupported or refused. */
  function ParseFile(variant: AgentVariant, path: string, content: string, prompt: Option<string>, dec: Decoders): (r: Option<AgentConfig>)
    ensures r.Some? ==> SupportedBy(variant, path)
  {
    if !SupportedBy(variant, path) then None
    else
      match variant
      case Codex =>
        (match CodexToml.ParseSpec(dec.toml(content), prompt, dec.runTokens) case Ok(c) => Some(c) case Err(_) => None)
      case Anthropic =>
        (match AnthropicFrontmatter.ParseSpec(content, dec.yaml) case Ok(c) => Some(c) case Err(_) => None)
      case Vscode =>
        (match VscodeChatmode.ParseSpec(content, path, dec.yaml) case Ok(c) => Some(c) case Err(_) => None)
  }

  /** The description used when the parsed one is blank. */
  function DefaultDescription(name: string): string {
    "Agent '" + name + "': Execute tasks via Codex"
  }

  /** The toggles that are set override the run settings' fields of the same name. */
  function MergeToggles(run: AgentRun, t: AgentTogglePolicy): AgentRun {
    run.(
      includePlanTool := if t.includePlanTool.Some? then t.includePlanTool else run.includePlanTool,
      includeApplyPatchTool := if t.includeApplyPatchTool.Some? then t.includeApplyPatchTool else run.includeApplyPatchTool,
      includeViewImageTool := if t.includeViewImageTool.Some? then t.includeViewImageTool else run.includeViewImageTool,
      toolsWebSearchRequest := if t.toolsWebSearchRequest.Some? then t.toolsWebSearchRequest else run.toolsWebSearchRequest)
  }

  /** The configuration after the two post-parse steps. */
  function Finish(variant: AgentVariant, cfg: AgentConfig): AgentConfig {
    var described := if IsBlank(cfg.description) then cfg.(description := DefaultDescription(cfg.name)) else cfg;
    if variant == Codex && described.toggles.Some? then
      described.(toggles := None, run := Some(MergeToggles(described.run.GetOr(EmptyRun), described.toggles.value)))
    else described
  }

  /** The resolved agent one parsed file becomes. */
  function ResolveSpec(variant: AgentVariant, prefix: string, path: string, cfg: AgentConfig): ResolvedAgent {
    var c := Finish(variant, cfg);
    ResolvedAgent(AgentSource(variant, path), c, ToolNameFor(prefix, c.name), map[])
  }

  /** The agents of one listing, in entry order. */
  function FromEntries(variant: AgentVariant, prefix: string, es: seq<DirEntry>, dec: Decoders): seq<ResolvedAgent> {
    if es == [] then []
    else
      var e := es[|es| - 1];
      var rest := FromEntries(variant, prefix, es[..|es| - 1], dec);
      if !e.isFile || e.content.None? then rest
      else match ParseFile(variant, e.path, e.content.value, e.prompt, dec)
        case None => rest
        case Some(cfg) => rest + [ResolveSpec(variant, prefix, e.path, cfg)]
  }

  /** `load_variant` as a function: the agents of every directory in order, or the first listing error. */
  function LoadSpec(variant: AgentVariant, dirs: seq<Dir>, env: EnvPrefixes, dec: Decoders): Result<seq<ResolvedAgent>, LoadError> {
    if dirs == [] then Ok([])
    else
      match LoadSpec(variant, dirs[..|dirs| - 1], env, dec)
      case Err(e) => Err(e)
      case Ok(agents) =>
        var d := dirs[|dirs| - 1];
        match d.listing
        case Absent => Ok(agents)
        case Unlistable => Err(ReadDir(d.path))
        case Entries(es, broken) =>
          if broken then Err(ReadEntry) else Ok(agents + FromEntries(variant, ToolPrefixFor(variant, env), es, dec))
  }

  /** The body of the entry loop: parse, default the description, fold the toggles, name the tool. */
  method LoadEntry(variant: AgentVariant, prefix: string, e: DirEntry, dec: Decoders) returns (agent: Option<ResolvedAgent>)
    ensures agent == if !e.isFile || e.content.None? then None
      else match ParseFile(variant, e.path, e.content.value, e.prompt, dec)
        case None => None
        case Some(cfg) => Some(ResolveSpec(variant, prefix, e.path, cfg))
  {
    if !e.isFile || e.content.None? {
      return None;
    }
    var parsed := ParseFile(variant, e.path, e.content.value, e.prompt, dec);
    if parsed.None? {
      return None;
    }
    var cfg := parsed.value;
    if IsBlank(cfg.description) {
      cfg := cfg.(description := DefaultDescription(cfg.name));
    }
    if variant == Codex && cfg.toggles.Some? {
      var toggles := cfg.toggles.value;
      cfg := cfg.(toggles := None);
      var run := cfg.run.GetOr(EmptyRun);
      if toggles.includePlanTool.Some? {
        run := run.(includePlanTool := toggles.includePlanTool);
      }
      if toggles.includeApplyPatchTool.Some? {
        run := run.(includeApplyPatchTool := toggles.includeApplyPatchTool);
      }
      if toggles.includeViewImageTool.Some? {
        run := run.(includeViewImageTool := toggles.includeViewImageTool);
      }
      if toggles.toolsWebSearchRequest.Some? {
        run := run.(toolsWebSearchRequest := toggles.toolsWebSearchRequest);
      }
      cfg := cfg.(run := Some(run));
    }
    agent := Some(ResolvedAgent(AgentSource(variant, e.path), cfg, ToolNameFor(prefix, cfg.name), map[]));
  }

  /** The entry loop over one listing: the agents of its entries, in order. */
  method LoadEntries(variant: AgentVariant, prefix: string, es: seq<DirEntry>, dec: Decoders) returns (agents: seq<ResolvedAgent>)
    ensures agents == FromEntries(variant, prefix, es, dec)
  {
    agents := [];
    for j := 0 to |es|
      invariant agents == FromEntries(variant, prefix, es[..j], dec)
    {
      assert es[..j + 1][..j] == es[..j];
      var agent := LoadEntry(variant, prefix, es[j], dec);
      if agent.Some? {
        agents := agents + [agent.value];
      }
    }
    assert es[..|es|] == es;
  }

  /**
   * `load_variant`: directories in order, entries in listing order; an
   * unlistable directory or an unreadable entry aborts, discarding the agents
   * gathered so far.
   */
  method LoadVariant(variant: AgentVariant, dirs: seq<Dir>, env: EnvPrefixes, dec: Decoders)
    returns (r: Result<seq<ResolvedAgent>, LoadError>)
    ensures r == LoadSpec(variant, dirs, env, dec)
  {
    var prefix := ToolPrefixFor(variant, env);
    var out: seq<ResolvedAgent> := [];
    for i := 0 to |dirs|
      invariant LoadSpec(variant, dirs[..i], env, dec) == Ok(out)
    {
      LoadSpecStep(variant, dirs, env, dec, i, out);
      var d := dirs[i];
      match d.listing {
        case Absent =>
        case Unlistable =>
          LoadErrorPersists(variant, dirs, env, dec, i + 1);
          return Err(ReadDir(d.path));
        case Entries(es, broken) =>
          var found := LoadEntries(variant, prefix, es, dec);
          if broken {
            LoadErrorPersists(variant, dirs, env, dec, i + 1);
            return Err(ReadEntry);
          }
          out := out + found;
      }
    }
    assert dirs[..|dirs|] == dirs;
    return Ok(out);
  }

  /** One more directory after a successful prefix. */
  lemma LoadSpecStep(variant: AgentVariant, dirs: seq<Dir>, env: EnvPrefixes, dec: Decoders, i: nat, agents: seq<ResolvedAgent>)
    requires i < |dirs| && LoadSpec(variant, dirs[..i], env, dec) == Ok(agents)
    ensures var l := dirs[i].listing;
      && (l.Absent? ==> LoadSpec(variant, dirs[..i + 1], env, dec) == Ok(agents))
      && (l.Unlistable? ==> LoadSpec(variant, dirs[..i + 1], env, dec) == Err(ReadDir(dirs[i].path)))
      && (l.Entries? && l.broken ==> LoadSpec(variant, dirs[..i + 1], env, dec) == Err(ReadEntry))
      && (l.Entries? && !l.broken ==>
            LoadSpec(variant, dirs[..i + 1], env, dec) == Ok(agents + FromEntries(variant, ToolPrefixFor(variant, env), l.entries, dec)))
  {
    assert dirs[..i + 1][..i] == dirs[..i];
    assert dirs[..i + 1][i] == dirs[i];
  }

  /** Once a prefix of the directories fails, the whole load fails with that error. */
  lemma {:induction false} LoadErrorPersists(variant: AgentVariant, dirs: seq<Dir>, env: EnvPrefixes, dec: Decoders, n: nat)
    requires n <= |dirs| && LoadSpec(variant, dirs[..n], env, dec).Err?
    ensures LoadSpec(variant, dirs, env, dec) == LoadSpec(variant, dirs[..n], env, dec)
    decreases |dirs| - n
  {
    if n < |dirs| {
      assert dirs[..n + 1][..n] == dirs[..n];
      LoadErrorPersists(variant, dirs, env, dec, n + 1);
    } else {
      assert dirs[..n] == dirs;
    }
  }

  // -------------------------------------------------------------- properties

  /** The directory aborts the load: it cannot be listed, or one of its entries cannot be read. */
  predicate Fails(d: Dir) {
    d.listing.Unlistable? || (d.listing.Entries? && d.listing.broken)
  }

  /** The error a failing directory reports. */
  function FailureOf(d: Dir): LoadError
    requires Fails(d)
  {
    if d.listing.Unlistable? then ReadDir(d.path) else ReadEntry
  }

  /**
   * Loading fails exactly when some directory fails, and then with the error
   * of the first one: directories after it are not looked at.
   */
  lemma {:induction false} LoadSpecFailure(variant: AgentVariant, dirs: seq<Dir>, env: EnvPrefixes, dec: Decoders)
    ensures LoadSpec(variant, dirs, env, dec).Err? <==> exists i | 0 <= i < |dirs| :: Fails(dirs[i])
    ensures LoadSpec(variant, dirs, env, dec).Err? ==>
      exists i | 0 <= i < |dirs| :: Fails(dirs[i]) && (forall j | 0 <= j < i :: !Fails(dirs[j]))
        && LoadSpec(variant, dirs, env, dec).error == FailureOf(dirs[i])
  {
    if dirs != [] {
      var init, d := dirs[..|dirs| - 1], dirs[|dirs| - 1];
      LoadSpecFailure(variant, init, env, dec);
      assert forall j | 0 <= j < |init| :: init[j] == dirs[j];
      var prev := LoadSpec(variant, init, env, dec);
      if prev.Err? {
        assert LoadSpec(variant, dirs, env, dec) == prev;
        var i :| 0 <= i < |init| && Fails(init[i]) && (forall j | 0 <= j < i :: !Fails(init[j]))
          && prev.error == FailureOf(init[i]);
        assert Fails(dirs[i]);
      } else if Fails(d) {
        assert LoadSpec(variant, dirs, env, dec) == Err(FailureOf(d));
        assert forall j | 0 <= j < |dirs| - 1 :: !Fails(dirs[j]);
      } else {
        assert LoadSpec(variant, dirs, env, dec).Ok?;
        forall i | 0 <= i < |dirs| ensures !Fails(dirs[i]) {
          if i < |init| { assert init[i] == dirs[i]; }
        }
      }
    }
  }

  /**
   * Every resolved agent: of this variant, with a non-blank description,
   * tool name `<prefix><safe_name(name)>`, no servers yet, and for
   * engine-native agents no toggles left.
   */
  lemma ResolveShape(variant: AgentVariant, prefix: string, path: string, cfg: AgentConfig)
    ensures var a := ResolveSpec(variant, prefix, path, cfg);
      && a.source == AgentSource(variant, path)
      && !IsBlank(a.config.description)
      && a.toolName == prefix + SafeName(a.config.name)
      && a.config.name == cfg.name
      && a.mcpServers == map[]
      && (variant == Codex ==> a.config.toggles.None?)
  {
    assert DefaultDescription(cfg.name)[0] == 'A';
  }

  /** A blank description becomes "Agent '<name>': Execute tasks via Codex"; another one is kept. */
  lemma DescriptionDefaulted(variant: AgentVariant, cfg: AgentConfig)
    ensures IsBlank(cfg.description) ==> Finish(variant, cfg).description == "Agent '" + cfg.name + "': Execute tasks via Codex"
    ensures !IsBlank(cfg.description) ==> Finish(variant, cfg).description == cfg.description
  {
  }

  /**
   * For engine-native agents with toggles, each toggle that is set wins over
   * the run setting, an unset one keeps it (unset without run settings),
   * and nothing else in the run changes; other variants keep their run.
   */
  lemma TogglesFolded(variant: AgentVariant, cfg: AgentConfig)
    ensures variant != Codex || cfg.toggles.None? ==> Finish(variant, cfg).run == cfg.run && Finish(variant, cfg).toggles == cfg.toggles
    ensures variant == Codex && cfg.toggles.Some? ==>
      var t, base, run := cfg.toggles.value, cfg.run.GetOr(EmptyRun), Finish(variant, cfg).run;
      && run.Some?
      && run.value.includePlanTool == (if t.includePlanTool.Some? then t.includePlanTool else base.includePlanTool)
      && run.value.includeApplyPatchTool == (if t.includeApplyPatchTool.Some? then t.includeApplyPatchTool else base.includeApplyPatchTool)
      && run.value.includeViewImageTool == (if t.includeViewImageTool.Some? then t.includeViewImageTool else base.includeViewImageTool)
      && run.value.toolsWebSearchRequest == (if t.toolsWebSearchRequest.Some? then t.toolsWebSearchRequest else base.toolsWebSearchRequest)
      && run.value.(includePlanTool := base.includePlanTool, includeApplyPatchTool := base.includeApplyPatchTool,
           includeViewImageTool := base.includeViewImageTool, toolsWebSearchRequest := base.toolsWebSearchRequest) == base
  {
  }

  /** Every agent of a listing comes from a readable, supported regular file of it, in order. */
  lemma {:induction false} FromEntriesSources(variant: AgentVariant, prefix: string, es: seq<DirEntry>, dec: Decoders)
    ensures var out := FromEntries(variant, prefix, es, dec);
      && |out| <= |es|
      && forall a | a in out :: exists i | 0 <= i < |es| ::
           (es[i].isFile && es[i].content.Some? && SupportedBy(variant, es[i].path)
            && a.source == AgentSource(variant, es[i].path) && a.toolName == ToolNameFor(prefix, a.config.name))
  {
    if es != [] {
      var init := es[..|es| - 1];
      FromEntriesSources(variant, prefix, init, dec);
      assert forall i | 0 <= i < |init| :: init[i] == es[i];
    }
  }

  /** An entry its parser does not support contributes nothing, whatever its content. */
  lemma UnsupportedSkipped(variant: AgentVariant, prefix: string, es: seq<DirEntry>, e: DirEntry, dec: Decoders)
    requires !SupportedBy(variant, e.path)
    ensures FromEntries(variant, prefix, es + [e], dec) == FromEntries(variant, prefix, es, dec)
  {
    assert (es + [e])[..|es + [e]| - 1] == es;
  }
}
