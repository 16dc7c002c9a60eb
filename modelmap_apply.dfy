/**
 * `apply_to_agent` (modelmap/apply.rs): rewrites an agent's model and
 * provider through a model map. The provider may first be normalized
 * through the provider aliases; a known model token is replaced by its
 * canonical model, and the canonical provider is written when the agent had
 * none or overriding is on. Nothing else changes.
 */
module ModelMapApply {
  import opened Wrappers
  import opened Strings
  import opened ModelTypes
  import opened ModelMapTypes
  import opened ModelMapDefault
  import opened ModelMapLoad

  /** The provider after alias normalization. */
  function NormalizedProvider(p: Option<string>, aliases: map<string, string>, normalize: bool): Option<string> {
    if normalize && p.Some? && AsciiLower(p.value) in aliases then Some(aliases[AsciiLower(p.value)]) else p
  }

  /** The canonical target of the run's model, if the map knows it (case-insensitively). */
  function Lookup(model: Option<string>, mm: ModelMap): Option<Canonical> {
    if model.Some? && AsciiLower(model.value) in mm.byToken then Some(mm.byToken[AsciiLower(model.value)]) else None
  }

  /** The updated run settings: the three conditional steps of `apply_to_agent`, in order. */
  function MapRun(run: AgentRun, mm: ModelMap, opts: ApplyOptions): (r: AgentRun)
    ensures r == run.(model := r.model, modelProvider := r.modelProvider)
    ensures r.model == (if Lookup(run.model, mm).Some? then Some(Lookup(run.model, mm).value.model) else run.model)
    ensures var p := NormalizedProvider(run.modelProvider, mm.providerAliases, opts.normalizeProvider);
      var c := Lookup(run.model, mm);
      r.modelProvider == (if c.Some? && c.value.provider.Some? && (p.None? || opts.overrideProvider) then c.value.provider else p)
  {
    var run1 := run.(modelProvider := NormalizedProvider(run.modelProvider, mm.providerAliases, opts.normalizeProvider));
    match Lookup(run1.model, mm)
    case None => run1
    case Some(canon) =>
      var run2 := run1.(model := Some(canon.model));
      if canon.provider.Some? && (run2.modelProvider.None? || opts.overrideProvider) then run2.(modelProvider := canon.provider)
      else run2
  }

  /** `apply_to_agent` as a function of its inputs. */
  function ApplySpec(agent: AgentConfig, mm: ModelMap, opts: ApplyOptions): AgentConfig {
    match agent.run
    case None => agent
    case Some(run) => agent.(run := Some(MapRun(run, mm, opts)))
  }

  /** `apply_to_agent`: sequential updates of a copy of the run settings, written back. */
  method ApplyToAgent(agent: AgentConfig, mm: ModelMap, opts: ApplyOptions) returns (updated: AgentConfig)
    ensures updated == ApplySpec(agent, mm, opts)
  {
    if agent.run.None? {
      return agent;
    }
    var run := agent.run.value;
    if opts.normalizeProvider && run.modelProvider.Some? {
      var key := AsciiLower(run.modelProvider.value);
      if key in mm.providerAliases && Some(mm.providerAliases[key]) != run.modelProvider {
        run := run.(modelProvider := Some(mm.providerAliases[key]));
      }
    }
    if run.model.Some? {
      var key := AsciiLower(run.model.value);
      if key in mm.byToken {
        var canon := mm.byToken[key];
        run := run.(model := Some(canon.model));
        if canon.provider.Some? {
          var shouldSet := run.modelProvider.None? || opts.overrideProvider;
          if shouldSet {
            run := run.(modelProvider := canon.provider);
          }
        }
      }
      // an unknown token is left as it is, strict or not
    }
    updated := agent.(run := Some(run));
  }

  // -------------------------------------------------------------- properties

  /** The `strict` option changes nothing: an unknown model is kept either way. */
  lemma StrictIsLogOnly(agent: AgentConfig, mm: ModelMap, opts: ApplyOptions)
    ensures ApplySpec(agent, mm, opts.(strict := true)) == ApplySpec(agent, mm, opts.(strict := false))
  {
  }

  /**
   * Only the run settings change: an agent without any is returned as it
   * is, and one with run settings keeps everything but its model and
   * provider.
   */
  lemma ApplyTouchesOnlyRun(agent: AgentConfig, mm: ModelMap, opts: ApplyOptions)
    ensures var r := ApplySpec(agent, mm, opts);
      && (agent.run.None? ==> r == agent)
      && (agent.run.Some? ==>
            && r.run.Some? && r == agent.(run := r.run)
            && r.run.value == agent.run.value.(model := r.run.value.model, modelProvider := r.run.value.modelProvider))
  {
  }

  /** A model the map knows, in any ASCII case, becomes its canonical name. */
  lemma KnownModelRemapped(run: AgentRun, mm: ModelMap, opts: ApplyOptions)
    requires run.model.Some? && AsciiLower(run.model.value) in mm.byToken
    ensures MapRun(run, mm, opts).model == Some(mm.byToken[AsciiLower(run.model.value)].model)
  {
  }

  /** An unknown model keeps the model, and the provider is at most normalized. */
  lemma UnknownModelKept(run: AgentRun, mm: ModelMap, opts: ApplyOptions)
    requires run.model.None? || AsciiLower(run.model.value) !in mm.byToken
    ensures MapRun(run, mm, opts) == run.(modelProvider := NormalizedProvider(run.modelProvider, mm.providerAliases, opts.normalizeProvider))
  {
  }

  /** A provider the agent already names survives a known model unless overriding is on. */
  lemma ExistingProviderKept(run: AgentRun, mm: ModelMap, opts: ApplyOptions)
    requires run.modelProvider.Some? && !opts.normalizeProvider && !opts.overrideProvider
    ensures MapRun(run, mm, opts).modelProvider == run.modelProvider
  {
  }

  const FixOpts := ApplyOptions(true, false, false)

  function StubRun(model: Option<string>, provider: Option<string>): AgentRun {
    EmptyRun.(model := model, modelProvider := provider)
  }

  /** "GPT-4.1" with no provider becomes gpt-4.1 on openai. */
  lemma MapsModelAndSetsProvider()
    ensures var mm := ModelMap(map["gpt-4.1" := Canonical("gpt-4.1", Some("openai"))], map[]);
      MapRun(StubRun(Some("GPT-4.1"), None), mm, FixOpts) == StubRun(Some("gpt-4.1"), Some("openai"))
  {
    assert AsciiLower("GPT-4.1") == "gpt-4.1";
  }

  /** Provider "Claude" is normalized to anthropic. */
  lemma ProviderAliasNormalization()
    ensures var mm := ModelMap(map[], map["claude" := "anthropic"]);
      MapRun(StubRun(None, Some("Claude")), mm, FixOpts).modelProvider == Some("anthropic")
  {
    assert AsciiLower("Claude") == "claude";
  }

  /** With the built-in tables, "Sonnet" on "Claude" becomes gpt-5 on anthropic, and on openai when overriding. */
  lemma DefaultsOnClaudeAgent()
    ensures MapRun(StubRun(Some("Sonnet"), Some("Claude")), LoadDefault(), FixOpts) == StubRun(Some("gpt-5"), Some("anthropic"))
    ensures MapRun(StubRun(Some("Sonnet"), Some("Claude")), LoadDefault(), FixOpts.(overrideProvider := true)) == StubRun(Some("gpt-5"), Some("openai"))
  {
    DefaultProviderAliasesContents();
    assert AsciiLower("Sonnet") == "sonnet";
    assert AsciiLower("Claude") == "claude";
  }
}
