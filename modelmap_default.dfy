/**
 * The built-in model-mapping tables (modelmap/default.rs): provider aliases
 * keyed by their ASCII-lowercased spelling, and model tokens of other tools
 * mapped to the engine's models.
 */
module ModelMapDefault {
  import opened Wrappers
  import opened Strings
  import opened ModelMapTypes

  /**
   * Inserting `(alias, canonical)` pairs in order under the lowercased alias;
   * a later pair overwrites an earlier one with the same lowercased alias.
   */
  function InsertLowered(m: map<string, string>, pairs: seq<(string, string)>): (r: map<string, string>)
    ensures m.Keys <= r.Keys
    ensures forall i | 0 <= i < |pairs| :: AsciiLower(pairs[i].0) in r
  {
    if pairs == [] then m
    else
      var r' := InsertLowered(m, pairs[..|pairs| - 1]);
      assert forall i | 0 <= i < |pairs| - 1 :: pairs[..|pairs| - 1][i] == pairs[i];
      r'[AsciiLower(pairs[|pairs| - 1].0) := pairs[|pairs| - 1].1]
  }

  /** The pairs `default_provider_aliases` inserts, as written. */
  const ProviderAliasPairs: seq<(string, string)> := [
    ("openai", "openai"),
    ("OpenAI", "openai"),
    ("anthropic", "anthropic"),
    ("Anthropic", "anthropic"),
    ("Claude", "anthropic")]

  /** `default_provider_aliases` */
  function DefaultProviderAliases(): map<string, string> {
    InsertLowered(map[], ProviderAliasPairs)
  }

  /** Exactly three keys: openai, anthropic and claude, naming openai, anthropic and anthropic. */
  lemma DefaultProviderAliasesContents()
    ensures DefaultProviderAliases() == map["openai" := "openai", "anthropic" := "anthropic", "claude" := "anthropic"]
  {
    var ps := ProviderAliasPairs;
    assert AsciiLower("openai") == "openai";
    assert AsciiLower("OpenAI") == "openai";
    assert AsciiLower("anthropic") == "anthropic";
    assert AsciiLower("Anthropic") == "anthropic";
    assert AsciiLower("Claude") == "claude";
    assert ps[..5] == ps && ps[..4][..3] == ps[..3] && ps[..3][..2] == ps[..2];
    assert ps[..2][..1] == ps[..1] && ps[..1][..0] == [];
    var m1 := InsertLowered(map[], ps[..1]);
    assert m1 == InsertLowered(map[], ps[..1][..0])[AsciiLower(ps[0].0) := ps[0].1];
    assert m1 == map["openai" := "openai"];
    var m2 := InsertLowered(map[], ps[..2]);
    assert m2 == m1[AsciiLower(ps[1].0) := ps[1].1];
    assert m2 == map["openai" := "openai"];
    var m3 := InsertLowered(map[], ps[..3]);
    assert m3 == m2[AsciiLower(ps[2].0) := ps[2].1];
    var m4 := InsertLowered(map[], ps[..4]);
    assert m4 == m3[AsciiLower(ps[3].0) := ps[3].1];
    assert m4 == map["openai" := "openai", "anthropic" := "anthropic"];
    assert InsertLowered(map[], ps) == m4[AsciiLower(ps[4].0) := ps[4].1];
  }

  /** An OpenAI model with provider "openai". */
  function OpenAi(model: string): Canonical { Canonical(model, Some("openai")) }

  /** `default_model_tokens` */
  const DefaultModelTokens: map<string, Canonical> := map[
    "sonnet" := OpenAi("gpt-5"),
    "opus" := OpenAi("gpt-5"),
    "haiku" := OpenAi("gpt-5-mini"),
    "claude opus 4" := OpenAi("gpt-5"),
    "claude opus 4.1" := OpenAi("gpt-5"),
    "claude sonnet 4" := OpenAi("gpt-5"),
    "claude sonnet 3.7" := OpenAi("gpt-5"),
    "claude 3.7" := OpenAi("gpt-5"),
    "claude 3.7 thinking" := OpenAi("gpt-5"),
    "claude haiku 3" := OpenAi("gpt-5-mini"),
    "claude haiku 3.5" := OpenAi("gpt-5-mini"),
    "claude sonnet 3.5" := OpenAi("gpt-5"),
    "gemini 2.5 pro" := OpenAi("gpt-5"),
    "gpt-4.1" := OpenAi("gpt-4.1"),
    "gpt-4o" := OpenAi("gpt-4o"),
    "gpt-5 mini (preview)" := OpenAi("gpt-5-mini"),
    "gpt-5 mini" := OpenAi("gpt-5-mini"),
    "gpt-5-mini" := OpenAi("gpt-5-mini"),
    "o3-mini" := OpenAi("o3-mini"),
    "auto" := OpenAi("gpt-5")]

  /** Every canonical provider is openai. */
  lemma DefaultModelProviders()
    ensures forall k | k in DefaultModelTokens :: DefaultModelTokens[k].provider == Some("openai")
  {
  }

  /** Every token is stored in lower case. */
  lemma DefaultModelTokensLower()
    ensures forall k | k in DefaultModelTokens :: NoAsciiUpper(k)
  {
    forall k | k in DefaultModelTokens ensures NoAsciiUpper(k) {
      ClaudeFamilyTokensLower();
      ClaudeVersionTokensLower();
      OtherVendorTokensLower();
      EngineTokensLower();
      assert k in ClaudeFamilyTokens || k in ClaudeVersionTokens || k in OtherVendorTokens || k in EngineTokens;
    }
  }

  // The keys of `DefaultModelTokens` in four groups, so that each is checked on its own.

  /** Claude's family names and the Opus 4 versions. */
  const ClaudeFamilyTokens: set<string> := {"sonnet", "opus", "haiku", "claude opus 4", "claude opus 4.1"}

  lemma ClaudeFamilyTokensLower()
    ensures forall k | k in ClaudeFamilyTokens :: NoAsciiUpper(k)
  {
  }

  /** The Sonnet 4, 3.7 and Haiku 3 display names. */
  const ClaudeVersionTokens: set<string> := {"claude sonnet 4", "claude sonnet 3.7", "claude 3.7", "claude 3.7 thinking", "claude haiku 3"}

  lemma ClaudeVersionTokensLower()
    ensures forall k | k in ClaudeVersionTokens :: NoAsciiUpper(k)
  {
  }

  /** The 3.5 display names, Gemini and the GPT-4 models. */
  const OtherVendorTokens: set<string> := {"claude haiku 3.5", "claude sonnet 3.5", "gemini 2.5 pro", "gpt-4.1", "gpt-4o"}

  lemma OtherVendorTokensLower()
    ensures forall k | k in OtherVendorTokens :: NoAsciiUpper(k)
  {
  }

  /** The GPT-5 mini spellings, o3-mini and "auto". */
  const EngineTokens: set<string> := {"gpt-5 mini (preview)", "gpt-5 mini", "gpt-5-mini", "o3-mini", "auto"}

  lemma EngineTokensLower()
    ensures forall k | k in EngineTokens :: NoAsciiUpper(k)
  {
  }

  /** Claude's family names go to gpt-5 (haiku to gpt-5-mini); the engine's own models map to themselves. */
  lemma DefaultModelTokensEntries()
    ensures DefaultModelTokens["sonnet"].model == DefaultModelTokens["opus"].model == DefaultModelTokens["auto"].model == "gpt-5"
    ensures DefaultModelTokens["haiku"].model == "gpt-5-mini"
    ensures forall k | k in ["gpt-4.1", "gpt-4o", "gpt-5-mini", "o3-mini"] :: DefaultModelTokens[k].model == k
  {
  }
}
