/**
 * Tool-name de-duplication and the agent filter of the loader (loader.rs):
 * `dedupe_tool_names` renames repeated tool names in place, and the filter
 * keeps agents whose name, safe name or a tag is among the filter tokens.
 */
module LoaderNames {
  import opened Wrappers
  import opened Strings
  import opened Naming
  import opened ModelTypes

  /** `format!("{}", n)`: the decimal digits of `n`. */
  function DecimalString(n: nat): (r: string)
    ensures |r| > 0
    ensures n >= 10 ==> |r| >= 2
    decreases n
  {
    if n < 10 then [('0' as int + n) as char]
    else DecimalString(n / 10) + [('0' as int + n % 10) as char]
  }

  /** Different numbers print differently. */
  lemma {:induction false} DecimalStringInjective(a: nat, b: nat)
    requires DecimalString(a) == DecimalString(b)
    ensures a == b
    decreases a
  {
    var s := DecimalString(a);
    if a < 10 && b < 10 {
      assert s[0] == ('0' as int + a) as char == ('0' as int + b) as char;
    } else if a >= 10 && b >= 10 {
      var sa, sb := DecimalString(a / 10), DecimalString(b / 10);
      assert s == sa + [('0' as int + a % 10) as char] == sb + [('0' as int + b % 10) as char];
      assert s[|s| - 1] == ('0' as int + a % 10) as char == ('0' as int + b % 10) as char;
      assert sa == s[..|s| - 1] == sb;
      DecimalStringInjective(a / 10, b / 10);
    }
  }

  // ----------------------------------------------------- de-duplication

  function ToolNames(rs: seq<ResolvedAgent>): (r: seq<string>)
    ensures |r| == |rs| && forall i | 0 <= i < |rs| :: r[i] == rs[i].toolName
  {
    seq(|rs|, i requires 0 <= i < |rs| => rs[i].toolName)
  }

  /**
   * The tool name record `i` ends up with: the first record with a name
   * keeps it, the k-th (k >= 2) becomes `name_k`. Counts are kept per
   * original name.
   */
  function DedupedName(names: seq<string>, i: nat): string
    requires i < |names|
  {
    var before := multiset(names[..i])[names[i]];
    if before == 0 then names[i] else names[i] + "_" + DecimalString(before + 1)
  }

  /** The records after `dedupe_tool_names`: same order, only tool names changed. */
  function DedupeSpec(rs: seq<ResolvedAgent>): (r: seq<ResolvedAgent>)
    ensures |r| == |rs|
  {
    seq(|rs|, i requires 0 <= i < |rs| => rs[i].(toolName := DedupedName(ToolNames(rs), i)))
  }

  /** `seen` holds how often each name occurs in `prefix`, and only the names that do. */
  ghost predicate Counts(seen: map<string, nat>, prefix: seq<string>) {
    forall n :: (n in seen <==> multiset(prefix)[n] > 0) && (n in seen ==> seen[n] == multiset(prefix)[n])
  }

  /** One step of the loop: the count update keeps `Counts`, and the candidate is the deduplicated name. */
  lemma CountStep(seen: map<string, nat>, names: seq<string>, i: nat)
    requires i < |names| && Counts(seen, names[..i])
    ensures var n := names[i];
      && (n in seen ==> Counts(seen[n := seen[n] + 1], names[..i + 1])
                        && DedupedName(names, i) == n + "_" + DecimalString(seen[n] + 1))
      && (n !in seen ==> Counts(seen[n := 1], names[..i + 1]) && DedupedName(names, i) == n)
  {
    assert names[..i + 1] == names[..i] + [names[i]];
  }

  /** The body of the loop: bump or start the count of `name` and pick its new tool name. */
  method NextName(seen: map<string, nat>, name: string, ghost names: seq<string>, ghost i: nat)
    returns (next: map<string, nat>, candidate: string)
    requires i < |names| && name == names[i] && Counts(seen, names[..i])
    ensures candidate == DedupedName(names, i)
    ensures Counts(next, names[..i + 1])
  {
    CountStep(seen, names, i);
    candidate := name;
    if candidate in seen {
      var count := seen[candidate] + 1;
      next := seen[candidate := count];
      candidate := candidate + "_" + DecimalString(count);
    } else {
      next := seen[candidate := 1];
    }
  }

  /** `dedupe_tool_names`: one pass over the records with a count per name seen. */
  method DedupeToolNames(records: array<ResolvedAgent>)
    modifies records
    ensures records[..] == DedupeSpec(old(records[..]))
  {
    ghost var orig := records[..];
    ghost var names := ToolNames(orig);
    ghost var spec := DedupeSpec(orig);
    var seen: map<string, nat> := map[];
    for i := 0 to records.Length
      invariant forall j | 0 <= j < records.Length :: records[j] == if j < i then spec[j] else orig[j]
      invariant Counts(seen, names[..i])
    {
      var r := records[i];
      var candidate;
      seen, candidate := NextName(seen, r.toolName, names, i);
      records[i] := r.(toolName := candidate);
    }
    assert records[..] == spec;
  }

  /** The first record with a name keeps it. */
  lemma DedupeKeepsFirst(names: seq<string>, i: nat)
    requires i < |names| && forall j | 0 <= j < i :: names[j] != names[i]
    ensures DedupedName(names, i) == names[i]
  {
    assert names[i] !in multiset(names[..i]);
  }

  /** Distinct names are left alone. */
  lemma DedupeOfDistinct(rs: seq<ResolvedAgent>)
    requires forall i, j | 0 <= i < j < |rs| :: rs[i].toolName != rs[j].toolName
    ensures DedupeSpec(rs) == rs
  {
    forall i | 0 <= i < |rs| ensures DedupeSpec(rs)[i] == rs[i] {
      DedupeKeepsFirst(ToolNames(rs), i);
    }
  }

  /** The k-th record named `n` (k counted from 1) is renamed to n_k when k >= 2. */
  lemma DedupeRenamesRepeats(names: seq<string>, i: nat, k: nat)
    requires i < |names| && k == multiset(names[..i + 1])[names[i]] && k >= 2
    ensures DedupedName(names, i) == names[i] + "_" + DecimalString(k)
  {
    assert names[..i + 1] == names[..i] + [names[i]];
  }

  /** Two records with the same original name never end up with the same name. */
  lemma DedupeSeparatesRepeats(names: seq<string>, i: nat, j: nat)
    requires i < j < |names| && names[i] == names[j]
    ensures DedupedName(names, i) != DedupedName(names, j)
  {
    var n := names[i];
    var ci, cj := multiset(names[..i])[n], multiset(names[..j])[n];
    assert names[..j] == names[..i] + [names[i]] + names[i + 1..j];
    assert cj >= ci + 1;
    if ci == 0 {
      assert |DedupedName(names, j)| > |n|;
    } else if DedupedName(names, i) == DedupedName(names, j) {
      var suffix := |n| + 1;
      assert DedupedName(names, i)[suffix..] == DecimalString(ci + 1);
      assert DedupedName(names, j)[suffix..] == DecimalString(cj + 1);
      DecimalStringInjective(ci + 1, cj + 1);
    }
  }

  /** Uniqueness is not guaranteed: a, a, a_2 become a, a_2, a_2. */
  lemma DedupeNotDistinct()
    ensures DedupedName(["a", "a", "a_2"], 0) == "a"
    ensures DedupedName(["a", "a", "a_2"], 1) == "a_2"
    ensures DedupedName(["a", "a", "a_2"], 2) == "a_2"
  {
    var names := ["a", "a", "a_2"];
    assert names[..1] == ["a"] && names[..2] == ["a", "a"];
    assert multiset(names[..1])["a"] == 1;
    assert multiset(names[..2])["a_2"] == 0;
    assert DecimalString(2) == "2";
  }

  // ---------------------------------------------------------------- filter

  /** `build_allowed_set` as a set: the lowercased filter tokens. */
  function AllowedSet(filter: string): set<string> {
    LoweredSet(Tokens(filter, CommaOrWhitespace))
  }

  /** The lowercased members of `toks`. */
  function LoweredSet(toks: seq<string>): (r: set<string>)
    ensures forall a | a in r :: exists i | 0 <= i < |toks| :: a == AsciiLower(toks[i])
  {
    if toks == [] then {}
    else
      var rest := LoweredSet(toks[..|toks| - 1]);
      assert forall i | 0 <= i < |toks| - 1 :: toks[..|toks| - 1][i] == toks[i];
      rest + {AsciiLower(toks[|toks| - 1])}
  }

  /** `build_allowed_set`: inserts every trimmed, lowercased non-blank piece. */
  method BuildAllowedSet(filter: string) returns (allowed: set<string>)
    ensures allowed == AllowedSet(filter)
  {
    var toks := Tokens(filter, CommaOrWhitespace);
    allowed := {};
    for i := 0 to |toks|
      invariant allowed == LoweredSet(toks[..i])
    {
      LoweredSetSnoc(toks, i);
      allowed := allowed + {AsciiLower(toks[i])};
    }
    assert toks[..|toks|] == toks;
  }

  lemma LoweredSetSnoc(toks: seq<string>, i: nat)
    requires i < |toks|
    ensures LoweredSet(toks[..i + 1]) == LoweredSet(toks[..i]) + {AsciiLower(toks[i])}
  {
    assert toks[..i + 1][..i] == toks[..i];
  }

  /** Every allowed token is non-empty, lower case and free of commas and white space. */
  lemma AllowedSetShape(filter: string)
    ensures forall a | a in AllowedSet(filter) :: a != "" && NoAsciiUpper(a) && NoSep(CommaOrWhitespace, a)
  {
    forall a | a in AllowedSet(filter) ensures a != "" && NoAsciiUpper(a) && NoSep(CommaOrWhitespace, a) {
      var toks := Tokens(filter, CommaOrWhitespace);
      var i :| 0 <= i < |toks| && a == AsciiLower(toks[i]);
      LoweredTokenShape(toks[i]);
    }
  }

  /** Lowercasing a token keeps it non-empty and free of separators. */
  lemma LoweredTokenShape(t: string)
    requires t != [] && NoSep(CommaOrWhitespace, t)
    ensures AsciiLower(t) != "" && NoAsciiUpper(AsciiLower(t)) && NoSep(CommaOrWhitespace, AsciiLower(t))
  {
    var a := AsciiLower(t);
    AsciiLowerIsLower(t);
    forall j | 0 <= j < |a| ensures !IsSep(CommaOrWhitespace, a[j]) {
      assert !IsSep(CommaOrWhitespace, t[j]);
    }
  }

  /** `match_agent` as a predicate: name in lower case, safe name, or a lowercased tag is allowed. */
  predicate Matches(cfg: AgentConfig, allowed: set<string>) {
    || AsciiLower(cfg.name) in allowed
    || SafeName(cfg.name) in allowed
    || (cfg.tags.Some? && exists i | 0 <= i < |cfg.tags.value| :: AsciiLower(cfg.tags.value[i]) in allowed)
  }

  /** `match_agent`: the name checks, then the tags one by one with an early return. */
  method MatchAgent(cfg: AgentConfig, allowed: set<string>) returns (b: bool)
    ensures b == Matches(cfg, allowed)
  {
    var name := AsciiLower(cfg.name);
    var safe := SafeName(cfg.name);
    if name in allowed || safe in allowed {
      return true;
    }
    if cfg.tags.Some? {
      var tags := cfg.tags.value;
      for i := 0 to |tags|
        invariant forall j | 0 <= j < i :: AsciiLower(tags[j]) !in allowed
      {
        if AsciiLower(tags[i]) in allowed {
          return true;
        }
      }
    }
    return false;
  }

  /** `agents.retain(|ra| match_agent(..))` */
  function Retained(agents: seq<ResolvedAgent>, allowed: set<string>): (r: seq<ResolvedAgent>)
    ensures |r| <= |agents|
  {
    if agents == [] then []
    else
      var rest := Retained(agents[..|agents| - 1], allowed);
      if Matches(agents[|agents| - 1].config, allowed) then rest + [agents[|agents| - 1]] else rest
  }

  /** The filter applies only when it is present and not blank. */
  function ApplyFilter(agents: seq<ResolvedAgent>, filter: Option<string>): seq<ResolvedAgent> {
    if filter.Some? && !IsBlank(filter.value) then Retained(agents, AllowedSet(filter.value)) else agents
  }

  /** Exactly the matching agents are kept. */
  lemma {:induction false} RetainedMembers(agents: seq<ResolvedAgent>, allowed: set<string>)
    ensures forall a :: a in Retained(agents, allowed) <==> a in agents && Matches(a.config, allowed)
  {
    if agents != [] {
      var init := agents[..|agents| - 1];
      RetainedMembers(init, allowed);
      assert agents == init + [agents[|agents| - 1]];
    }
  }

  /** A missing or blank filter keeps every agent; otherwise only matching agents remain. */
  lemma FilterKeeps(agents: seq<ResolvedAgent>, filter: Option<string>)
    ensures filter.None? || IsBlank(filter.value) ==> ApplyFilter(agents, filter) == agents
    ensures filter.Some? && !IsBlank(filter.value) ==>
      forall a :: a in ApplyFilter(agents, filter) <==> a in agents && Matches(a.config, AllowedSet(filter.value))
  {
    if filter.Some? && !IsBlank(filter.value) {
      RetainedMembers(agents, AllowedSet(filter.value));
    }
  }

  /** The filter "Research,demo" allows exactly "research" and "demo". */
  lemma AllowedSetExample()
    ensures AllowedSet("Research,demo") == {"research", "demo"}
  {
    TokensExample();
    LoweredSetExample();
  }

  lemma LoweredSetExample()
    ensures LoweredSet(["Research", "demo"]) == {"research", "demo"}
  {
    var toks := ["Research", "demo"];
    assert toks[..1] == ["Research"] && toks[..1][..0] == [];
    assert AsciiLower("Research") == "research";
    assert AsciiLower("demo") == "demo";
    assert LoweredSet(toks[..1]) == {"research"};
  }

  lemma TokensExample()
    ensures Tokens("Research,demo", CommaOrWhitespace) == ["Research", "demo"]
  {
    var ps := ["Research", "demo"];
    assert Join(ps, ",") == "Research,demo";
    TokensOfJoinedPieces(ps, ',', CommaOrWhitespace);
    TrimOfNoEdgeSpace("demo");
    BlankIffTrimEmpty("demo");
    NonBlankTrimmedCons("demo", []);
    assert ["demo"] == ["demo"] + [];
    TrimOfNoEdgeSpace("Research");
    BlankIffTrimEmpty("Research");
    NonBlankTrimmedCons("Research", ["demo"]);
    assert ps == ["Research"] + ["demo"];
  }

  /**
   * That filter's set keeps an agent "Deep Research" tagged "Demo" and drops
   * it untagged: neither "deep research" nor "deep_research" is a token.
   */
  lemma FilterByTagExample(cfg: AgentConfig)
    requires cfg.name == "Deep Research"
    ensures cfg.tags == Some(["Demo"]) ==> Matches(cfg, {"research", "demo"})
    ensures cfg.tags.None? ==> !Matches(cfg, {"research", "demo"})
  {
    assert AsciiLower("Demo") == "demo";
    if cfg.tags == Some(["Demo"]) {
      assert AsciiLower(cfg.tags.value[0]) in {"research", "demo"};
    }
    assert AsciiLower("Deep Research") == "deep research";
    SafeNameOfDeepResearch();
  }

  lemma SafeNameOfDeepResearch()
    ensures SafeName("Deep Research") == "deep_research"
  {
    assert Sanitize("Deep Research") == "deep_research";
    assert TrimUnderscores("deep_research") == "deep_research";
  }
}
