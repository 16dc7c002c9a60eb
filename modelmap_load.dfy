/**
 * Building a model map from a mapping file (modelmap/load.rs): every entry
 * is stored under its ASCII-lowercased token and under each of its
 * lowercased aliases, in file order, later keys overwriting earlier ones;
 * the file's provider aliases are laid over the built-in ones.
 *
 * The file arrives already deserialized as a `RawMappingFile`.
 */
module ModelMapLoad {
  import opened Wrappers
  import opened Strings
  import opened ModelMapTypes
  import opened ModelMapDefault

  /** `load_default`: the two built-in tables. */
  function LoadDefault(): ModelMap {
    ModelMap(DefaultModelTokens, DefaultProviderAliases())
  }

  /** The canonical target of an entry. */
  function CanonOf(e: RawEntry): Canonical { Canonical(e.toModel, e.toProvider) }

  /** Storing `c` under each lowercased key of `ks`, in order. */
  function InsertKeys(m: map<string, Canonical>, ks: seq<string>, c: Canonical): map<string, Canonical> {
    if ks == [] then m else InsertKeys(m, ks[..|ks| - 1], c)[AsciiLower(ks[|ks| - 1]) := c]
  }

  /** `insert_entry` for the token, then for each alias. */
  function InsertEntry(m: map<string, Canonical>, e: RawEntry): map<string, Canonical> {
    InsertKeys(m[AsciiLower(e.token) := CanonOf(e)], e.aliases.GetOr([]), CanonOf(e))
  }

  /** The `by_token` table built from the entries, in order. */
  function ByToken(es: seq<RawEntry>): map<string, Canonical> {
    if es == [] then map[] else InsertEntry(ByToken(es[..|es| - 1]), es[|es| - 1])
  }

  /** The pairs of `file` in the order `order` visits its keys. */
  function PairsOf(file: map<string, string>, order: seq<string>): seq<(string, string)>
    requires forall i | 0 <= i < |order| :: order[i] in file
  {
    seq(|order|, i requires 0 <= i < |order| => (order[i], file[order[i]]))
  }

  /** `order` lists every key of `keys` exactly once. */
  predicate Enumerates(order: seq<string>, keys: set<string>) {
    && (forall i | 0 <= i < |order| :: order[i] in keys)
    && (forall k | k in keys :: k in order)
    && (forall i, j | 0 <= i < j < |order| :: order[i] != order[j])
  }

  /**
   * `mm` is the map `build_model_map` makes of `raw` when it visits the
   * file's provider aliases in `order`: the token table in file order, and
   * the built-in provider aliases overlaid with the file's, lowercased.
   */
  predicate BuiltFrom(raw: RawMappingFile, mm: ModelMap, order: seq<string>) {
    && mm.byToken == ByToken(raw.mappings)
    && (raw.providerAliases.None? ==> order == [] && mm.providerAliases == DefaultProviderAliases())
    && (raw.providerAliases.Some? ==>
          && Enumerates(order, raw.providerAliases.value.Keys)
          && mm.providerAliases == InsertLowered(DefaultProviderAliases(), PairsOf(raw.providerAliases.value, order)))
  }

  /**
   * `build_model_map`. The file's provider aliases come from a hash map
   * whose iteration order is unspecified; `order` is the order this run
   * visited them, which decides the winner among aliases that differ only
   * in case.
   */
  method BuildModelMap(raw: RawMappingFile) returns (mm: ModelMap, ghost order: seq<string>)
    ensures mm.byToken == ByToken(raw.mappings)
    ensures raw.providerAliases.None? ==> mm.providerAliases == DefaultProviderAliases()
    ensures BuiltFrom(raw, mm, order)
  {
    var byToken: map<string, Canonical> := map[];
    var i := 0;
    while i < |raw.mappings|
      invariant 0 <= i <= |raw.mappings|
      invariant byToken == ByToken(raw.mappings[..i])
    {
      var e := raw.mappings[i];
      ByTokenSnoc(raw.mappings, i);
      byToken := byToken[AsciiLower(e.token) := CanonOf(e)];
      ghost var start := byToken;
      if e.aliases.Some? {
        var aliases := e.aliases.value;
        var j := 0;
        while j < |aliases|
          invariant 0 <= j <= |aliases|
          invariant byToken == InsertKeys(start, aliases[..j], CanonOf(e))
        {
          InsertKeysSnoc(start, aliases, j, CanonOf(e));
          var alias := e.(token := aliases[j]);
          byToken := byToken[AsciiLower(alias.token) := CanonOf(alias)];
          j := j + 1;
        }
        assert aliases[..j] == aliases;
      }
      i := i + 1;
    }
    assert raw.mappings[..i] == raw.mappings;
    var providerAliases := DefaultProviderAliases();
    order := [];
    if raw.providerAliases.Some? {
      providerAliases, order := InsertProviderAliases(raw.providerAliases.value);
    }
    mm := ModelMap(byToken, providerAliases);
  }

  /**
   * The provider-alias loop of `build_model_map`: the defaults, then each
   * alias of the file lower-cased, in the order the loop visits them.
   */
  method InsertProviderAliases(file: map<string, string>) returns (providerAliases: map<string, string>, ghost order: seq<string>)
    ensures Enumerates(order, file.Keys)
    ensures providerAliases == InsertLowered(DefaultProviderAliases(), PairsOf(file, order))
  {
    providerAliases := DefaultProviderAliases();
    order := [];
    var rest := file.Keys;
    while rest != {}
      invariant rest <= file.Keys
      invariant forall i | 0 <= i < |order| :: order[i] in file && order[i] !in rest
      invariant forall k | k in file && k !in rest :: k in order
      invariant forall i, j | 0 <= i < j < |order| :: order[i] != order[j]
      invariant providerAliases == InsertLowered(DefaultProviderAliases(), PairsOf(file, order))
      decreases |rest|
    {
      var k :| k in rest;
      InsertLoweredSnoc(DefaultProviderAliases(), file, order, k);
      providerAliases := providerAliases[AsciiLower(k) := file[k]];
      rest := rest - {k};
      order := order + [k];
    }
  }

  lemma ByTokenSnoc(es: seq<RawEntry>, i: nat)
    requires i < |es|
    ensures ByToken(es[..i + 1]) == InsertEntry(ByToken(es[..i]), es[i])
  {
    assert es[..i + 1][..i] == es[..i];
  }

  lemma InsertKeysSnoc(m: map<string, Canonical>, ks: seq<string>, j: nat, c: Canonical)
    requires j < |ks|
    ensures InsertKeys(m, ks[..j + 1], c) == InsertKeys(m, ks[..j], c)[AsciiLower(ks[j]) := c]
  {
    assert ks[..j + 1][..j] == ks[..j];
  }

  lemma InsertLoweredSnoc(m: map<string, string>, file: map<string, string>, order: seq<string>, k: string)
    requires forall i | 0 <= i < |order| :: order[i] in file
    requires k in file
    ensures InsertLowered(m, PairsOf(file, order + [k])) == InsertLowered(m, PairsOf(file, order))[AsciiLower(k) := file[k]]
  {
    assert PairsOf(file, order + [k])[..|order|] == PairsOf(file, order);
  }

  // -------------------------------------------------------------- properties

  /** The lowercased keys `ks` names. */
  function LoweredKeys(ks: seq<string>): set<string> {
    set i | 0 <= i < |ks| :: AsciiLower(ks[i])
  }

  /** Storing under several keys: those keys now hold `c`, every other key is as before. */
  lemma {:induction false} InsertKeysProps(m: map<string, Canonical>, ks: seq<string>, c: Canonical)
    ensures InsertKeys(m, ks, c).Keys == m.Keys + LoweredKeys(ks)
    ensures forall k | k in LoweredKeys(ks) :: InsertKeys(m, ks, c)[k] == c
    ensures forall k | k in m && k !in LoweredKeys(ks) :: InsertKeys(m, ks, c)[k] == m[k]
  {
    if ks != [] {
      var ks' := ks[..|ks| - 1];
      InsertKeysProps(m, ks', c);
      assert LoweredKeys(ks) == LoweredKeys(ks') + {AsciiLower(ks[|ks| - 1])} by {
        forall k | k in LoweredKeys(ks) ensures k in LoweredKeys(ks') + {AsciiLower(ks[|ks| - 1])} {
          var i :| 0 <= i < |ks| && k == AsciiLower(ks[i]);
          if i < |ks'| { assert ks'[i] == ks[i]; }
        }
        forall k | k in LoweredKeys(ks') ensures k in LoweredKeys(ks) {
          var i :| 0 <= i < |ks'| && k == AsciiLower(ks'[i]);
          assert ks[i] == ks'[i];
        }
        assert AsciiLower(ks[|ks| - 1]) in LoweredKeys(ks);
      }
    }
  }

  /** The keys an entry is stored under: its lowercased token and its lowercased aliases. */
  function EntryKeys(e: RawEntry): set<string> {
    {AsciiLower(e.token)} + LoweredKeys(e.aliases.GetOr([]))
  }

  /**
   * Adding an entry: its token and every alias now name the entry's own
   * canonical target, overwriting what was there; every other key keeps its
   * value.
   */
  lemma InsertEntryProps(m: map<string, Canonical>, e: RawEntry)
    ensures InsertEntry(m, e).Keys == m.Keys + EntryKeys(e)
    ensures forall k | k in EntryKeys(e) :: InsertEntry(m, e)[k] == CanonOf(e)
    ensures forall k | k in m && k !in EntryKeys(e) :: InsertEntry(m, e)[k] == m[k]
  {
    InsertKeysProps(m[AsciiLower(e.token) := CanonOf(e)], e.aliases.GetOr([]), CanonOf(e));
  }

  /** Every key of `by_token` is lowercase and names an entry of the file; no built-in token is merged in. */
  lemma {:induction false} ByTokenKeys(es: seq<RawEntry>)
    ensures forall k | k in ByToken(es) :: NoAsciiUpper(k)
    ensures forall k | k in ByToken(es) :: exists i | 0 <= i < |es| :: k in EntryKeys(es[i])
  {
    if es != [] {
      var es' := es[..|es| - 1];
      var e := es[|es| - 1];
      ByTokenKeys(es');
      InsertEntryProps(ByToken(es'), e);
      forall k | k in ByToken(es) ensures NoAsciiUpper(k) && exists i | 0 <= i < |es| :: k in EntryKeys(es[i]) {
        if k in EntryKeys(e) {
          if k != AsciiLower(e.token) {
            var aliases := e.aliases.GetOr([]);
            var j :| 0 <= j < |aliases| && k == AsciiLower(aliases[j]);
            AsciiLowerIsLower(aliases[j]);
          } else {
            AsciiLowerIsLower(e.token);
          }
          assert es[|es| - 1] == e;
        } else {
          var i :| 0 <= i < |es'| && k in EntryKeys(es'[i]);
          assert es[i] == es'[i];
        }
      }
    }
  }

  /** The last entry of the file wins for each key it is stored under; other keys are as the earlier entries left them. */
  lemma LastEntryWins(es: seq<RawEntry>, e: RawEntry)
    ensures ByToken(es + [e]).Keys == ByToken(es).Keys + EntryKeys(e)
    ensures forall k | k in EntryKeys(e) :: ByToken(es + [e])[k] == CanonOf(e)
    ensures forall k | k in ByToken(es) && k !in EntryKeys(e) :: ByToken(es + [e])[k] == ByToken(es)[k]
  {
    assert (es + [e])[..|es|] == es;
    InsertEntryProps(ByToken(es), e);
  }

  /** Laying pairs over a table: a key that some pair lowers to holds the value of the last such pair; the rest keep theirs. */
  lemma {:induction false} InsertLoweredProps(m: map<string, string>, pairs: seq<(string, string)>)
    ensures forall k | k in InsertLowered(m, pairs) :: k in m || exists i | 0 <= i < |pairs| :: AsciiLower(pairs[i].0) == k
    ensures forall i | 0 <= i < |pairs| ::
      (forall j | i < j < |pairs| :: AsciiLower(pairs[j].0) != AsciiLower(pairs[i].0)) ==>
      InsertLowered(m, pairs)[AsciiLower(pairs[i].0)] == pairs[i].1
    ensures forall k | k in m && (forall i | 0 <= i < |pairs| :: AsciiLower(pairs[i].0) != k) ::
      InsertLowered(m, pairs)[k] == m[k]
  {
    if pairs != [] {
      var ps' := pairs[..|pairs| - 1];
      InsertLoweredProps(m, ps');
      forall k | k in InsertLowered(m, pairs) ensures k in m || exists i | 0 <= i < |pairs| :: AsciiLower(pairs[i].0) == k {
        if k != AsciiLower(pairs[|pairs| - 1].0) && k !in m {
          var i :| 0 <= i < |ps'| && AsciiLower(ps'[i].0) == k;
          assert pairs[i] == ps'[i];
        }
      }
      forall i | 0 <= i < |pairs| && (forall j | i < j < |pairs| :: AsciiLower(pairs[j].0) != AsciiLower(pairs[i].0))
        ensures InsertLowered(m, pairs)[AsciiLower(pairs[i].0)] == pairs[i].1
      {
        if i < |ps'| {
          assert ps'[i] == pairs[i];
          assert forall j | i < j < |ps'| :: ps'[j] == pairs[j];
        }
      }
      forall k | k in m && (forall i | 0 <= i < |pairs| :: AsciiLower(pairs[i].0) != k)
        ensures InsertLowered(m, pairs)[k] == m[k]
      {
        assert forall i | 0 <= i < |ps'| :: ps'[i] == pairs[i];
      }
    }
  }

  /**
   * Without aliases that differ only in case, the visiting order does not
   * matter: each file alias, lowercased, names its own canonical provider,
   * and a built-in alias no file alias lowers to is kept.
   */
  lemma ProviderAliasesOverlay(file: map<string, string>, order: seq<string>)
    requires Enumerates(order, file.Keys)
    requires forall a, b | a in file && b in file && a != b :: AsciiLower(a) != AsciiLower(b)
    ensures var r := InsertLowered(DefaultProviderAliases(), PairsOf(file, order));
      && (forall a | a in file :: AsciiLower(a) in r && r[AsciiLower(a)] == file[a])
      && (forall k | k in DefaultProviderAliases() && (forall a | a in file :: AsciiLower(a) != k) :: r[k] == DefaultProviderAliases()[k])
  {
    var ps := PairsOf(file, order);
    InsertLoweredProps(DefaultProviderAliases(), ps);
    forall a | a in file ensures AsciiLower(a) in InsertLowered(DefaultProviderAliases(), ps)
      && InsertLowered(DefaultProviderAliases(), ps)[AsciiLower(a)] == file[a]
    {
      var i :| 0 <= i < |order| && order[i] == a;
      assert ps[i] == (a, file[a]);
    }
  }

  /**
   * What any run of `build_model_map` yields, whatever order it visits the
   * provider aliases in: a lowercase token table drawn from the file's
   * entries alone, the built-in provider aliases untouched when the file has
   * none, and otherwise each file alias overlaying them (when no two differ
   * only in case).
   */
  lemma BuiltMapProps(raw: RawMappingFile, mm: ModelMap, order: seq<string>)
    requires BuiltFrom(raw, mm, order)
    ensures forall k | k in mm.byToken :: NoAsciiUpper(k)
    ensures forall k | k in mm.byToken :: exists i | 0 <= i < |raw.mappings| :: k in EntryKeys(raw.mappings[i])
    ensures raw.providerAliases.None? ==> mm.providerAliases == DefaultProviderAliases()
    ensures raw.providerAliases.Some? ==> var file := raw.providerAliases.value;
      (forall a, b | a in file && b in file && a != b :: AsciiLower(a) != AsciiLower(b)) ==>
        && (forall a | a in file :: AsciiLower(a) in mm.providerAliases && mm.providerAliases[AsciiLower(a)] == file[a])
        && (forall k | k in DefaultProviderAliases() && (forall a | a in file :: AsciiLower(a) != k) ::
              k in mm.providerAliases && mm.providerAliases[k] == DefaultProviderAliases()[k])
  {
    ByTokenKeys(raw.mappings);
    if raw.providerAliases.Some? {
      var file := raw.providerAliases.value;
      InsertLoweredProps(DefaultProviderAliases(), PairsOf(file, order));
      if forall a, b | a in file && b in file && a != b :: AsciiLower(a) != AsciiLower(b) {
        ProviderAliasesOverlay(file, order);
      }
    }
  }

  /** The mapping file of the unit test in modelmap/load.rs: "GPT-4.1" is stored as "gpt-4.1" with provider openai, and "OpenAI" as alias "openai". */
  lemma TestMappingFile()
    ensures var es := [RawEntry("GPT-4.1", "gpt-4.1", Some("openai"), None)];
      ByToken(es) == map["gpt-4.1" := Canonical("gpt-4.1", Some("openai"))]
    ensures var r := InsertLowered(DefaultProviderAliases(), PairsOf(map["OpenAI" := "openai"], ["OpenAI"]));
      "openai" in r && r["openai"] == "openai"
  {
    var es := [RawEntry("GPT-4.1", "gpt-4.1", Some("openai"), None)];
    assert es[..0] == [];
    assert AsciiLower("GPT-4.1") == "gpt-4.1";
    assert AsciiLower("OpenAI") == "openai";
    var ps := PairsOf(map["OpenAI" := "openai"], ["OpenAI"]);
    assert ps == [("OpenAI", "openai")];
    assert ps[..0] == [];
  }
}
