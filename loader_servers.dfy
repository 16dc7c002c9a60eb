/**
 * Which discovered MCP servers an agent gets (loader.rs): attaching by
 * reference, gating by an enumerated tool inventory, choosing the servers to
 * enumerate, skipping Switchboard's own server, merging custom servers from
 * the tool mapping, and converting an agent's servers into the engine's
 * configuration.
 */
module LoaderServers {
  import opened Wrappers
  import opened Strings
  import opened Paths
  import opened Values
  import opened Naming
  import opened McpTypes
  import opened ModelTypes
  import opened ToolMapTypes
  import opened ToolMapApply

  /** Every entry of `a` is an entry of `b`. */
  predicate SubMap<V(==)>(a: map<string, V>, b: map<string, V>) {
    forall k | k in a :: k in b && a[k] == b[k]
  }

  /** The entries of `m` whose key is in `keys`. */
  function Restrict<V(==)>(m: map<string, V>, keys: set<string>): map<string, V> {
    map k | k in m && k in keys :: m[k]
  }

  lemma RestrictProps<V>(m: map<string, V>, keys: set<string>)
    ensures SubMap(Restrict(m, keys), m)
    ensures forall k :: k in Restrict(m, keys) <==> k in m && k in keys
  {
  }

  /** One more key adds at most its own entry. */
  lemma RestrictStep<V>(m: map<string, V>, done: set<string>, k: string)
    requires k !in done
    ensures k in m ==> Restrict(m, done + {k}) == Restrict(m, done)[k := m[k]]
    ensures k !in m ==> Restrict(m, done + {k}) == Restrict(m, done)
  {
  }

  lemma RestrictUnion<V>(m: map<string, V>, a: set<string>, b: set<string>)
    ensures Restrict(m, a + b) == Restrict(m, a) + Restrict(m, b)
  {
  }

  /** Updating the right operand of `+`. */
  lemma UnionUpdate<V>(a: map<string, V>, b: map<string, V>, k: string, v: V)
    ensures (a + b)[k := v] == a + b[k := v]
  {
  }

  /** Some reference is a bare tool name. */
  predicate HasBare(refs: seq<McpToolRef>) {
    exists i | 0 <= i < |refs| :: refs[i].Bare?
  }

  /** The server keys named by `server::tool` references. */
  function NamespacedKeys(refs: seq<McpToolRef>): set<string> {
    if refs == [] then {}
    else
      var last := refs[|refs| - 1];
      NamespacedKeys(refs[..|refs| - 1]) + (if last.Namespaced? then {last.serverKey} else {})
  }

  lemma {:induction false} NamespacedKeysMembers(refs: seq<McpToolRef>)
    ensures forall k :: k in NamespacedKeys(refs) <==>
      exists i | 0 <= i < |refs| :: refs[i].Namespaced? && refs[i].serverKey == k
  {
    if refs != [] {
      var init := refs[..|refs| - 1];
      NamespacedKeysMembers(init);
      assert forall i | 0 <= i < |init| :: init[i] == refs[i];
    }
  }

  // ------------------------------------------------------------- attaching

  /** `attach_mcp_servers_to_agent` as a function of its inputs. */
  function AttachSpec(ra: ResolvedAgent, discovered: ServerMap, limit: bool): (r: ResolvedAgent)
    ensures r == ra.(mcpServers := r.mcpServers)
  {
    if discovered == map[] then ra
    else if !limit then ra.(mcpServers := discovered)
    else match ra.config.mcpToolRefs
      case None => ra
      case Some(refs) =>
        if HasBare(refs) then ra.(mcpServers := discovered)
        else ra.(mcpServers := Restrict(discovered, NamespacedKeys(refs)))
  }

  /**
   * `attach_mcp_servers_to_agent`: without limiting every discovered server;
   * with it the referenced ones, or all of them once a bare reference is seen.
   */
  method AttachMcpServersToAgent(ra: ResolvedAgent, discovered: ServerMap, limit: bool) returns (updated: ResolvedAgent)
    ensures updated == AttachSpec(ra, discovered, limit)
  {
    if discovered == map[] {
      return ra;
    }
    if !limit {
      return ra.(mcpServers := discovered);
    }
    updated := ra;
    if ra.config.mcpToolRefs.Some? {
      var refs := ra.config.mcpToolRefs.value;
      var selected: ServerMap := map[];
      var hasBare := false;
      for i := 0 to |refs|
        invariant selected == Restrict(discovered, NamespacedKeys(refs[..i]))
        invariant hasBare == HasBare(refs[..i])
      {
        assert refs[..i + 1][..i] == refs[..i];
        match refs[i] {
          case Namespaced(key, _) =>
            if key in discovered {
              selected := selected[key := discovered[key]];
            }
          case Bare(_) =>
            hasBare := true;
        }
        assert refs[..i + 1][i] == refs[i];
      }
      assert refs[..|refs|] == refs;
      if hasBare {
        updated := ra.(mcpServers := discovered);
      } else {
        updated := ra.(mcpServers := selected);
      }
    }
  }

  /**
   * What an agent ends up with: everything without limiting or with a bare
   * reference; otherwise exactly the discovered servers its `server::tool`
   * references name; an agent without references keeps its servers.
   */
  lemma AttachSelects(ra: ResolvedAgent, discovered: ServerMap, limit: bool)
    requires discovered != map[]
    ensures var r := AttachSpec(ra, discovered, limit).mcpServers;
      && (!limit ==> r == discovered)
      && (limit && ra.config.mcpToolRefs.None? ==> r == ra.mcpServers)
      && (limit && ra.config.mcpToolRefs.Some? && HasBare(ra.config.mcpToolRefs.value) ==> r == discovered)
      && (limit && ra.config.mcpToolRefs.Some? && !HasBare(ra.config.mcpToolRefs.value) ==>
            SubMap(r, discovered)
            && forall k :: k in r <==> k in discovered && exists i | 0 <= i < |ra.config.mcpToolRefs.value| ::
                 ra.config.mcpToolRefs.value[i] == Namespaced(k, ra.config.mcpToolRefs.value[i].tool))
  {
    if ra.config.mcpToolRefs.Some? {
      NamespacedKeysMembers(ra.config.mcpToolRefs.value);
    }
  }

  /** `attach_mcp_servers_to_agent` over every agent. */
  method AttachAll(agents: seq<ResolvedAgent>, discovered: ServerMap, limit: bool) returns (out: seq<ResolvedAgent>)
    ensures |out| == |agents| && forall i | 0 <= i < |agents| :: out[i] == AttachSpec(agents[i], discovered, limit)
  {
    out := agents;
    for i := 0 to |agents|
      invariant |out| == |agents|
      invariant forall j | 0 <= j < i :: out[j] == AttachSpec(agents[j], discovered, limit)
      invariant forall j | i <= j < |agents| :: out[j] == agents[j]
    {
      var ra := AttachMcpServersToAgent(out[i], discovered, limit);
      out := out[i := ra];
    }
  }

  // --------------------------------------------------------------- gating

  /** The servers whose inventory lists `tool`. */
  function ServersWith(inventory: map<string, set<string>>, tool: string): set<string> {
    set k | k in inventory && tool in inventory[k]
  }

  /**
   * The servers one reference selects: `server::tool` its server when that
   * lists the tool; a bare tool the one server that lists it, or, when
   * several do, all of them only with the fallback.
   */
  function RefSelection(r: McpToolRef, inventory: map<string, set<string>>, fallbackAll: bool): (s: set<string>)
    ensures forall k | k in s :: k in inventory && r.tool in inventory[k]
    ensures r.Namespaced? ==> s <= {r.serverKey}
    ensures r.Bare? && |ServersWith(inventory, r.tool)| > 1 && !fallbackAll ==> s == {}
    ensures r.Bare? && (|ServersWith(inventory, r.tool)| <= 1 || fallbackAll) ==> s == ServersWith(inventory, r.tool)
    ensures r.Namespaced? ==> (s == {r.serverKey} <==> r.serverKey in inventory && r.tool in inventory[r.serverKey])
  {
    match r
    case Namespaced(key, tool) => if key in inventory && tool in inventory[key] then {key} else {}
    case Bare(tool) =>
      var ms := ServersWith(inventory, tool);
      if |ms| > 1 && !fallbackAll then {} else ms
  }

  function SelectedKeys(refs: seq<McpToolRef>, inventory: map<string, set<string>>, fallbackAll: bool): set<string> {
    if refs == [] then {}
    else SelectedKeys(refs[..|refs| - 1], inventory, fallbackAll) + RefSelection(refs[|refs| - 1], inventory, fallbackAll)
  }

  lemma {:induction false} SelectedKeysMembers(refs: seq<McpToolRef>, inventory: map<string, set<string>>, fallbackAll: bool)
    ensures forall k :: k in SelectedKeys(refs, inventory, fallbackAll) <==>
      exists i | 0 <= i < |refs| :: k in RefSelection(refs[i], inventory, fallbackAll)
  {
    if refs != [] {
      var init := refs[..|refs| - 1];
      SelectedKeysMembers(init, inventory, fallbackAll);
      assert forall i | 0 <= i < |init| :: init[i] == refs[i];
    }
  }

  lemma SelectedKeysSnoc(refs: seq<McpToolRef>, i: nat, inventory: map<string, set<string>>, fallbackAll: bool)
    requires i < |refs|
    ensures SelectedKeys(refs[..i + 1], inventory, fallbackAll)
      == SelectedKeys(refs[..i], inventory, fallbackAll) + RefSelection(refs[i], inventory, fallbackAll)
  {
    assert refs[..i + 1][..i] == refs[..i];
  }

  /** The servers the references select, before the fallback to everything. */
  function Selected(ra: ResolvedAgent, discovered: ServerMap, inventory: map<string, set<string>>, fallbackAll: bool): ServerMap {
    match ra.config.mcpToolRefs
    case None => map[]
    case Some(refs) => Restrict(discovered, SelectedKeys(refs, inventory, fallbackAll))
  }

  /** `gate_by_inventory` as a function of its inputs. */
  function GateSpec(ra: ResolvedAgent, discovered: ServerMap, inventory: map<string, set<string>>, fallbackAll: bool, limit: bool): (r: ResolvedAgent)
    ensures r == ra.(mcpServers := r.mcpServers)
    ensures SubMap(r.mcpServers, discovered)
  {
    var selected := Selected(ra, discovered, inventory, fallbackAll);
    ra.(mcpServers := if selected == map[] && !limit then discovered else selected)
  }

  /** `selected.extend(..)` over the given keys present in `discovered`, one at a time. */
  method InsertPresent(selected: ServerMap, discovered: ServerMap, keys: set<string>) returns (r: ServerMap)
    ensures r == selected + Restrict(discovered, keys)
  {
    r := selected;
    var rest := keys;
    ghost var done: set<string> := {};
    while rest != {}
      invariant rest + done == keys && rest !! done
      invariant r == selected + Restrict(discovered, done)
      decreases |rest|
    {
      var k :| k in rest;
      RestrictStep(discovered, done, k);
      if k in discovered {
        UnionUpdate(selected, Restrict(discovered, done), k, discovered[k]);
        r := r[k := discovered[k]];
      }
      rest := rest - {k};
      done := done + {k};
    }
  }

  /** A set with one element `k` is `{k}`. */
  lemma Singleton(s: set<string>, k: string)
    requires |s| == 1 && k in s
    ensures s == {k}
  {
    assert |s - {k}| == 0;
  }

  /** Adding the one entry of `key`, if discovered, is the union with its restriction. */
  lemma AddOne(selected: ServerMap, discovered: ServerMap, key: string)
    ensures key in discovered ==> selected[key := discovered[key]] == selected + Restrict(discovered, {key})
    ensures key !in discovered ==> selected == selected + Restrict(discovered, {key})
  {
    RestrictStep(discovered, {}, key);
    assert Restrict(discovered, {}) == map[];
    assert {} + {key} == {key};
  }

  lemma AddNone(selected: ServerMap, discovered: ServerMap)
    ensures selected == selected + Restrict(discovered, {})
  {
    assert Restrict(discovered, {}) == map[];
  }

  /** The loop body of `gate_by_inventory` for one reference. */
  method SelectFor(selected: ServerMap, r: McpToolRef, discovered: ServerMap, inventory: map<string, set<string>>, fallbackAll: bool)
    returns (out: ServerMap)
    ensures out == selected + Restrict(discovered, RefSelection(r, inventory, fallbackAll))
  {
    out := selected;
    match r {
      case Namespaced(key, tool) =>
        if key in inventory && tool in inventory[key] {
          assert RefSelection(r, inventory, fallbackAll) == {key};
          AddOne(selected, discovered, key);
          if key in discovered {
            out := selected[key := discovered[key]];
          }
        } else {
          assert RefSelection(r, inventory, fallbackAll) == {};
          AddNone(selected, discovered);
        }
      case Bare(tool) =>
        var matches := ServersWith(inventory, tool);
        if matches == {} {
          assert RefSelection(r, inventory, fallbackAll) == {};
          AddNone(selected, discovered);
        } else if |matches| == 1 {
          var k :| k in matches;
          Singleton(matches, k);
          assert RefSelection(r, inventory, fallbackAll) == {k};
          AddOne(selected, discovered, k);
          if k in discovered {
            out := selected[k := discovered[k]];
          }
        } else if fallbackAll {
          assert RefSelection(r, inventory, fallbackAll) == matches;
          out := InsertPresent(selected, discovered, matches);
        } else {
          assert RefSelection(r, inventory, fallbackAll) == {};
          AddNone(selected, discovered);
        }
    }
  }

  /** `gate_by_inventory`: select per reference against the inventory, then fall back to everything when allowed. */
  method GateByInventory(ra: ResolvedAgent, discovered: ServerMap, inventory: map<string, set<string>>, fallbackAll: bool, limit: bool)
    returns (updated: ResolvedAgent)
    ensures updated == GateSpec(ra, discovered, inventory, fallbackAll, limit)
  {
    var selected: ServerMap := map[];
    if ra.config.mcpToolRefs.Some? {
      var refs := ra.config.mcpToolRefs.value;
      for i := 0 to |refs|
        invariant selected == Restrict(discovered, SelectedKeys(refs[..i], inventory, fallbackAll))
      {
        SelectedKeysSnoc(refs, i, inventory, fallbackAll);
        RestrictUnion(discovered, SelectedKeys(refs[..i], inventory, fallbackAll), RefSelection(refs[i], inventory, fallbackAll));
        selected := SelectFor(selected, refs[i], discovered, inventory, fallbackAll);
      }
      assert refs[..|refs|] == refs;
    }
    assert selected == Selected(ra, discovered, inventory, fallbackAll);
    if selected == map[] && !limit {
      updated := ra.(mcpServers := discovered);
    } else {
      updated := ra.(mcpServers := selected);
    }
  }

  /**
   * Whenever the fallback does not apply, an agent gets exactly the
   * discovered servers some reference selects.
   */
  lemma GateSelects(ra: ResolvedAgent, discovered: ServerMap, inventory: map<string, set<string>>, fallbackAll: bool, limit: bool)
    requires ra.config.mcpToolRefs.Some?
    requires limit || Selected(ra, discovered, inventory, fallbackAll) != map[]
    ensures var refs := ra.config.mcpToolRefs.value;
      forall k :: k in GateSpec(ra, discovered, inventory, fallbackAll, limit).mcpServers <==>
        k in discovered && exists i | 0 <= i < |refs| :: k in RefSelection(refs[i], inventory, fallbackAll)
  {
    SelectedKeysMembers(ra.config.mcpToolRefs.value, inventory, fallbackAll);
  }

  /** A `server::tool` reference whose server lists the tool keeps that server. */
  lemma GateKeepsListedTool(ra: ResolvedAgent, discovered: ServerMap, inventory: map<string, set<string>>, fallbackAll: bool, limit: bool, i: nat)
    requires ra.config.mcpToolRefs.Some? && i < |ra.config.mcpToolRefs.value|
    requires var r := ra.config.mcpToolRefs.value[i];
      r.Namespaced? && r.serverKey in inventory && r.tool in inventory[r.serverKey] && r.serverKey in discovered
    ensures var key := ra.config.mcpToolRefs.value[i].serverKey;
      var r := GateSpec(ra, discovered, inventory, fallbackAll, limit).mcpServers;
      key in r && r[key] == discovered[key]
  {
    var refs := ra.config.mcpToolRefs.value;
    SelectedKeysMembers(refs, inventory, fallbackAll);
    assert refs[i].serverKey in RefSelection(refs[i], inventory, fallbackAll);
  }

  /** A bare tool listed by exactly one discovered server attaches that server. */
  lemma GateUniqueBare(ra: ResolvedAgent, discovered: ServerMap, inventory: map<string, set<string>>, fallbackAll: bool, limit: bool, i: nat, k: string)
    requires ra.config.mcpToolRefs.Some? && i < |ra.config.mcpToolRefs.value|
    requires ra.config.mcpToolRefs.value[i].Bare?
    requires ServersWith(inventory, ra.config.mcpToolRefs.value[i].tool) == {k} && k in discovered
    ensures k in GateSpec(ra, discovered, inventory, fallbackAll, limit).mcpServers
  {
    var refs := ra.config.mcpToolRefs.value;
    SelectedKeysMembers(refs, inventory, fallbackAll);
    assert k in RefSelection(refs[i], inventory, fallbackAll);
  }

  /**
   * With the fallback on, a bare tool that several servers list attaches
   * every one of them that was discovered.
   */
  lemma GateAmbiguousFallbackAll(ra: ResolvedAgent, discovered: ServerMap, inventory: map<string, set<string>>, limit: bool, i: nat)
    requires ra.config.mcpToolRefs.Some? && i < |ra.config.mcpToolRefs.value|
    requires var r := ra.config.mcpToolRefs.value[i]; r.Bare? && |ServersWith(inventory, r.tool)| > 1
    ensures var ms := ServersWith(inventory, ra.config.mcpToolRefs.value[i].tool);
      var r := GateSpec(ra, discovered, inventory, true, limit).mcpServers;
      forall k | k in ms && k in discovered :: k in r && r[k] == discovered[k]
  {
    var refs := ra.config.mcpToolRefs.value;
    SelectedKeysMembers(refs, inventory, true);
    assert RefSelection(refs[i], inventory, true) == ServersWith(inventory, refs[i].tool);
  }

  /**
   * When the agent has no references, or none of them selects a discovered
   * server, it gets every discovered server, or none when limited to its
   * references.
   */
  lemma GateNothingSelected(ra: ResolvedAgent, discovered: ServerMap, inventory: map<string, set<string>>, fallbackAll: bool)
    requires ra.config.mcpToolRefs.Some? ==> var refs := ra.config.mcpToolRefs.value;
      forall i | 0 <= i < |refs| :: RefSelection(refs[i], inventory, fallbackAll) !! discovered.Keys
    ensures GateSpec(ra, discovered, inventory, fallbackAll, false).mcpServers == discovered
    ensures GateSpec(ra, discovered, inventory, fallbackAll, true).mcpServers == map[]
  {
    if ra.config.mcpToolRefs.Some? {
      var refs := ra.config.mcpToolRefs.value;
      SelectedKeysMembers(refs, inventory, fallbackAll);
      assert Selected(ra, discovered, inventory, fallbackAll) == map[];
    }
  }

  /** `gate_by_inventory` over every agent. */
  method GateAll(agents: seq<ResolvedAgent>, discovered: ServerMap, inventory: map<string, set<string>>, fallbackAll: bool, limit: bool)
    returns (out: seq<ResolvedAgent>)
    ensures |out| == |agents| && forall i | 0 <= i < |agents| :: out[i] == GateSpec(agents[i], discovered, inventory, fallbackAll, limit)
  {
    out := agents;
    for i := 0 to |agents|
      invariant |out| == |agents|
      invariant forall j | 0 <= j < i :: out[j] == GateSpec(agents[j], discovered, inventory, fallbackAll, limit)
      invariant forall j | i <= j < |agents| :: out[j] == agents[j]
    {
      var ra := GateByInventory(out[i], discovered, inventory, fallbackAll, limit);
      out := out[i := ra];
    }
  }

  // ----------------------------------------------------------- enumeration

  /** The servers one agent asks to enumerate: its namespaced servers, and everything for a bare reference. */
  function CandidatesOf(refs: Option<seq<McpToolRef>>, discovered: ServerMap): set<string> {
    match refs
    case None => {}
    case Some(rs) => NamespacedKeys(rs) + (if HasBare(rs) then discovered.Keys else {})
  }

  function AllCandidates(agents: seq<ResolvedAgent>, discovered: ServerMap): set<string> {
    if agents == [] then {}
    else AllCandidates(agents[..|agents| - 1], discovered) + CandidatesOf(agents[|agents| - 1].config.mcpToolRefs, discovered)
  }

  /** The candidate set built agent by agent, reference by reference. */
  method Candidates(agents: seq<ResolvedAgent>, discovered: ServerMap) returns (candidates: set<string>)
    ensures candidates == AllCandidates(agents, discovered)
  {
    candidates := {};
    for i := 0 to |agents|
      invariant candidates == AllCandidates(agents[..i], discovered)
    {
      assert agents[..i + 1][..i] == agents[..i];
      if agents[i].config.mcpToolRefs.Some? {
        var refs := agents[i].config.mcpToolRefs.value;
        var hasBare := HasBare(refs);
        ghost var start := candidates;
        for j := 0 to |refs|
          invariant candidates == start + NamespacedKeys(refs[..j])
        {
          assert refs[..j + 1][..j] == refs[..j];
          if refs[j].Namespaced? {
            candidates := candidates + {refs[j].serverKey};
          }
        }
        assert refs[..|refs|] == refs;
        if hasBare {
          candidates := candidates + discovered.Keys;
        }
      }
    }
    assert agents[..|agents|] == agents;
  }

  function Min(a: nat, b: nat): nat { if a < b then a else b }

  /** `.into_iter().take(cap)` on a set: some `min(|s|, cap)` of its elements. */
  method TakeUpTo(s: set<string>, cap: nat) returns (keys: set<string>)
    ensures keys <= s && |keys| == Min(|s|, cap)
  {
    keys := {};
    var rest := s;
    while |keys| < cap && rest != {}
      invariant keys !! rest && keys + rest == s
      invariant |keys| + |rest| == |s| && |keys| <= cap
      decreases |rest|
    {
      var x :| x in rest;
      keys := keys + {x};
      rest := rest - {x};
    }
  }

  /**
   * The tool inventory of the chosen keys: a probe of a discovered server
   * that succeeds contributes its tool set under the server's key.
   */
  function InventoryFor(keys: set<string>, discovered: ServerMap, probe: NormalizedMcpServer -> Option<set<string>>): map<string, set<string>> {
    map k | k in keys && k in discovered && probe(discovered[k]).Some? :: probe(discovered[k]).value
  }

  lemma InventoryStep(done: set<string>, key: string, discovered: ServerMap, probe: NormalizedMcpServer -> Option<set<string>>)
    ensures var old_ := InventoryFor(done, discovered, probe);
      InventoryFor(done + {key}, discovered, probe) ==
        if key in discovered && probe(discovered[key]).Some? then old_[key := probe(discovered[key]).value] else old_
  {
  }

  /**
   * Probe every chosen server and record its tools; failures leave no entry
   * (the strict and lenient modes differ only in logging).
   */
  method EnumerateInventory(keys: set<string>, discovered: ServerMap, probe: NormalizedMcpServer -> Option<set<string>>)
    returns (inventory: map<string, set<string>>)
    requires KeysConsistent(discovered)
    ensures inventory == InventoryFor(keys, discovered, probe)
  {
    inventory := map[];
    var rest := keys;
    ghost var done: set<string> := {};
    while rest != {}
      invariant rest + done == keys && rest !! done
      invariant inventory == InventoryFor(done, discovered, probe)
      decreases |rest|
    {
      var key :| key in rest;
      InventoryStep(done, key, discovered, probe);
      if key in discovered {
        var srv := discovered[key];
        var outcome := probe(srv);
        if outcome.Some? {
          inventory := inventory[srv.key := outcome.value];
        }
      }
      rest := rest - {key};
      done := done + {key};
    }
  }

  /**
   * After pruning, a server survives exactly when it was among the chosen
   * candidates and its probe succeeded; a server no agent references is
   * therefore dropped.
   */
  lemma PrunedServers(agents: seq<ResolvedAgent>, keys: set<string>, discovered: ServerMap, probe: NormalizedMcpServer -> Option<set<string>>)
    requires keys <= AllCandidates(agents, discovered)
    ensures var pruned := Restrict(discovered, InventoryFor(keys, discovered, probe).Keys);
      && SubMap(pruned, discovered)
      && (forall k :: k in pruned <==> k in keys && k in discovered && probe(discovered[k]).Some?)
      && (forall k | k in pruned :: k in AllCandidates(agents, discovered))
  {
  }

  /** A candidate comes from some agent's references. */
  lemma {:induction false} CandidateFromRefs(agents: seq<ResolvedAgent>, discovered: ServerMap, k: string)
    requires k in AllCandidates(agents, discovered)
    ensures exists i | 0 <= i < |agents| ::
      (agents[i].config.mcpToolRefs.Some? &&
       (HasBare(agents[i].config.mcpToolRefs.value) || k in NamespacedKeys(agents[i].config.mcpToolRefs.value)))
  {
    var init := agents[..|agents| - 1];
    if k in AllCandidates(init, discovered) {
      CandidateFromRefs(init, discovered, k);
      var i :| 0 <= i < |init| && init[i].config.mcpToolRefs.Some? &&
        (HasBare(init[i].config.mcpToolRefs.value) || k in NamespacedKeys(init[i].config.mcpToolRefs.value));
      assert init[i] == agents[i];
    } else {
      assert k in CandidatesOf(agents[|agents| - 1].config.mcpToolRefs, discovered);
    }
  }

  // ------------------------------------------------------------- self-skip

  /** `SWITCHBOARD_SKIP_SELF`: on unless set to "false" in any case or to "0". */
  function SkipSelfSetting(v: Option<string>): bool {
    match v
    case None => true
    case Some(s) => !(EqIgnoreAsciiCase(s, "false") || s == "0")
  }

  /** Unset means on; "FALSE" and "0" turn skipping off; "no" does not. */
  lemma SkipSelfSettingExamples()
    ensures SkipSelfSetting(None)
    ensures !SkipSelfSetting(Some("FALSE")) && !SkipSelfSetting(Some("0")) && SkipSelfSetting(Some("no"))
  {
    assert AsciiLower("FALSE") == "false";
    assert AsciiLower("no") == "no";
  }

  /** The key is "switchboard" in any case, or the command's file name starts with "switchboard-mcp" in any case. */
  predicate LooksLikeSelf(key: string, srv: NormalizedMcpServer) {
    || EqIgnoreAsciiCase(key, "switchboard")
    || StartsWith(AsciiLower(FileName(srv.transport.command).GetOr("")), "switchboard-mcp")
  }

  /** `by_key.retain(..)` dropping servers that look like Switchboard itself. */
  function SkipSelf(discovered: ServerMap): (r: ServerMap)
    ensures SubMap(r, discovered)
    ensures KeysConsistent(discovered) ==> KeysConsistent(r)
  {
    map k | k in discovered && !LooksLikeSelf(k, discovered[k]) :: discovered[k]
  }

  /** Exactly the servers that do not look like Switchboard survive. */
  lemma SkipSelfKeeps(discovered: ServerMap, k: string)
    ensures k in SkipSelf(discovered) <==> k in discovered && !LooksLikeSelf(k, discovered[k])
  {
  }

  /**
   * A server whose command is `<dir>/<name>` with `name` starting with
   * "switchboard-mcp" in any case (say /usr/local/bin/Switchboard-MCP) is
   * dropped whatever its key.
   */
  lemma SkipSelfByCommand(discovered: ServerMap, k: string, dir: string, name: string)
    requires k in discovered && discovered[k].transport.command == dir + "/" + name
    requires NoSep(Slash, name) && StartsWith(AsciiLower(name), "switchboard-mcp")
    ensures k !in SkipSelf(discovered)
  {
    assert |name| >= 15;
    FileNameOfChild(dir, name);
  }

  /** A server keyed "SwitchBoard" is dropped; one keyed "github" and run by a bare `npx` is kept. */
  lemma SkipSelfByKey(discovered: ServerMap)
    requires "SwitchBoard" in discovered
    requires "github" in discovered && discovered["github"].transport.command == "npx"
    ensures "SwitchBoard" !in SkipSelf(discovered)
    ensures "github" in SkipSelf(discovered)
  {
    assert AsciiLower("SwitchBoard") == "switchboard";
    assert AsciiLower("github") == "github";
    SplitNoSep("npx", Slash);
    assert Drop(["npx"]) == ["npx"];
    assert FileName("npx") == Some("npx");
    assert AsciiLower("npx") == "npx";
  }

  // --------------------------------------------------- custom server merge

  /** `entry(key).or_insert(srv)` for each server in order: existing entries are never replaced. */
  function OrInsertAll(m: ServerMap, servers: seq<NormalizedMcpServer>): ServerMap {
    if servers == [] then m
    else
      var r := OrInsertAll(m, servers[..|servers| - 1]);
      var s := servers[|servers| - 1];
      if s.key in r then r else r[s.key := s]
  }

  lemma {:induction false} OrInsertAllConcat(m: ServerMap, a: seq<NormalizedMcpServer>, b: seq<NormalizedMcpServer>)
    ensures OrInsertAll(m, a + b) == OrInsertAll(OrInsertAll(m, a), b)
    decreases |b|
  {
    if b == [] {
      assert a + b == a;
    } else {
      var b' := b[..|b| - 1];
      assert (a + b)[..|a + b| - 1] == a + b';
      OrInsertAllConcat(m, a, b');
    }
  }

  /** Existing entries stay as they were, and the keys are those of `m` and of the servers. */
  lemma {:induction false} OrInsertAllProps(m: ServerMap, servers: seq<NormalizedMcpServer>)
    ensures var r := OrInsertAll(m, servers);
      && (forall k | k in m :: k in r && r[k] == m[k])
      && (forall k :: k in r <==> k in m || exists i | 0 <= i < |servers| :: servers[i].key == k)
  {
    if servers != [] {
      var init := servers[..|servers| - 1];
      OrInsertAllProps(m, init);
      assert forall i | 0 <= i < |init| :: init[i] == servers[i];
    }
  }

  /** A key `m` lacks gets the first server carrying it. */
  lemma {:induction false} OrInsertAllFirstWins(m: ServerMap, servers: seq<NormalizedMcpServer>)
    ensures var r := OrInsertAll(m, servers);
      forall k | k in r && k !in m :: exists i | 0 <= i < |servers| ::
        r[k] == servers[i] && servers[i].key == k && forall j | 0 <= j < i :: servers[j].key != k
  {
    if servers != [] {
      var init := servers[..|servers| - 1];
      OrInsertAllFirstWins(m, init);
      OrInsertAllProps(m, init);
      assert forall i | 0 <= i < |init| :: init[i] == servers[i];
    }
  }

  /** Inserting servers stored under their own keys keeps the map consistent. */
  lemma OrInsertAllConsistent(m: ServerMap, servers: seq<NormalizedMcpServer>)
    requires KeysConsistent(m)
    ensures KeysConsistent(OrInsertAll(m, servers))
  {
    OrInsertAllFirstWins(m, servers);
  }

  /** The merge loop over one agent's custom servers. */
  method MergeCustoms(discovered: ServerMap, customs: seq<NormalizedMcpServer>) returns (merged: ServerMap)
    ensures merged == OrInsertAll(discovered, customs)
  {
    merged := discovered;
    for i := 0 to |customs|
      invariant merged == OrInsertAll(discovered, customs[..i])
    {
      assert customs[..i + 1][..i] == customs[..i];
      var srv := customs[i];
      if srv.key !in merged {
        merged := merged[srv.key := srv];
      }
    }
    assert customs[..|customs|] == customs;
  }

  /** The tool-mapping provider of an agent variant. */
  function ProviderOf(v: AgentVariant): ProviderId {
    match v
    case Codex => ProviderId.Codex
    case Anthropic => ProviderId.Anthropic
    case Vscode => ProviderId.Vscode
  }

  /** An agent after the built-in tool mapping of its provider. */
  function Mapped(ra: ResolvedAgent, allow: bool): ResolvedAgent {
    ra.(config := ApplySpec(ProviderOf(ra.source.variant), ra.config, DefaultMapping, allow).0)
  }

  /** The custom servers the mapping produces for the agents, in agent order. */
  function CustomsOf(agents: seq<ResolvedAgent>, allow: bool): seq<NormalizedMcpServer> {
    if agents == [] then []
    else
      var last := agents[|agents| - 1];
      CustomsOf(agents[..|agents| - 1], allow) + ApplySpec(ProviderOf(last.source.variant), last.config, DefaultMapping, allow).1
  }

  /** The tool-mapping loop: rewrite each agent's references and add its custom servers where their key is new. */
  method ApplyToolMappings(agents: seq<ResolvedAgent>, discovered: ServerMap, allow: bool)
    returns (mapped: seq<ResolvedAgent>, merged: ServerMap)
    ensures |mapped| == |agents| && forall i | 0 <= i < |agents| :: mapped[i] == Mapped(agents[i], allow)
    ensures merged == OrInsertAll(discovered, CustomsOf(agents, allow))
  {
    mapped := agents;
    merged := discovered;
    for i := 0 to |agents|
      invariant |mapped| == |agents|
      invariant forall j | 0 <= j < i :: mapped[j] == Mapped(agents[j], allow)
      invariant forall j | i <= j < |agents| :: mapped[j] == agents[j]
      invariant merged == OrInsertAll(discovered, CustomsOf(agents[..i], allow))
    {
      assert agents[..i + 1][..i] == agents[..i];
      var ra := mapped[i];
      var provider := ProviderOf(ra.source.variant);
      var cfg, customs := ApplyMapping(provider, ra.config, DefaultMapping, allow);
      OrInsertAllConcat(discovered, CustomsOf(agents[..i], allow), customs);
      merged := MergeCustoms(merged, customs);
      mapped := mapped[i := ra.(config := cfg)];
    }
    assert agents[..|agents|] == agents;
  }

  // ------------------------------------------------------------ conversion

  function TomlStrs(ss: seq<string>): (r: seq<Toml>)
    ensures |r| == |ss| && forall i | 0 <= i < |ss| :: r[i] == TStr(ss[i])
  {
    seq(|ss|, i requires 0 <= i < |ss| => TStr(ss[i]))
  }

  lemma {:induction false} TomlStringsOfStrs(ss: seq<string>)
    ensures TomlStrings(TomlStrs(ss)) == ss
  {
    if ss != [] {
      TomlStringsOfStrs(ss[1..]);
      assert TomlStrs(ss)[1..] == TomlStrs(ss[1..]);
    }
  }

  /** The table `to_mcp_server_config` builds: `command`, `args` when non-empty, `env` when non-empty. */
  function ServerTable(srv: NormalizedMcpServer): Toml {
    var t := srv.transport;
    var base := map["command" := TStr(t.command)];
    var withArgs := if t.args == [] then base else base["args" := TArr(TomlStrs(t.args))];
    TTable(if t.env == map[] then withArgs else withArgs["env" := TTable(map k | k in t.env :: TStr(t.env[k]))])
  }

  /** The table carries the transport back: its command, its arguments and its environment. */
  lemma ServerTableFields(srv: NormalizedMcpServer)
    ensures var f := ServerTable(srv).fields; var t := srv.transport;
      && f["command"] == TStr(t.command)
      && ("args" in f <==> t.args != [])
      && ("args" in f ==> f["args"].TArr? && TomlStrings(f["args"].items) == t.args)
      && ("env" in f <==> t.env != map[])
      && ("env" in f ==> (f["env"].TTable? && f["env"].fields.Keys == t.env.Keys
            && forall k | k in t.env :: f["env"].fields[k] == TStr(t.env[k])))
      && f.Keys <= {"command", "args", "env"}
  {
    TomlStringsOfStrs(srv.transport.args);
  }

  /** The engine-side decoders of server tables, which are not part of this model. */
  datatype ServerDecoders = ServerDecoders(
    server: Toml -> Option<McpServerConfig>,
    servers: Toml -> Option<map<string, McpServerConfig>>)

  /** The attached servers whose table decodes. */
  function Converted(attached: ServerMap, decode: Toml -> Option<McpServerConfig>): map<string, McpServerConfig> {
    map k | k in attached && decode(ServerTable(attached[k])).Some? :: decode(ServerTable(attached[k])).value
  }

  /** The agent's own `mcp_servers` table when it decodes, else nothing. */
  function Embedded(cfg: AgentConfig, dec: ServerDecoders): map<string, McpServerConfig> {
    if cfg.mcpServers.Some? && dec.servers(cfg.mcpServers.value).Some? then dec.servers(cfg.mcpServers.value).value else map[]
  }

  /** `convert_servers_for_agent` as a function of its inputs. */
  function ConvertSpec(ra: ResolvedAgent, dec: ServerDecoders): map<string, McpServerConfig> {
    Converted(ra.mcpServers, dec.server) + Embedded(ra.config, dec)
  }

  lemma ConvertedStep(attached: ServerMap, decode: Toml -> Option<McpServerConfig>, done: set<string>, k: string)
    requires k in attached && k !in done
    ensures var c := Converted(Restrict(attached, done), decode); var d := decode(ServerTable(attached[k]));
      Converted(Restrict(attached, done + {k}), decode) == if d.Some? then c[k := d.value] else c
  {
    RestrictStep(attached, done, k);
  }

  /** The first loop of `convert_servers_for_agent`: the attached servers whose table decodes. */
  method ConvertAttached(attached: ServerMap, decode: Toml -> Option<McpServerConfig>) returns (out: map<string, McpServerConfig>)
    ensures out == Converted(attached, decode)
  {
    out := map[];
    var rest := attached.Keys;
    ghost var done: set<string> := {};
    while rest != {}
      invariant rest + done == attached.Keys && rest !! done
      invariant out == Converted(Restrict(attached, done), decode)
      decreases |rest|
    {
      var k :| k in rest;
      ConvertedStep(attached, decode, done, k);
      var cfg := decode(ServerTable(attached[k]));
      if cfg.Some? {
        out := out[k := cfg.value];
      }
      rest := rest - {k};
      done := done + {k};
    }
    assert Restrict(attached, done) == attached;
  }

  /** The second loop: every embedded entry is inserted, replacing a converted one of the same name. */
  method InsertAll(out: map<string, McpServerConfig>, emb: map<string, McpServerConfig>) returns (r: map<string, McpServerConfig>)
    ensures r == out + emb
  {
    r := out;
    var pending := emb.Keys;
    ghost var copied: set<string> := {};
    while pending != {}
      invariant pending + copied == emb.Keys && pending !! copied
      invariant r == out + Restrict(emb, copied)
      decreases |pending|
    {
      var k :| k in pending;
      RestrictStep(emb, copied, k);
      UnionUpdate(out, Restrict(emb, copied), k, emb[k]);
      r := r[k := emb[k]];
      pending := pending - {k};
      copied := copied + {k};
    }
    assert Restrict(emb, copied) == emb;
  }

  /** `convert_servers_for_agent`: convert the attached servers, then let the embedded ones overwrite. */
  method ConvertServersForAgent(ra: ResolvedAgent, dec: ServerDecoders) returns (out: map<string, McpServerConfig>)
    ensures out == ConvertSpec(ra, dec)
  {
    out := ConvertAttached(ra.mcpServers, dec.server);
    if ra.config.mcpServers.Some? {
      var decoded := dec.servers(ra.config.mcpServers.value);
      if decoded.Some? {
        out := InsertAll(out, decoded.value);
      }
    }
  }

  /** Embedded servers win over attached ones of the same name; the rest come from the attached servers. */
  lemma EmbeddedWins(ra: ResolvedAgent, dec: ServerDecoders, k: string)
    ensures var out := ConvertSpec(ra, dec); var emb := Embedded(ra.config, dec);
      && (k in emb ==> k in out && out[k] == emb[k])
      && (k !in emb ==> (k in out <==> k in ra.mcpServers && dec.server(ServerTable(ra.mcpServers[k])).Some?))
  {
  }
}
