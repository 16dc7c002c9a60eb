/** Parsing of one server entry of a host configuration file (mcp/discovery.rs). */
module DiscoveryEntries {
  import opened Wrappers
  import opened Strings
  import opened Values
  import opened McpTypes

  /** `env`: the string-valued fields of an object; other values are dropped. */
  function StringFields(m: map<string, Json>): map<string, string> {
    map k | k in m && m[k].JStr? :: m[k].s
  }

  /**
   * `parse_stdio_like`: `{ command, args?, env? }`. A missing or non-string
   * command rejects the entry; `args` keeps the string items, `env` the
   * string values; a non-array or non-object is treated as empty.
   */
  function ParseStdioLike(key: string, def: Json): (r: Option<NormalizedMcpServer>)
    ensures r.Some? ==> r.value.key == key
  {
    match JsonStr(def.Get("command"))
    case None => None
    case Some(command) =>
      var args := match JsonArr(def.Get("args")) { case Some(items) => JsonStrings(items) case None => [] };
      var env := match JsonObj(def.Get("env")) { case Some(m) => StringFields(m) case None => map[] };
      Some(NormalizedMcpServer(key, Stdio(command, args, env), McpServerOrigin(Claude, None, None)))
  }

  /** Accepted iff `command` is a string; then its fields are those of the definition. */
  lemma ParseStdioLikeFields(key: string, def: Json)
    ensures var r := ParseStdioLike(key, def);
      && (r.Some? <==> def.JObj? && "command" in def.fields && def.fields["command"].JStr?)
      && (r.Some? ==> && r.value.transport.command == def.fields["command"].s
                      && r.value.origin == McpServerOrigin(Claude, None, None))
      && (r.Some? ==> (r.value.transport.args ==
           if "args" in def.fields && def.fields["args"].JArr? then JsonStrings(def.fields["args"].items) else []))
      && (r.Some? ==> (r.value.transport.env ==
           if "env" in def.fields && def.fields["env"].JObj? then StringFields(def.fields["env"].fields) else map[]))
  {
  }

  /** The entry declares `type` "http" in any ASCII case. */
  predicate DeclaresHttp(def: Json) {
    var t := JsonStr(def.Get("type"));
    t.Some? && EqIgnoreAsciiCase(t.value, "http")
  }

  /** `parse_claude_server`: HTTP entries and entries with a `url` are ignored; the rest as `parse_stdio_like`. */
  function ParseClaudeServer(key: string, def: Json): (r: Option<NormalizedMcpServer>)
    ensures r.Some? ==> r.value.key == key
  {
    if DeclaresHttp(def) then None
    else if def.Get("url").Some? then None
    else ParseStdioLike(key, def)
  }

  /** HTTP or URL entries are refused; any other entry is parsed as a stdio one. */
  lemma ParseClaudeServerRefuses(key: string, def: Json)
    ensures ParseClaudeServer(key, def).Some? <==> !DeclaresHttp(def) && def.Get("url").None? && ParseStdioLike(key, def).Some?
    ensures ParseClaudeServer(key, def).Some? ==> ParseClaudeServer(key, def) == ParseStdioLike(key, def)
  {
  }

  /** Which of the two entry parsers a source uses. */
  datatype EntryParser = StdioLike | ClaudeServer

  function ParseEntry(p: EntryParser, key: string, def: Json): (r: Option<NormalizedMcpServer>)
    ensures r.Some? ==> r.value.key == key
  {
    match p
    case StdioLike => ParseStdioLike(key, def)
    case ClaudeServer => ParseClaudeServer(key, def)
  }

  /** An array of strings. */
  function StrItems(ss: seq<string>): (r: seq<Json>)
    ensures |r| == |ss| && forall i | 0 <= i < |ss| :: r[i] == JStr(ss[i])
  {
    seq(|ss|, i requires 0 <= i < |ss| => JStr(ss[i]))
  }

  /** `args` given as strings are kept as they are, in order. */
  lemma {:induction false} JsonStringsOfStrings(ss: seq<string>)
    ensures JsonStrings(StrItems(ss)) == ss
  {
    if ss != [] {
      assert StrItems(ss)[1..] == StrItems(ss[1..]);
      JsonStringsOfStrings(ss[1..]);
    }
  }

  /** Non-string items are skipped: ["-y", 1, "pkg"] gives ["-y", "pkg"]. */
  lemma JsonStringsSkipsOthers()
    ensures JsonStrings([JStr("-y"), JNum(1), JStr("pkg")]) == ["-y", "pkg"]
  {
    assert JsonStrings([JStr("pkg")]) == ["pkg"];
    assert [JStr("-y"), JNum(1), JStr("pkg")][1..] == [JNum(1), JStr("pkg")];
    assert [JNum(1), JStr("pkg")][1..] == [JStr("pkg")];
  }

  /** "HTTP" in any case, or a `url` field, rejects an entry that has a command. */
  lemma ClaudeServerRejectsHttpAndUrl()
    ensures ParseClaudeServer("k", JObj(map["type" := JStr("HTTP"), "command" := JStr("srv")])).None?
    ensures ParseClaudeServer("k", JObj(map["url" := JNull, "command" := JStr("srv")])).None?
    ensures ParseClaudeServer("k", JObj(map["type" := JStr("stdio"), "command" := JStr("srv")])).Some?
    ensures ParseStdioLike("k", JObj(map["url" := JNull, "command" := JStr("srv")])).Some?
  {
    assert AsciiLower("HTTP") == "http";
    assert AsciiLower("stdio") != AsciiLower("http") by { assert |AsciiLower("stdio")| == 5; }
  }
}

/**
 * Discovery of stdio MCP servers from host configuration files
 * (mcp/discovery.rs). Each file is given as its path and its parsed JSON
 * content; `None` stands for a file that cannot be read or is not valid JSON.
 * The `merge_*` steps update one server map in turn: an insert overwrites,
 * an `or_insert` only fills a missing key, `extend` overwrites.
 */
module Discovery {
  import opened Wrappers
  import opened Strings
  import opened Values
  import opened McpTypes
  import opened DiscoveryEntries

  /** A configuration file: where it is and what it holds (already parsed). */
  datatype SourceFile = SourceFile(path: string, content: Option<Json>)

  /** The accepted entries among `keys` of a servers object, stamped with `origin`. */
  function Parsed(m: map<string, Json>, keys: set<string>, p: EntryParser, origin: McpServerOrigin): (r: ServerMap)
  {
    map k | k in m && k in keys && ParseEntry(p, k, m[k]).Some? :: ParseEntry(p, k, m[k]).value.(origin := origin)
  }

  /**
   * The loop shared by the `merge_*` functions: every accepted entry of `m`
   * in an unspecified (hash) order, inserted (`overwrite`) or added with
   * `entry().or_insert` (not `overwrite`). The result does not depend on the
   * order.
   */
  method MergeEntries(m: map<string, Json>, p: EntryParser, origin: McpServerOrigin, out: ServerMap, overwrite: bool)
    returns (r: ServerMap)
    ensures r == if overwrite then out + Parsed(m, m.Keys, p, origin) else Parsed(m, m.Keys, p, origin) + out
  {
    r := out;
    var rest := m.Keys;
    ghost var done: set<string> := {};
    MergeLoopEntry(m, p, origin, out);
    while rest != {}
      invariant rest + done == m.Keys && rest !! done
      invariant r == Merged(out, Parsed(m, done, p, origin), overwrite)
      decreases |rest|
    {
      var key :| key in rest;
      var parsed := ParseEntry(p, key, m[key]);
      MergeLoopStep(m, p, origin, out, overwrite, done, key);
      if parsed.Some? {
        var srv := parsed.value.(origin := origin);
        if overwrite || srv.key !in r {
          r := r[srv.key := srv];
        }
      }
      MoveKey(rest, done, key);
      rest := rest - {key};
      done := done + {key};
    }
  }

  /** Moving one key from the keys still to visit to those visited keeps their union and disjointness. */
  lemma MoveKey(rest: set<string>, done: set<string>, key: string)
    requires key in rest && rest !! done
    ensures (rest - {key}) + (done + {key}) == rest + done
    ensures (rest - {key}) !! (done + {key})
    ensures |rest - {key}| < |rest|
  {
  }

  /** Where the entries of one source end up: on top of `out` (insert), or under it (`or_insert`). */
  function Merged(out: ServerMap, entries: ServerMap, overwrite: bool): ServerMap {
    if overwrite then out + entries else entries + out
  }

  lemma MergeLoopEntry(m: map<string, Json>, p: EntryParser, origin: McpServerOrigin, out: ServerMap)
    ensures out == Merged(out, Parsed(m, {}, p, origin), true) == Merged(out, Parsed(m, {}, p, origin), false)
  {
    assert Parsed(m, {}, p, origin) == map[];
  }

  /** One iteration of the loop keeps `r` the merge of the entries seen so far. */
  lemma MergeLoopStep(m: map<string, Json>, p: EntryParser, origin: McpServerOrigin, out: ServerMap, overwrite: bool,
                      done: set<string>, key: string)
    requires key in m && key !in done
    ensures var acc := Merged(out, Parsed(m, done, p, origin), overwrite);
      var parsed := ParseEntry(p, key, m[key]);
      var next := if parsed.Some? && (overwrite || key !in acc) then acc[key := parsed.value.(origin := origin)] else acc;
      next == Merged(out, Parsed(m, done + {key}, p, origin), overwrite)
  {
    var parsed := ParseEntry(p, key, m[key]);
    ParsedStep(m, done, key, p, origin);
    if parsed.Some? {
      MergeStep(out, Parsed(m, done, p, origin), key, parsed.value.(origin := origin), overwrite);
    }
  }

  /** One more key of the servers object adds at most its own entry. */
  lemma ParsedStep(m: map<string, Json>, done: set<string>, key: string, p: EntryParser, origin: McpServerOrigin)
    requires key in m && key !in done
    ensures ParseEntry(p, key, m[key]).None? ==> Parsed(m, done + {key}, p, origin) == Parsed(m, done, p, origin)
    ensures ParseEntry(p, key, m[key]).Some? ==>
      Parsed(m, done + {key}, p, origin) == Parsed(m, done, p, origin)[key := ParseEntry(p, key, m[key]).value.(origin := origin)]
  {
  }

  /** Inserting a new key into the right operand of `+`, as the loop does. */
  lemma MergeStep(out: ServerMap, acc: ServerMap, key: string, srv: NormalizedMcpServer, overwrite: bool)
    requires key !in acc
    ensures overwrite ==> (out + acc)[key := srv] == out + acc[key := srv]
    ensures !overwrite && key in out ==> acc + out == acc[key := srv] + out
    ensures !overwrite && key !in out ==> (acc + out)[key := srv] == acc[key := srv] + out
  {
  }

  /** `v.get(key).and_then(as_object)` on a file's content. */
  function ObjectAt(content: Option<Json>, key: string): (r: Option<map<string, Json>>)
    ensures r.Some? <==> content.Some? && content.value.JObj? && key in content.value.fields
                         && content.value.fields[key].JObj?
    ensures r.Some? ==> r.value == content.value.fields[key].fields
  {
    if content.Some? then JsonObj(content.value.Get(key)) else None
  }

  function ParsedOrEmpty(m: Option<map<string, Json>>, p: EntryParser, origin: McpServerOrigin): (r: ServerMap)
    ensures KeysConsistent(r)
    ensures m.None? ==> r == map[]
  {
    match m
    case None => map[]
    case Some(m) => Parsed(m, m.Keys, p, origin)
  }

  // ------------------------------------------------------- Claude project

  function ClaudeProjectOrigin(path: string): McpServerOrigin { McpServerOrigin(Claude, Some(path), Some(".mcp.json")) }

  /** What `.mcp.json` contributes: its `mcpServers`, parsed as stdio entries. */
  function ClaudeProjectServers(src: SourceFile): ServerMap {
    ParsedOrEmpty(ObjectAt(src.content, "mcpServers"), StdioLike, ClaudeProjectOrigin(src.path))
  }

  /** `merge_claude_project`: inserts, so these entries overwrite. */
  method MergeClaudeProject(src: SourceFile, out: ServerMap) returns (r: ServerMap)
    ensures r == out + ClaudeProjectServers(src)
  {
    var m := ObjectAt(src.content, "mcpServers");
    if m.None? {
      return out;
    }
    r := MergeEntries(m.value, StdioLike, ClaudeProjectOrigin(src.path), out, true);
  }

  // ---------------------------------------------------------- Claude user

  function ProjectOrigin(path: string, wsKey: string): McpServerOrigin {
    McpServerOrigin(Claude, Some(path), Some("~/.claude.json project: " + wsKey))
  }

  function GlobalOrigin(path: string): McpServerOrigin {
    McpServerOrigin(Claude, Some(path), Some("~/.claude.json global"))
  }

  /** The block `projects[wsKey]` of the user file, when it is an object. */
  function ProjectBlock(content: Option<Json>, wsKey: string): Option<map<string, Json>> {
    match ObjectAt(content, "projects")
    case None => None
    case Some(projects) => JsonObj(if wsKey in projects then Some(projects[wsKey]) else None)
  }

  /** A list field of the project block: its string items, or None when it is not an array. */
  function StringList(proj: map<string, Json>, key: string): (r: Option<seq<string>>)
    ensures r.Some? <==> key in proj && proj[key].JArr?
  {
    match JsonArr(if key in proj then Some(proj[key]) else None)
    case None => None
    case Some(items) => Some(JsonStrings(items))
  }

  /** The project's own servers before filtering. */
  function ProjectParsed(proj: map<string, Json>, path: string, wsKey: string): ServerMap {
    ParsedOrEmpty(JsonObj(if "mcpServers" in proj then Some(proj["mcpServers"]) else None),
      ClaudeServer, ProjectOrigin(path, wsKey))
  }

  /** `retain`: only keys that the allow list names, ignoring ASCII case. */
  function Retain(m: ServerMap, allow: seq<string>): ServerMap {
    map k | k in m && HasIgnoringCase(allow, k) :: m[k]
  }

  /**
   * The project-scoped servers after the enabled list (kept when listed,
   * case-insensitively) and the disabled list (removed, exact key).
   */
  function ProjectScoped(proj: map<string, Json>, path: string, wsKey: string): ServerMap {
    var disabled := StringList(proj, "disabledMcpjsonServers").GetOr([]);
    ProjectKept(proj, path, wsKey) - (set d | d in disabled)
  }

  /** The project's servers that the enabled list keeps (all of them without one). */
  function ProjectKept(proj: map<string, Json>, path: string, wsKey: string): ServerMap {
    var parsed := ProjectParsed(proj, path, wsKey);
    match StringList(proj, "enabledMcpjsonServers")
    case Some(allow) => Retain(parsed, allow)
    case None => parsed
  }

  /** The user file's global servers. */
  function GlobalServers(src: SourceFile): ServerMap {
    ParsedOrEmpty(ObjectAt(src.content, "mcpServers"), ClaudeServer, GlobalOrigin(src.path))
  }

  /** What `~/.claude.json` contributes: project-scoped servers, with global ones only where no project entry is. */
  function ClaudeUserServers(src: SourceFile, wsKey: string): ServerMap {
    var project := match ProjectBlock(src.content, wsKey) { case Some(proj) => ProjectScoped(proj, src.path, wsKey) case None => map[] };
    GlobalServers(src) + project
  }

  /** `for k in disabled { merged.remove(&k) }` */
  method RemoveAll(m: ServerMap, disabled: seq<string>) returns (r: ServerMap)
    ensures r == m - (set d | d in disabled)
  {
    r := m;
    for i := 0 to |disabled|
      invariant r == m - (set d | d in disabled[..i])
    {
      assert disabled[..i + 1] == disabled[..i] + [disabled[i]];
      r := r - {disabled[i]};
    }
    assert disabled[..|disabled|] == disabled;
  }

  /** The project block of `merge_claude_user`: insert its servers, then `retain` and `remove`. */
  method MergeProjectBlock(proj: map<string, Json>, path: string, wsKey: string) returns (merged: ServerMap)
    ensures merged == ProjectScoped(proj, path, wsKey)
  {
    merged := map[];
    var m := JsonObj(if "mcpServers" in proj then Some(proj["mcpServers"]) else None);
    if m.Some? {
      merged := MergeEntries(m.value, ClaudeServer, ProjectOrigin(path, wsKey), merged, true);
      ghost var parsed := Parsed(m.value, m.value.Keys, ClaudeServer, ProjectOrigin(path, wsKey));
      assert merged == parsed by { assert map[] + parsed == parsed; }
    }
    assert merged == ProjectParsed(proj, path, wsKey);
    var enabled := StringList(proj, "enabledMcpjsonServers");
    var disabled := StringList(proj, "disabledMcpjsonServers").GetOr([]);
    if enabled.Some? {
      merged := Retain(merged, enabled.value);
    }
    assert merged == ProjectKept(proj, path, wsKey);
    if |disabled| > 0 {
      merged := RemoveAll(merged, disabled);
    } else {
      assert merged - (set d | d in disabled) == merged by {
        assert (set d | d in disabled) == {};
      }
    }
  }

  /**
   * `merge_claude_user`: builds `merged` from the project block, adds the
   * global servers with `or_insert`, and extends `out` with it.
   */
  method MergeClaudeUser(src: SourceFile, wsKey: string, out: ServerMap) returns (r: ServerMap)
    ensures r == out + ClaudeUserServers(src, wsKey)
  {
    if src.content.None? {
      return out;
    }
    var merged: ServerMap := map[];
    var proj := ProjectBlock(src.content, wsKey);
    if proj.Some? {
      merged := MergeProjectBlock(proj.value, src.path, wsKey);
    }
    var g := ObjectAt(src.content, "mcpServers");
    if g.Some? {
      merged := MergeEntries(g.value, ClaudeServer, GlobalOrigin(src.path), merged, false);
    }
    r := out + merged;
  }

  // --------------------------------------------------------------- VS Code

  function VscodeOrigin(path: string): McpServerOrigin { McpServerOrigin(McpProvider.Vscode, Some(path), Some(".vscode/mcp.json")) }

  /** The servers object of a VS Code file: `servers`, else `mcpServers`. */
  function VscodeServersObject(content: Option<Json>): Option<map<string, Json>> {
    var servers := ObjectAt(content, "servers");
    if servers.Some? then servers else ObjectAt(content, "mcpServers")
  }

  /** What a VS Code `mcp.json` contributes. */
  function VscodeServers(src: SourceFile): ServerMap {
    ParsedOrEmpty(VscodeServersObject(src.content), StdioLike, VscodeOrigin(src.path))
  }

  /** `merge_vscode_mcp`: inserts, so these entries overwrite. */
  method MergeVscodeMcp(src: SourceFile, out: ServerMap) returns (r: ServerMap)
    ensures r == out + VscodeServers(src)
  {
    var m := VscodeServersObject(src.content);
    if m.None? {
      return out;
    }
    r := MergeEntries(m.value, StdioLike, VscodeOrigin(src.path), out, true);
  }

  // ---------------------------------------------------------------- Cursor

  function CursorOrigin(path: string): McpServerOrigin { McpServerOrigin(Cursor, Some(path), Some("~/.cursor/mcp.json")) }

  /** What `~/.cursor/mcp.json` contributes. */
  function CursorServers(src: SourceFile): ServerMap {
    ParsedOrEmpty(ObjectAt(src.content, "mcpServers"), ClaudeServer, CursorOrigin(src.path))
  }

  /** `merge_cursor_mcp`: `or_insert`, so these entries only fill missing keys. */
  method MergeCursorMcp(src: SourceFile, out: ServerMap) returns (r: ServerMap)
    ensures r == CursorServers(src) + out
  {
    var m := ObjectAt(src.content, "mcpServers");
    if m.None? {
      return out;
    }
    r := MergeEntries(m.value, ClaudeServer, CursorOrigin(src.path), out, false);
  }

  // ------------------------------------------------------------- discovery

  /** The five sources in the order `discover_stdio_servers` merges them. */
  datatype Sources = Sources(
    claudeProject: SourceFile,
    claudeUser: SourceFile,
    wsKey: string,
    vscodeProject: SourceFile,
    vscodeUser: Option<SourceFile>,
    cursor: SourceFile)

  /** The merged map: each step as the matching `merge_*` leaves it. */
  function DiscoverSpec(s: Sources): ServerMap {
    var claude := (map[] + ClaudeProjectServers(s.claudeProject)) + ClaudeUserServers(s.claudeUser, s.wsKey);
    var vscode := claude + VscodeServers(s.vscodeProject);
    var vscodeUser := if s.vscodeUser.Some? then vscode + VscodeServers(s.vscodeUser.value) else vscode;
    CursorServers(s.cursor) + vscodeUser
  }

  /** `discover_stdio_servers` */
  method DiscoverStdioServers(s: Sources) returns (byKey: ServerMap)
    ensures byKey == DiscoverSpec(s)
  {
    byKey := map[];
    byKey := MergeClaudeProject(s.claudeProject, byKey);
    byKey := MergeClaudeUser(s.claudeUser, s.wsKey, byKey);
    byKey := MergeVscodeMcp(s.vscodeProject, byKey);
    if s.vscodeUser.Some? {
      byKey := MergeVscodeMcp(s.vscodeUser.value, byKey);
    }
    byKey := MergeCursorMcp(s.cursor, byKey);
  }

  // ------------------------------------------------------------- properties

  /** Each contribution stores every server under its own key. */
  lemma ParsedConsistent(m: map<string, Json>, keys: set<string>, p: EntryParser, origin: McpServerOrigin)
    ensures KeysConsistent(Parsed(m, keys, p, origin))
  {
  }

  lemma UnionConsistent(a: ServerMap, b: ServerMap)
    requires KeysConsistent(a) && KeysConsistent(b)
    ensures KeysConsistent(a + b)
  {
  }

  lemma ClaudeUserConsistent(src: SourceFile, wsKey: string)
    ensures KeysConsistent(ClaudeUserServers(src, wsKey))
  {
    match ProjectBlock(src.content, wsKey)
    case Some(proj) =>
      var parsed := ProjectParsed(proj, src.path, wsKey);
      assert forall k | k in ProjectScoped(proj, src.path, wsKey) :: k in parsed && ProjectScoped(proj, src.path, wsKey)[k] == parsed[k];
      UnionConsistent(GlobalServers(src), ProjectScoped(proj, src.path, wsKey));
    case None =>
  }

  /** Every discovered server is stored under its own key. */
  lemma DiscoverKeysConsistent(s: Sources)
    ensures KeysConsistent(DiscoverSpec(s))
  {
    ClaudeUserConsistent(s.claudeUser, s.wsKey);
    var claude := (map[] + ClaudeProjectServers(s.claudeProject)) + ClaudeUserServers(s.claudeUser, s.wsKey);
    UnionConsistent(map[], ClaudeProjectServers(s.claudeProject));
    UnionConsistent(map[] + ClaudeProjectServers(s.claudeProject), ClaudeUserServers(s.claudeUser, s.wsKey));
    var vscode := claude + VscodeServers(s.vscodeProject);
    UnionConsistent(claude, VscodeServers(s.vscodeProject));
    if s.vscodeUser.Some? {
      UnionConsistent(vscode, VscodeServers(s.vscodeUser.value));
    }
    var vscodeUser := if s.vscodeUser.Some? then vscode + VscodeServers(s.vscodeUser.value) else vscode;
    UnionConsistent(CursorServers(s.cursor), vscodeUser);
  }

  /** The five-step merge order on plain maps: later inserts win, the last step only fills gaps. */
  lemma MergeOrder(cp: ServerMap, cu: ServerMap, vp: ServerMap, vu: ServerMap, cr: ServerMap, k: string)
    ensures var r := cr + ((((map[] + cp) + cu) + vp) + vu);
      && (k in r <==> k in cp || k in cu || k in vp || k in vu || k in cr)
      && (k in vu ==> r[k] == vu[k])
      && (k !in vu && k in vp ==> r[k] == vp[k])
      && (k !in vu && k !in vp && k in cu ==> r[k] == cu[k])
      && (k !in vu && k !in vp && k !in cu && k in cp ==> r[k] == cp[k])
      && (k !in vu && k !in vp && k !in cu && k !in cp && k in cr ==> r[k] == cr[k])
  {
  }

  /** The user-supplied VS Code file, or nothing. */
  function VscodeUserServers(s: Sources): ServerMap {
    match s.vscodeUser { case Some(f) => VscodeServers(f) case None => map[] }
  }

  /**
   * Precedence of `discover_stdio_servers` for one key: the VS Code user
   * file, then the VS Code project file, then the Claude user file, then the
   * Claude project file; Cursor only supplies keys none of them has.
   */
  lemma DiscoverPrecedence(s: Sources, k: string)
    ensures var r := DiscoverSpec(s);
      var cp := ClaudeProjectServers(s.claudeProject);
      var cu := ClaudeUserServers(s.claudeUser, s.wsKey);
      var vp := VscodeServers(s.vscodeProject);
      var vu := VscodeUserServers(s);
      var cr := CursorServers(s.cursor);
      && (k in r <==> k in cp || k in cu || k in vp || k in vu || k in cr)
      && (k in vu ==> r[k] == vu[k])
      && (k !in vu && k in vp ==> r[k] == vp[k])
      && (k !in vu && k !in vp && k in cu ==> r[k] == cu[k])
      && (k !in vu && k !in vp && k !in cu && k in cp ==> r[k] == cp[k])
      && (k !in vu && k !in vp && k !in cu && k !in cp && k in cr ==> r[k] == cr[k])
  {
    var cp := ClaudeProjectServers(s.claudeProject);
    var cu := ClaudeUserServers(s.claudeUser, s.wsKey);
    var vp := VscodeServers(s.vscodeProject);
    var vu := VscodeUserServers(s);
    var cr := CursorServers(s.cursor);
    DiscoverSpecShape(s);
    MergeOrder(cp, cu, vp, vu, cr, k);
  }

  lemma DiscoverSpecShape(s: Sources)
    ensures DiscoverSpec(s) == CursorServers(s.cursor) + ((((map[] + ClaudeProjectServers(s.claudeProject))
      + ClaudeUserServers(s.claudeUser, s.wsKey)) + VscodeServers(s.vscodeProject)) + VscodeUserServers(s))
  {
    var vscode := ((map[] + ClaudeProjectServers(s.claudeProject)) + ClaudeUserServers(s.claudeUser, s.wsKey)) + VscodeServers(s.vscodeProject);
    var cursor := CursorServers(s.cursor);
    if s.vscodeUser.None? {
      assert VscodeUserServers(s) == map[];
      assert vscode + map[] == vscode;
      assert DiscoverSpec(s) == cursor + vscode;
    } else {
      assert VscodeUserServers(s) == VscodeServers(s.vscodeUser.value);
      assert DiscoverSpec(s) == cursor + (vscode + VscodeServers(s.vscodeUser.value));
    }
  }

  /** Enabled keeps listed keys (ignoring case), disabled removes exact keys, from the project's own entries only. */
  lemma ProjectFilter(proj: map<string, Json>, path: string, wsKey: string, k: string)
    ensures var enabled := StringList(proj, "enabledMcpjsonServers");
      var disabled := StringList(proj, "disabledMcpjsonServers").GetOr([]);
      var parsed := ProjectParsed(proj, path, wsKey);
      var r := ProjectScoped(proj, path, wsKey);
      && (k in r <==> k in parsed && (enabled.None? || HasIgnoringCase(enabled.value, k)) && k !in disabled)
      && (k in r ==> r[k] == parsed[k])
  {
  }

  /**
   * Global entries of the user file never replace project-scoped ones, and
   * the enabled/disabled lists do not apply to them: a disabled key that is
   * also global is present, with the global definition.
   */
  lemma GlobalUnderProject(src: SourceFile, wsKey: string, k: string)
    ensures var r := ClaudeUserServers(src, wsKey);
      var g := GlobalServers(src);
      && (forall proj | ProjectBlock(src.content, wsKey) == Some(proj) && k in ProjectScoped(proj, src.path, wsKey) ::
            k in r && r[k] == ProjectScoped(proj, src.path, wsKey)[k])
      && (var outsideProject := ProjectBlock(src.content, wsKey).None?
            || k !in ProjectScoped(ProjectBlock(src.content, wsKey).value, src.path, wsKey);
          outsideProject && k in g ==> k in r && r[k] == g[k])
  {
  }

  /** The allow list matches "GitHub" to the key "github"; the deny list does not. */
  lemma EnabledIgnoresCaseDisabledDoesNot(m: ServerMap)
    requires "github" in m
    ensures "github" in Retain(m, ["GitHub"])
    ensures "github" in m - (set d | d in ["GitHub"])
  {
    assert EqIgnoreAsciiCase(["GitHub"][0], "github") by { assert AsciiLower("GitHub") == "github"; }
  }

  /** A missing or unusable file, or one without its servers object, contributes nothing, so `out` is unchanged. */
  lemma NothingToMerge(src: SourceFile, wsKey: string, out: ServerMap)
    ensures ObjectAt(src.content, "mcpServers").None? ==> out + ClaudeProjectServers(src) == out && CursorServers(src) + out == out
    ensures VscodeServersObject(src.content).None? ==> out + VscodeServers(src) == out
    ensures src.content.None? ==> out + ClaudeUserServers(src, wsKey) == out
  {
    if src.content.None? {
      assert ClaudeUserServers(src, wsKey) == map[];
    }
  }

  /** With both keys present VS Code's `servers` is used and `mcpServers` ignored; `mcpServers` alone is accepted. */
  lemma VscodeServersKeyPreferred(path: string, servers: map<string, Json>, other: map<string, Json>)
    ensures VscodeServers(SourceFile(path, Some(JObj(map["servers" := JObj(servers), "mcpServers" := JObj(other)]))))
      == Parsed(servers, servers.Keys, StdioLike, VscodeOrigin(path))
    ensures VscodeServers(SourceFile(path, Some(JObj(map["mcpServers" := JObj(other)]))))
      == Parsed(other, other.Keys, StdioLike, VscodeOrigin(path))
  {
  }

  const SwitchboardEntry := JObj(map["command" := JStr("switchboard-mcp"), "args" := JArr([]), "env" := JObj(map["RUST_LOG" := JStr("info")])])

  /** A VS Code file with `servers` yields the switchboard server with its command, no args and RUST_LOG=info. */
  lemma VscodeServersKeyParsed(path: string)
    ensures var src := SourceFile(path, Some(JObj(map["servers" := JObj(map["switchboard" := SwitchboardEntry]), "inputs" := JArr([])])));
      var r := VscodeServers(src);
      && "switchboard" in r
      && r["switchboard"].transport == Stdio("switchboard-mcp", [], map["RUST_LOG" := "info"])
      && r["switchboard"].origin.provider == McpProvider.Vscode
  {
    var src := SourceFile(path, Some(JObj(map["servers" := JObj(map["switchboard" := SwitchboardEntry]), "inputs" := JArr([])])));
    assert VscodeServersObject(src.content) == Some(map["switchboard" := SwitchboardEntry]);
    ParseStdioLikeFields("switchboard", SwitchboardEntry);
    assert StringFields(map["RUST_LOG" := JStr("info")]) == map["RUST_LOG" := "info"];
  }
}
