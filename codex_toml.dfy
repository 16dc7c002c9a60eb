/**
 * The parser for Codex `.toml` agent files (parser/codex_toml.rs): a TOML
 * table with a required string `name`, defaulted or optional other fields,
 * a typed `[run]` table, and a `tools` list that becomes a toggle policy for
 * the engine's built-in tools.
 *
 * The TOML text has already been parsed: `doc` is `None` when it is not
 * valid TOML with a table at its root. The sibling `<stem>.prompt.md` (the file
 * name with its `.toml` extension replaced) is the parameter `prompt`: its contents when it exists and can be read, else `None`.
 */
module CodexToml {
  import opened Wrappers
  import opened Strings
  import opened Paths
  import opened Values
  import opened ModelTypes

  datatype CodexError = InvalidToml | MissingName

  /** `supports`: the extension is "toml", ignoring ASCII case. */
  predicate Supports(path: string) {
    match Extension(path)
    case None => false
    case Some(ext) => EqIgnoreAsciiCase(ext, "toml")
  }

  /** `<dir>/<stem>.toml` is accepted whatever the case of the extension, and `<dir>/<stem>.md` is not. */
  lemma SupportsTomlFile(dir: string, stem: string)
    requires stem != "" && stem != "." && NoSep(Slash, stem)
    ensures Supports(dir + "/" + stem + ".toml")
    ensures Supports(dir + "/" + stem + ".TOML")
    ensures !Supports(dir + "/" + stem + ".md")
  {
    ExtensionOfChild(dir, stem, "toml");
    assert dir + "/" + stem + ".toml" == dir + "/" + stem + "." + "toml";
    ExtensionOfChild(dir, stem, "TOML");
    assert dir + "/" + stem + ".TOML" == dir + "/" + stem + "." + "TOML";
    ExtensionOfChild(dir, stem, "md");
    assert dir + "/" + stem + ".md" == dir + "/" + stem + "." + "md";
    assert AsciiLower("TOML") == "toml";
    assert AsciiLower("md") != AsciiLower("toml");
  }

  // ------------------------------------------------------------ field values


  /** `.and_then(|v| v.as_str())`: a string value, anything else is dropped. */
  function AsStr(v: Option<Toml>): Option<string> {
    match v
    case Some(TStr(s)) => Some(s)
    case _ => None
  }

  /**
   * Tags: an array keeps its string items, a string is split on ',' and
   * white space; an empty result, another type or no value is `None`.
   */
  function TagsOf(v: Option<Toml>): Option<seq<string>> {
    match v
    case Some(TArr(items)) =>
      var xs := TomlStrings(items);
      if xs == [] then None else Some(xs)
    case Some(TStr(s)) =>
      var xs := Tokens(s, CommaOrWhitespace);
      if xs == [] then None else Some(xs)
    case _ => None
  }

  /** The instruction text: the inline one, or the sibling prompt when neither a file nor inline text is given. */
  function InstructionsOf(file: Option<string>, inline: Option<string>, prompt: Option<string>): Option<string> {
    if file.None? && inline.None? then prompt else inline
  }

  // ------------------------------------------------------------------ [run]

  /** An optional string setting: absent is `None`, a string is kept, another type fails. */
  function OptStr(t: map<string, Toml>, key: string): Option<Option<string>> {
    if key !in t then Some(None)
    else match t[key]
      case TStr(s) => Some(Some(s))
      case _ => None
  }

  /** An optional boolean setting: absent is `None`, a boolean is kept, another type fails. */
  function OptBool(t: map<string, Toml>, key: string): Option<Option<bool>> {
    if key !in t then Some(None)
    else match t[key]
      case TBool(b) => Some(Some(b))
      case _ => None
  }

  /**
   * The serialized names each enum-typed run setting accepts (the codex
   * enums `AskForApproval`, `ReasoningEffort`, `ReasoningSummary`,
   * `Verbosity` and `SandboxMode`). Those enums are defined in the codex
   * crates, so their variant names are a parameter of the model.
   */
  datatype RunTokens = RunTokens(
    approvalPolicy: set<string>,
    reasoningEffort: set<string>,
    reasoningSummary: set<string>,
    verbosity: set<string>,
    sandboxMode: set<string>)

  /** An optional enum setting: absent is `None`, a string naming a variant is kept, anything else fails. */
  function OptEnum(t: map<string, Toml>, key: string, accepted: set<string>): Option<Option<string>> {
    if key !in t then Some(None)
    else match t[key]
      case TStr(s) => if s in accepted then Some(Some(s)) else None
      case _ => None
  }

  /** A boolean value, anything else is dropped. */
  function AsBool(v: Option<Toml>): Option<bool> {
    match v
    case Some(TBool(b)) => Some(b)
    case _ => None
  }

  /** The value under `key`, if any, is a string. */
  predicate StrOk(t: map<string, Toml>, key: string) { key in t ==> t[key].TStr? }

  /** The value under `key`, if any, is a boolean. */
  predicate BoolOk(t: map<string, Toml>, key: string) { key in t ==> t[key].TBool? }

  /** The value under `key`, if any, is a string naming a variant in `accepted`. */
  predicate EnumOk(t: map<string, Toml>, key: string, accepted: set<string>) {
    key in t ==> t[key].TStr? && t[key].s in accepted
  }

  lemma OptStrFacts(t: map<string, Toml>, key: string)
    ensures OptStr(t, key).Some? <==> StrOk(t, key)
    ensures OptStr(t, key).Some? ==> OptStr(t, key).value == AsStr(Field(t, key))
  {
  }

  lemma OptBoolFacts(t: map<string, Toml>, key: string)
    ensures OptBool(t, key).Some? <==> BoolOk(t, key)
    ensures OptBool(t, key).Some? ==> OptBool(t, key).value == AsBool(Field(t, key))
  {
  }

  lemma OptEnumFacts(t: map<string, Toml>, key: string, accepted: set<string>)
    ensures OptEnum(t, key, accepted).Some? <==> EnumOk(t, key, accepted)
    ensures OptEnum(t, key, accepted).Some? ==> OptEnum(t, key, accepted).value == AsStr(Field(t, key))
  {
  }

  const StringRunKeys := ["model", "model_provider", "approval_policy", "model_reasoning_effort",
    "model_reasoning_summary", "model_verbosity", "chatgpt_base_url", "sandbox_mode"]
  const BoolRunKeys := ["disable_response_storage", "include_plan_tool", "include_apply_patch_tool",
    "include_view_image_tool", "tools_web_search_request"]

  /** A `[run]` table whose known keys all have the type their field needs, enum names included. */
  predicate WellTypedRun(t: map<string, Toml>, tokens: RunTokens) {
    && StrOk(t, "model") && StrOk(t, "model_provider") && StrOk(t, "chatgpt_base_url")
    && EnumOk(t, "approval_policy", tokens.approvalPolicy)
    && EnumOk(t, "model_reasoning_effort", tokens.reasoningEffort)
    && EnumOk(t, "model_reasoning_summary", tokens.reasoningSummary)
    && EnumOk(t, "model_verbosity", tokens.verbosity)
    && EnumOk(t, "sandbox_mode", tokens.sandboxMode)
    && BoolOk(t, "disable_response_storage") && BoolOk(t, "include_plan_tool")
    && BoolOk(t, "include_apply_patch_tool") && BoolOk(t, "include_view_image_tool")
    && BoolOk(t, "tools_web_search_request")
  }

  /**
   * `t.try_into::<AgentRun>()`: every field is optional, a present field of
   * the wrong type, or an enum string that names no variant, is an error,
   * and keys the struct does not name are ignored. A decoded run holds
   * exactly the values written in the table.
   */
  function DecodeRun(t: map<string, Toml>, tokens: RunTokens): (r: Option<AgentRun>)
    ensures r.Some? <==> WellTypedRun(t, tokens)
    ensures r.Some? ==> r.value.model == AsStr(Field(t, "model"))
    ensures r.Some? ==> r.value.modelProvider == AsStr(Field(t, "model_provider"))
    ensures r.Some? ==> r.value.approvalPolicy == AsStr(Field(t, "approval_policy"))
    ensures r.Some? ==> r.value.disableResponseStorage == AsBool(Field(t, "disable_response_storage"))
    ensures r.Some? ==> r.value.modelReasoningEffort == AsStr(Field(t, "model_reasoning_effort"))
    ensures r.Some? ==> r.value.modelReasoningSummary == AsStr(Field(t, "model_reasoning_summary"))
    ensures r.Some? ==> r.value.modelVerbosity == AsStr(Field(t, "model_verbosity"))
    ensures r.Some? ==> r.value.chatgptBaseUrl == AsStr(Field(t, "chatgpt_base_url"))
    ensures r.Some? ==> r.value.sandboxMode == AsStr(Field(t, "sandbox_mode"))
    ensures r.Some? ==> r.value.includePlanTool == AsBool(Field(t, "include_plan_tool"))
    ensures r.Some? ==> r.value.includeApplyPatchTool == AsBool(Field(t, "include_apply_patch_tool"))
    ensures r.Some? ==> r.value.includeViewImageTool == AsBool(Field(t, "include_view_image_tool"))
    ensures r.Some? ==> r.value.toolsWebSearchRequest == AsBool(Field(t, "tools_web_search_request"))
  {
    var model := OptStr(t, "model");
    var provider := OptStr(t, "model_provider");
    var approval := OptEnum(t, "approval_policy", tokens.approvalPolicy);
    var storage := OptBool(t, "disable_response_storage");
    var effort := OptEnum(t, "model_reasoning_effort", tokens.reasoningEffort);
    var summary := OptEnum(t, "model_reasoning_summary", tokens.reasoningSummary);
    var verbosity := OptEnum(t, "model_verbosity", tokens.verbosity);
    var baseUrl := OptStr(t, "chatgpt_base_url");
    var sandbox := OptEnum(t, "sandbox_mode", tokens.sandboxMode);
    var plan := OptBool(t, "include_plan_tool");
    var patch := OptBool(t, "include_apply_patch_tool");
    var image := OptBool(t, "include_view_image_tool");
    var search := OptBool(t, "tools_web_search_request");
    OptStrFacts(t, "model"); OptStrFacts(t, "model_provider"); OptStrFacts(t, "chatgpt_base_url");
    OptEnumFacts(t, "approval_policy", tokens.approvalPolicy);
    OptEnumFacts(t, "model_reasoning_effort", tokens.reasoningEffort);
    OptEnumFacts(t, "model_reasoning_summary", tokens.reasoningSummary);
    OptEnumFacts(t, "model_verbosity", tokens.verbosity);
    OptEnumFacts(t, "sandbox_mode", tokens.sandboxMode);
    OptBoolFacts(t, "disable_response_storage"); OptBoolFacts(t, "include_plan_tool");
    OptBoolFacts(t, "include_apply_patch_tool"); OptBoolFacts(t, "include_view_image_tool");
    OptBoolFacts(t, "tools_web_search_request");
    if model.None? || provider.None? || approval.None? || storage.None? || effort.None?
      || summary.None? || verbosity.None? || baseUrl.None? || sandbox.None?
      || plan.None? || patch.None? || image.None? || search.None?
    then None
    else Some(AgentRun(model.value, provider.value, approval.value, storage.value, effort.value,
      summary.value, verbosity.value, baseUrl.value, sandbox.value,
      plan.value, patch.value, image.value, search.value))
  }

  /** Keys the run struct does not name are ignored. */
  lemma RunIgnoresUnknownKeys(t: map<string, Toml>, k: string, v: Toml, tokens: RunTokens)
    requires k !in StringRunKeys && k !in BoolRunKeys
    ensures DecodeRun(t[k := v], tokens) == DecodeRun(t, tokens)
  {
    forall key | key in StringRunKeys ensures OptStr(t[k := v], key) == OptStr(t, key) {
      SettingIgnoresOtherKey(t, k, v, key, {});
    }
    forall key, accepted: set<string> | key in StringRunKeys ensures OptEnum(t[k := v], key, accepted) == OptEnum(t, key, accepted) {
      SettingIgnoresOtherKey(t, k, v, key, accepted);
    }
    forall key | key in BoolRunKeys ensures OptBool(t[k := v], key) == OptBool(t, key) {
      SettingIgnoresOtherKey(t, k, v, key, {});
    }
  }

  /** Writing one key leaves the setting read from another key as it was. */
  lemma SettingIgnoresOtherKey(t: map<string, Toml>, k: string, v: Toml, key: string, accepted: set<string>)
    requires key != k
    ensures OptStr(t[k := v], key) == OptStr(t, key) && OptBool(t[k := v], key) == OptBool(t, key)
    ensures OptEnum(t[k := v], key, accepted) == OptEnum(t, key, accepted)
  {
  }

  /** `[run]`: a table that decodes, else nothing. */
  function RunOfValue(v: Option<Toml>, tokens: RunTokens): Option<AgentRun> {
    match v
    case Some(TTable(t)) => DecodeRun(t, tokens)
    case _ => None
  }

  // ------------------------------------------------------------------ tools

  /** `map_tools_to_toggles`: every toggle is set, each to whether its token (or its dashed spelling) is listed. */
  function MapToolsToToggles(list: seq<string>): (r: AgentTogglePolicy)
    ensures r.includePlanTool.Some? && r.includeApplyPatchTool.Some?
    ensures r.includeViewImageTool.Some? && r.toolsWebSearchRequest.Some?
  {
    AgentTogglePolicy(
      Some(HasIgnoringCase(list, "plan")),
      Some(HasIgnoringCase(list, "apply_patch") || HasIgnoringCase(list, "apply-patch")),
      Some(HasIgnoringCase(list, "view_image") || HasIgnoringCase(list, "view-image")),
      Some(HasIgnoringCase(list, "web_search") || HasIgnoringCase(list, "web-search")))
  }

  /** Tools: an array (its string items) or a string (split) becomes a toggle policy; another type or no value, none. */
  function TogglesOf(v: Option<Toml>): Option<AgentTogglePolicy> {
    match v
    case Some(TArr(items)) => Some(MapToolsToToggles(TomlStrings(items)))
    case Some(TStr(s)) => Some(MapToolsToToggles(Tokens(s, CommaOrWhitespace)))
    case _ => None
  }

  /** The toggle a token turns on does not depend on where in the list it sits: listing more tools only turns more on. */
  lemma HasConcat(a: seq<string>, b: seq<string>, needle: string)
    ensures HasIgnoringCase(a + b, needle) <==> HasIgnoringCase(a, needle) || HasIgnoringCase(b, needle)
  {
    if HasIgnoringCase(a + b, needle) {
      var k :| 0 <= k < |a + b| && EqIgnoreAsciiCase((a + b)[k], needle);
      if k >= |a| { assert (a + b)[k] == b[k - |a|]; }
    }
    if HasIgnoringCase(b, needle) {
      var k :| 0 <= k < |b| && EqIgnoreAsciiCase(b[k], needle);
      assert (a + b)[|a| + k] == b[k];
    }
    if HasIgnoringCase(a, needle) {
      var k :| 0 <= k < |a| && EqIgnoreAsciiCase(a[k], needle);
      assert (a + b)[k] == a[k];
    }
  }

  /** Toggles of a longer list are the pointwise "or" of the toggles of its two halves. */
  lemma TogglesOfConcat(a: seq<string>, b: seq<string>)
    ensures var ra, rb, r := MapToolsToToggles(a), MapToolsToToggles(b), MapToolsToToggles(a + b);
      && r.includePlanTool.value == (ra.includePlanTool.value || rb.includePlanTool.value)
      && r.includeApplyPatchTool.value == (ra.includeApplyPatchTool.value || rb.includeApplyPatchTool.value)
      && r.includeViewImageTool.value == (ra.includeViewImageTool.value || rb.includeViewImageTool.value)
      && r.toolsWebSearchRequest.value == (ra.toolsWebSearchRequest.value || rb.toolsWebSearchRequest.value)
  {
    HasConcat(a, b, "plan");
    HasConcat(a, b, "apply_patch");
    HasConcat(a, b, "apply-patch");
    HasConcat(a, b, "view_image");
    HasConcat(a, b, "view-image");
    HasConcat(a, b, "web_search");
    HasConcat(a, b, "web-search");
  }

  /** A one-token list turns on the toggle(s) whose token it spells, in any ASCII case, and no other. */
  lemma TogglesOfOne(s: string)
    ensures MapToolsToToggles([s]) == AgentTogglePolicy(
      Some(EqIgnoreAsciiCase(s, "plan")),
      Some(EqIgnoreAsciiCase(s, "apply_patch") || EqIgnoreAsciiCase(s, "apply-patch")),
      Some(EqIgnoreAsciiCase(s, "view_image") || EqIgnoreAsciiCase(s, "view-image")),
      Some(EqIgnoreAsciiCase(s, "web_search") || EqIgnoreAsciiCase(s, "web-search")))
  {
    forall needle ensures HasIgnoringCase([s], needle) <==> EqIgnoreAsciiCase(s, needle) {
      if EqIgnoreAsciiCase(s, needle) { assert EqIgnoreAsciiCase([s][0], needle); }
    }
  }

  /** The empty list turns every toggle off (but still sets it). */
  lemma TogglesOfEmpty()
    ensures MapToolsToToggles([]) == AgentTogglePolicy(Some(false), Some(false), Some(false), Some(false))
  {
  }

  /** A single token in any ASCII case turns on exactly its toggle. */
  lemma TogglesOfMixedCase()
    ensures MapToolsToToggles(["Apply-Patch"]) == AgentTogglePolicy(Some(false), Some(true), Some(false), Some(false))
    ensures MapToolsToToggles(["PLAN"]) == AgentTogglePolicy(Some(true), Some(false), Some(false), Some(false))
  {
    TogglesOfApplyPatch();
    TogglesOfPlan();
  }

  lemma TogglesOfApplyPatch()
    ensures MapToolsToToggles(["Apply-Patch"]) == AgentTogglePolicy(Some(false), Some(true), Some(false), Some(false))
  {
    assert HasIgnoringCase(["Apply-Patch"], "apply-patch") by {
      assert AsciiLower("Apply-Patch") == "apply-patch";
      assert EqIgnoreAsciiCase(["Apply-Patch"][0], "apply-patch");
    }
    assert !HasIgnoringCase(["Apply-Patch"], "plan") by { assert AsciiLower("plan") != AsciiLower("Apply-Patch"); }
    assert !HasIgnoringCase(["Apply-Patch"], "view_image") by { assert AsciiLower("view_image")[0] != AsciiLower("Apply-Patch")[0]; }
    assert !HasIgnoringCase(["Apply-Patch"], "view-image") by { assert AsciiLower("view-image")[0] != AsciiLower("Apply-Patch")[0]; }
    assert !HasIgnoringCase(["Apply-Patch"], "web_search") by { assert AsciiLower("web_search")[0] != AsciiLower("Apply-Patch")[0]; }
    assert !HasIgnoringCase(["Apply-Patch"], "web-search") by { assert AsciiLower("web-search")[0] != AsciiLower("Apply-Patch")[0]; }
    assert !HasIgnoringCase(["Apply-Patch"], "apply_patch") by { assert AsciiLower("apply_patch")[5] != AsciiLower("Apply-Patch")[5]; }
  }

  lemma TogglesOfPlan()
    ensures MapToolsToToggles(["PLAN"]) == AgentTogglePolicy(Some(true), Some(false), Some(false), Some(false))
  {
    assert HasIgnoringCase(["PLAN"], "plan") by {
      assert AsciiLower("PLAN") == "plan";
      assert EqIgnoreAsciiCase(["PLAN"][0], "plan");
    }
    assert !HasIgnoringCase(["PLAN"], "apply_patch") by { assert AsciiLower("apply_patch")[0] != AsciiLower("PLAN")[0]; }
    assert !HasIgnoringCase(["PLAN"], "apply-patch") by { assert AsciiLower("apply-patch")[0] != AsciiLower("PLAN")[0]; }
    assert !HasIgnoringCase(["PLAN"], "view_image") by { assert AsciiLower("view_image")[0] != AsciiLower("PLAN")[0]; }
    assert !HasIgnoringCase(["PLAN"], "view-image") by { assert AsciiLower("view-image")[0] != AsciiLower("PLAN")[0]; }
    assert !HasIgnoringCase(["PLAN"], "web_search") by { assert AsciiLower("web_search")[0] != AsciiLower("PLAN")[0]; }
    assert !HasIgnoringCase(["PLAN"], "web-search") by { assert AsciiLower("web-search")[0] != AsciiLower("PLAN")[0]; }
  }

  // ------------------------------------------------------------------ parse

  /** The keys `parse` consumes; any other key is reported as unrecognized and ignored. */
  const KnownKeys := {"name", "description", "tags", "instructions_file", "instructions", "run", "mcp_servers", "tools"}

  /** The agent `parse` builds from a table whose `name` is the string `name`. */
  function AssembleSpec(t: map<string, Toml>, name: string, prompt: Option<string>, tokens: RunTokens): AgentConfig {
    AgentConfig(
      name,
      AsStr(Field(t, "description")).GetOr("Agent"),
      TagsOf(Field(t, "tags")),
      TogglesOf(Field(t, "tools")),
      None,
      AsStr(Field(t, "instructions_file")),
      InstructionsOf(AsStr(Field(t, "instructions_file")), AsStr(Field(t, "instructions")), prompt),
      RunOfValue(Field(t, "run"), tokens),
      Field(t, "mcp_servers"))
  }

  /** `parse`, stated by direct lookups in the table. */
  function ParseSpec(doc: Option<map<string, Toml>>, prompt: Option<string>, tokens: RunTokens): (r: Result<AgentConfig, CodexError>)
    ensures doc.None? ==> r == Err(InvalidToml)
    ensures doc.Some? ==> (r.Err? <==> !("name" in doc.value && doc.value["name"].TStr?))
    ensures r.Err? && doc.Some? ==> r.error == MissingName
    ensures r.Ok? ==> doc.Some? && doc.value["name"] == TStr(r.value.name)
  {
    match doc
    case None => Err(InvalidToml)
    case Some(t) =>
      match AsStr(Field(t, "name"))
      case None => Err(MissingName)
      case Some(name) => Ok(AssembleSpec(t, name, prompt, tokens))
  }

  /**
   * `parse`: takes the eight known keys out of the table, builds the agent
   * from their values, and also returns the keys left over.
   */
  method Parse(doc: Option<map<string, Toml>>, prompt: Option<string>, tokens: RunTokens)
    returns (r: Result<AgentConfig, CodexError>, unrecognized: set<string>)
    ensures r == ParseSpec(doc, prompt, tokens)
    ensures r.Ok? ==> unrecognized == doc.value.Keys - KnownKeys
  {
    unrecognized := {};
    if doc.None? {
      return Err(InvalidToml), unrecognized;
    }
    var v, rest := TakeKnownKeys(doc.value);
    var name := AsStr(v.name);
    if name.None? {
      return Err(MissingName), unrecognized;
    }
    var description := AsStr(v.description).GetOr("Agent");
    var tags := TagsOf(v.tags);
    var instructionsFile := AsStr(v.instructionsFile);
    var instructions := AsStr(v.instructions);
    if instructionsFile.None? && instructions.None? {
      instructions := prompt;
    }
    var run := RunOfValue(v.run, tokens);
    var toggles := TogglesOf(v.tools);
    unrecognized := rest.Keys;
    r := Ok(AgentConfig(name.value, description, tags, toggles, None, instructionsFile, instructions, run, v.mcpServers));
  }

  /** The raw values `parse` takes out of the table, one per known key. */
  datatype KnownValues = KnownValues(
    name: Option<Toml>, description: Option<Toml>, tags: Option<Toml>, instructionsFile: Option<Toml>,
    instructions: Option<Toml>, run: Option<Toml>, mcpServers: Option<Toml>, tools: Option<Toml>)

  /**
   * The `tbl.remove(..)` calls of `parse`, one known key at a time: each
   * value is the one the original table holds, and what is left is the
   * table without the known keys.
   */
  method TakeKnownKeys(t0: map<string, Toml>) returns (v: KnownValues, rest: map<string, Toml>)
    ensures v == KnownValues(Field(t0, "name"), Field(t0, "description"), Field(t0, "tags"),
      Field(t0, "instructions_file"), Field(t0, "instructions"), Field(t0, "run"),
      Field(t0, "mcp_servers"), Field(t0, "tools"))
    ensures rest.Keys == t0.Keys - KnownKeys
  {
    var tbl := t0;
    ghost var gone: set<string> := {};
    KnownKeysDistinct();
    var name, description, tags, instructionsFile, instructions, run, mcpServers, tools;
    name, tbl := Remove(tbl, "name", t0, gone);
    gone := gone + {"name"};
    description, tbl := Remove(tbl, "description", t0, gone);
    gone := gone + {"description"};
    tags, tbl := Remove(tbl, "tags", t0, gone);
    gone := gone + {"tags"};
    instructionsFile, tbl := Remove(tbl, "instructions_file", t0, gone);
    gone := gone + {"instructions_file"};
    instructions, tbl := Remove(tbl, "instructions", t0, gone);
    gone := gone + {"instructions"};
    run, tbl := Remove(tbl, "run", t0, gone);
    gone := gone + {"run"};
    mcpServers, tbl := Remove(tbl, "mcp_servers", t0, gone);
    gone := gone + {"mcp_servers"};
    tools, tbl := Remove(tbl, "tools", t0, gone);
    gone := gone + {"tools"};
    v := KnownValues(name, description, tags, instructionsFile, instructions, run, mcpServers, tools);
    rest := tbl;
    assert gone == KnownKeys;
  }

  /** The known keys are pairwise distinct strings. */
  lemma KnownKeysDistinct()
    ensures "name" != "description"
    ensures "name" != "tags"
    ensures "name" != "instructions_file"
    ensures "name" != "instructions"
    ensures "name" != "run"
    ensures "name" != "mcp_servers"
    ensures "name" != "tools"
    ensures "description" != "tags"
    ensures "description" != "instructions_file"
    ensures "description" != "instructions"
    ensures "description" != "run"
    ensures "description" != "mcp_servers"
    ensures "description" != "tools"
    ensures "tags" != "instructions_file"
    ensures "tags" != "instructions"
    ensures "tags" != "run"
    ensures "tags" != "mcp_servers"
    ensures "tags" != "tools"
    ensures "instructions_file" != "instructions"
    ensures "instructions_file" != "run"
    ensures "instructions_file" != "mcp_servers"
    ensures "instructions_file" != "tools"
    ensures "instructions" != "run"
    ensures "instructions" != "mcp_servers"
    ensures "instructions" != "tools"
    ensures "run" != "mcp_servers"
    ensures "run" != "tools"
    ensures "mcp_servers" != "tools"
  {
  }

  /**
   * `tbl.remove(key)`: the value under `key`, and the table without it. On a
   * table from which the keys `gone` were taken, the value is the original
   * one for any key not taken yet.
   */
  method Remove(tbl: map<string, Toml>, key: string, ghost t0: map<string, Toml>, ghost gone: set<string>)
    returns (v: Option<Toml>, rest: map<string, Toml>)
    requires tbl == t0 - gone && key !in gone
    ensures v == Field(t0, key)
    ensures rest == t0 - (gone + {key})
  {
    v := Field(tbl, key);
    rest := tbl - {key};
  }

  // ------------------------------------------------------- parse properties

  /** `description` defaults to "Agent" when it is missing or not a string. */
  lemma DescriptionDefault(t: map<string, Toml>, prompt: Option<string>, tokens: RunTokens)
    requires "name" in t && t["name"].TStr?
    ensures ParseSpec(Some(t), prompt, tokens).Ok?
    ensures ParseSpec(Some(t), prompt, tokens).value.description ==
      if "description" in t && t["description"].TStr? then t["description"].s else "Agent"
  {
  }

  /** A non-string `instructions_file` is dropped, and the sibling prompt is then used only without inline instructions. */
  lemma InstructionsFallback(t: map<string, Toml>, prompt: Option<string>, tokens: RunTokens)
    requires "name" in t && t["name"].TStr?
    ensures var a := ParseSpec(Some(t), prompt, tokens).value;
      && (a.instructionsFile.Some? <==> "instructions_file" in t && t["instructions_file"].TStr?)
      && ("instructions" in t && t["instructions"].TStr? ==> a.instructions == Some(t["instructions"].s))
      && (a.instructionsFile.Some? ==> a.instructions == AsStr(Field(t, "instructions")))
      && (a.instructionsFile.None? && !("instructions" in t && t["instructions"].TStr?) ==> a.instructions == prompt)
  {
  }

  /** Codex agents never carry tool references; their embedded servers are the `mcp_servers` value as written. */
  lemma CodexHasNoToolRefs(t: map<string, Toml>, prompt: Option<string>, tokens: RunTokens)
    requires "name" in t && t["name"].TStr?
    ensures ParseSpec(Some(t), prompt, tokens).value.mcpToolRefs.None?
    ensures ParseSpec(Some(t), prompt, tokens).value.mcpServers == Field(t, "mcp_servers")
  {
  }

  /** Keys `parse` does not know change nothing. */
  lemma UnknownKeysIgnored(t: map<string, Toml>, k: string, v: Toml, prompt: Option<string>, tokens: RunTokens)
    requires k !in KnownKeys
    ensures ParseSpec(Some(t[k := v]), prompt, tokens) == ParseSpec(Some(t), prompt, tokens)
  {
    assert forall key | key in KnownKeys :: Field(t[k := v], key) == Field(t, key);
  }

  /** The toggles of a parsed agent are those of its `tools` value. */
  lemma ParsedToggles(t: map<string, Toml>, prompt: Option<string>, tokens: RunTokens)
    requires "name" in t && t["name"].TStr?
    ensures ParseSpec(Some(t), prompt, tokens).value.toggles == TogglesOf(Field(t, "tools"))
  {
  }

  /** A `tools` array: non-string items are skipped and the rest decide the toggles. */
  lemma ToolsArrayExample(prompt: Option<string>, tokens: RunTokens)
    ensures var t := map["name" := TStr("reviewer"), "tools" := TArr([TStr("PLAN"), TInt(3), TStr("Apply-Patch")])];
      ParseSpec(Some(t), prompt, tokens).value.toggles == Some(AgentTogglePolicy(Some(true), Some(true), Some(false), Some(false)))
  {
    var items := [TStr("PLAN"), TInt(3), TStr("Apply-Patch")];
    assert TomlStrings(items) == ["PLAN"] + ["Apply-Patch"] by {
      assert items[1..] == [TInt(3), TStr("Apply-Patch")];
      assert items[1..][1..] == [TStr("Apply-Patch")];
    }
    assert MapToolsToToggles(TomlStrings(items)) == AgentTogglePolicy(Some(true), Some(true), Some(false), Some(false)) by {
      TogglesOfMixedCase();
      TogglesOfConcat(["PLAN"], ["Apply-Patch"]);
    }
    var t := map["name" := TStr("reviewer"), "tools" := TArr(items)];
    assert Field(t, "tools") == Some(TArr(items));
    ParsedToggles(t, prompt, tokens);
  }

  /** A `[run]` value that is not a table, or that has a mistyped known key, gives no run settings. */
  lemma RunRejected(t: map<string, Toml>, prompt: Option<string>, tokens: RunTokens)
    requires "name" in t && t["name"].TStr?
    requires "run" in t
    requires || !t["run"].TTable?
             || ("model" in t["run"].fields && !t["run"].fields["model"].TStr?)
             || ("sandbox_mode" in t["run"].fields && t["run"].fields["sandbox_mode"].TStr?
                 && t["run"].fields["sandbox_mode"].s !in tokens.sandboxMode)
    ensures ParseSpec(Some(t), prompt, tokens).value.run.None?
  {
  }

  /**
   * Tags: absent or of another type, none; an array, its string items in
   * order, none when it has no string item; a string, its non-blank
   * trimmed pieces between commas and white space, none when there are none.
   */
  lemma CodexTags(t: map<string, Toml>, prompt: Option<string>, tokens: RunTokens)
    requires "name" in t && t["name"].TStr?
    ensures var tags := ParseSpec(Some(t), prompt, tokens).value.tags;
      && ("tags" !in t || !(t["tags"].TArr? || t["tags"].TStr?) ==> tags.None?)
      && ("tags" in t && t["tags"].TArr? ==>
            (tags.Some? <==> exists k | 0 <= k < |t["tags"].items| :: t["tags"].items[k].TStr?)
            && (tags.Some? ==> tags.value == TomlStrings(t["tags"].items)))
      && ("tags" in t && t["tags"].TStr? && tags.Some? ==>
            tags.value == Tokens(t["tags"].s, CommaOrWhitespace)
            && forall k | 0 <= k < |tags.value| :: tags.value[k] != [] && Trim(tags.value[k]) == tags.value[k]
                 && NoSep(CommaOrWhitespace, tags.value[k]))
      && (tags.Some? ==> tags.value != [])
  {
    if "tags" in t && t["tags"].TArr? {
      TomlStringsEmpty(t["tags"].items);
    }
  }

  /** A non-string item of a `tools` array changes no toggle, wherever it sits. */
  lemma ToolsSkipNonStrings(t: map<string, Toml>, prompt: Option<string>, tokens: RunTokens, a: seq<Toml>, x: Toml, b: seq<Toml>)
    requires "name" in t && t["name"].TStr?
    requires !x.TStr?
    ensures ParseSpec(Some(t["tools" := TArr(a + [x] + b)]), prompt, tokens).value.toggles
         == ParseSpec(Some(t["tools" := TArr(a + b)]), prompt, tokens).value.toggles
  {
    var t1, t2 := t["tools" := TArr(a + [x] + b)], t["tools" := TArr(a + b)];
    assert TomlStrings(a + [x] + b) == TomlStrings(a + b) by {
      TomlStringsConcat(a + [x], b);
      TomlStringsConcat(a, [x]);
      TomlStringsOne(x);
      TomlStringsConcat(a, b);
    }
    assert TogglesOf(Field(t1, "tools")) == TogglesOf(Field(t2, "tools"));
    ParsedToggles(t1, prompt, tokens);
    ParsedToggles(t2, prompt, tokens);
  }
}
