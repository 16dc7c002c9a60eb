/**
 * The parser for VS Code `.chatmode.md` files (parser/vscode_chatmode.rs):
 * the same front-matter split as `.agent.md` files, a required
 * `description`, an optional `name` derived from the file name when absent,
 * and tool entries that may name a server as `server::tool`.
 */
module VscodeChatmode {
  import opened Wrappers
  import opened Strings
  import opened Paths
  import opened Values
  import opened McpTypes
  import opened ModelTypes
  import opened Frontmatter

  datatype Fields = Fields(
    name: Option<string>,
    description: string,
    tools: ToolsField,
    model: Option<string>,
    modelProvider: Option<string>,
    tags: ToolsField)

  /** `supports`: the file name ends with ".chatmode.md". */
  predicate Supports(path: string) {
    match FileName(path)
    case None => false
    case Some(name) => EndsWith(name, ".chatmode.md")
  }

  /** `<stem>.chatmode.md` has no '/' when its stem has none. */
  lemma ChatmodeNameNoSlash(stem: string)
    requires NoSep(Slash, stem)
    ensures NoSep(Slash, stem + ".chatmode.md")
  {
    var name := stem + ".chatmode.md";
    forall i | 0 <= i < |name| ensures !IsSep(Slash, name[i]) {
      if i < |stem| { assert name[i] == stem[i]; }
    }
  }

  /** Any `<dir>/<stem>.chatmode.md` is accepted. */
  lemma SupportsChatmodeFile(dir: string, stem: string)
    requires NoSep(Slash, stem)
    ensures Supports(dir + "/" + stem + ".chatmode.md")
  {
    var name := stem + ".chatmode.md";
    ChatmodeNameNoSlash(stem);
    assert name[|name| - 1] == 'd';
    FileNameOfChild(dir, name);
    assert dir + "/" + stem + ".chatmode.md" == dir + "/" + name;
    assert name[|name| - 12..] == ".chatmode.md";
  }

  /** `derive_name_from_filename`: the file stem without a trailing ".chatmode", or "agent" without a stem. */
  function DeriveNameFromFilename(path: string): (r: string)
    ensures FileStem(path).None? ==> r == "agent"
    ensures FileStem(path).Some? ==>
      r + ".chatmode" == FileStem(path).value || (r == FileStem(path).value && !EndsWith(r, ".chatmode"))
  {
    var f := match FileStem(path) case Some(x) => x case None => "agent";
    match StripSuffix(f, ".chatmode")
    case Some(x) => x
    case None => f
  }

  /** The last '.' of `x + ".md"` is the one before "md". */
  lemma LastDotBeforeMd(x: string)
    ensures LastDot(x + ".md") == Some(|x|)
  {
    var s := x + ".md";
    var s1 := s[..|s| - 1];
    assert s1 == x + ".m";
    assert LastDot(s) == LastDot(s1) by { assert s[|s| - 1] == 'd'; }
    var s2 := s1[..|s1| - 1];
    assert s2 == x + ".";
    assert LastDot(s1) == LastDot(s2) by { assert s1[|s1| - 1] == 'm'; }
    assert LastDot(s2) == Some(|x|) by { assert s2[|s2| - 1] == '.'; }
  }

  /** A file `<dir>/<stem>.chatmode.md` without a `name` is named `<stem>`. */
  lemma DerivedNameIsStem(dir: string, stem: string)
    requires NoSep(Slash, stem)
    ensures DeriveNameFromFilename(dir + "/" + stem + ".chatmode.md") == stem
  {
    var name := stem + ".chatmode.md";
    ChatmodeNameNoSlash(stem);
    assert name[|name| - 1] == 'd';
    FileNameOfChild(dir, name);
    assert dir + "/" + stem + ".chatmode.md" == dir + "/" + name;
    assert name == (stem + ".chatmode") + ".md";
    LastDotBeforeMd(stem + ".chatmode");
    assert name[..|stem| + 9] == stem + ".chatmode";
  }

  /** No ':' anywhere. */
  predicate NoColon(s: string) { forall i | 0 <= i < |s| :: s[i] != ':' }

  /**
   * `parse_vscode_tool_ref`: everything before the first "::" is the server
   * key and everything after it the tool, both trimmed; without "::" the
   * trimmed entry is a bare tool name.
   */
  function ParseVscodeToolRef(s: string): (r: McpToolRef)
    ensures r.Namespaced? <==> exists j: nat :: OccursAt(s, "::", j)
    ensures r.Bare? ==> r.tool == Trim(s)
    ensures r.Namespaced? ==> exists a, b ::
      && s == a + "::" + b && (forall j: nat | j < |a| :: !OccursAt(s, "::", j))
      && r == Namespaced(Trim(a), Trim(b))
  {
    match SplitOnce(s, "::")
    case Some((server, tool)) =>
      assert s[..|server|] == server && OccursAt(s, "::", |server|) by {
        assert s == server + "::" + tool;
        assert s[|server|..|server| + 2] == "::";
      }
      Namespaced(Trim(server), Trim(tool))
    case None => Bare(Trim(s))
  }

  /** Round trip: a trimmed key without ':' joined to a trimmed tool by "::" parses back to the pair. */
  lemma ToolRefRoundTrip(key: string, tool: string)
    requires NoColon(key) && Trim(key) == key && Trim(tool) == tool
    ensures ParseVscodeToolRef(key + "::" + tool) == Namespaced(key, tool)
  {
    var s := key + "::" + tool;
    assert OccursAt(s, "::", |key|) by { assert s[|key|..|key| + 2] == "::"; }
    var r := SplitOnce(s, "::");
    var a, b := r.value.0, r.value.1;
    assert OccursAt(s, "::", |a|) by {
      assert s == a + "::" + b;
      assert s[|a|..|a| + 2] == "::";
    }
    forall j: nat | j < |key| ensures !OccursAt(s, "::", j) {
      assert s[j] == key[j];
      if j + 2 <= |s| { assert s[j..j + 2][0] == s[j]; }
    }
    assert |a| == |key|;
    assert a == s[..|a|] by { assert s == a + "::" + b; }
    assert s[..|key|] == key;
    assert b == s[|a| + 2..] by { assert s == a + "::" + b; }
    assert s[|key| + 2..] == tool;
  }

  /** A bare tool entry without "::" stays bare. */
  lemma BareToolRefKept(tool: string)
    requires NoColon(tool) && Trim(tool) == tool
    ensures ParseVscodeToolRef(tool) == Bare(tool)
  {
    forall j: nat ensures !OccursAt(tool, "::", j) {
      if j + 2 <= |tool| { assert tool[j..j + 2][0] == tool[j] != ':'; }
    }
    var r := ParseVscodeToolRef(tool);
    assert r.Bare?;
  }

  /** `Bare` or `Namespaced` for each tool entry, in order. */
  function ToolRefs(tools: seq<string>): seq<McpToolRef> {
    seq(|tools|, k requires 0 <= k < |tools| => ParseVscodeToolRef(tools[k]))
  }

  /**
   * Struct decoding: a mapping with a scalar `description` (no default),
   * read as its text; `name`, `model` and the provider are optional strings
   * (a plain null is none, any other scalar its text); `tools` and `tags`
   * are string-or-list fields.
   */
  function DecodeFields(y: Yaml): (r: Option<Fields>)
    ensures r.Some? ==> y.YMap? && "description" in y.fields && ScalarText(y.fields["description"]) == Some(r.value.description)
    ensures y.YMap? && "description" !in y.fields ==> r.None?
    ensures r.Some? ==> Some(r.value.name) == DecodeOptString(Field(y.fields, "name"))
    ensures r.Some? ==> Some(r.value.tools) == DecodeToolsField(Field(y.fields, "tools"))
    ensures r.Some? ==> Some(r.value.tags) == DecodeToolsField(Field(y.fields, "tags"))
    ensures r.Some? ==> Some(r.value.model) == DecodeOptString(Field(y.fields, "model"))
    ensures r.Some? ==> Some(r.value.modelProvider) == DecodeProvider(y.fields)
    ensures r.None? <==>
      || !y.YMap? || !("description" in y.fields && ScalarText(y.fields["description"]).Some?)
      || DecodeOptString(Field(y.fields, "name")).None?
      || DecodeToolsField(Field(y.fields, "tools")).None?
      || DecodeToolsField(Field(y.fields, "tags")).None?
      || DecodeOptString(Field(y.fields, "model")).None?
      || DecodeProvider(y.fields).None?
  {
    match y
    case YMap(m) =>
      if !("description" in m && ScalarText(m["description"]).Some?) then None
      else
        var name := DecodeOptString(Field(m, "name"));
        var tools := DecodeToolsField(Field(m, "tools"));
        var tags := DecodeToolsField(Field(m, "tags"));
        var model := DecodeOptString(Field(m, "model"));
        var provider := DecodeProvider(m);
        if name.None? || tools.None? || tags.None? || model.None? || provider.None? then None
        else Some(Fields(name.value, ScalarText(m["description"]).value, tools.value, model.value, provider.value, tags.value))
    case _ => None
  }

  /** The `AgentConfig` built from decoded fields, the file path and the raw body. */
  function Assemble(fm: Fields, path: string, body: string): AgentConfig {
    var name := match fm.name case Some(n) => n case None => DeriveNameFromFilename(path);
    var refs := match IntoVec(fm.tools) case Some(v) => Some(ToolRefs(v)) case None => None;
    AgentConfig(name, fm.description, IntoVec(fm.tags), None, refs, None,
      Some(Trim(body)), RunOf(fm.model, fm.modelProvider), None)
  }

  /** `parse`, as a function of the content, the path and the YAML decoder. */
  function ParseSpec(content: string, path: string, decodeYaml: string -> Option<Yaml>): Result<AgentConfig, ParseError> {
    match SplitSpec(content)
    case Err(e) => Err(e)
    case Ok(parts) =>
      match decodeYaml(parts.yaml)
      case None => Err(InvalidYaml)
      case Some(y) =>
        match DecodeFields(y)
        case None => Err(InvalidYaml)
        case Some(fm) => Ok(Assemble(fm, path, parts.body))
  }

  /** `parse`: split the file, decode the header, assemble the config. */
  method Parse(content: string, path: string, decodeYaml: string -> Option<Yaml>)
    returns (r: Result<AgentConfig, ParseError>)
    ensures r == ParseSpec(content, path, decodeYaml)
  {
    var parts := SplitFrontmatter(content);
    if parts.Err? {
      return Err(parts.error);
    }
    var y := decodeYaml(parts.value.yaml);
    if y.None? {
      return Err(InvalidYaml);
    }
    var fm := DecodeFields(y.value);
    if fm.None? {
      return Err(InvalidYaml);
    }
    r := Ok(Assemble(fm.value, path, parts.value.body));
  }

  /** The split errors are the same as for `.agent.md` files, and are reported before any decoding. */
  lemma SplitErrorsPropagate(content: string, path: string, decodeYaml: string -> Option<Yaml>)
    requires SplitSpec(content).Err?
    ensures ParseSpec(content, path, decodeYaml) == Err(SplitSpec(content).error)
  {
  }

  /**
   * A parsed chat mode against its header: the description is the header's,
   * the name is the header's or else derived from the file name, the
   * instructions are the trimmed body, and run settings exist exactly when the
   * header names a model or a provider, holding only those two.
   */
  lemma ParsedFromHeader(content: string, path: string, decodeYaml: string -> Option<Yaml>)
    requires ParseSpec(content, path, decodeYaml).Ok?
    ensures SplitSpec(content).Ok? && decodeYaml(SplitSpec(content).value.yaml).Some?
    ensures var y := decodeYaml(SplitSpec(content).value.yaml).value;
      var c := ParseSpec(content, path, decodeYaml).value;
      && y.YMap? && "description" in y.fields && ScalarText(y.fields["description"]) == Some(c.description)
      && (("name" in y.fields && !y.fields["name"].YNull?) ==> ScalarText(y.fields["name"]) == Some(c.name))
      && (!("name" in y.fields && !y.fields["name"].YNull?) ==> c.name == DeriveNameFromFilename(path))
      && c.instructions == Some(Trim(SplitSpec(content).value.body))
      && (c.run.Some? <==> ("model" in y.fields && !y.fields["model"].YNull?) || DecodeProvider(y.fields) != Some(None))
      && (c.run.Some? ==> c.run.value == EmptyRun.(model := c.run.value.model, modelProvider := c.run.value.modelProvider))
      && (c.run.Some? ==> (c.run.value.model.Some? <==> "model" in y.fields && !y.fields["model"].YNull?))
      && (c.run.Some? && c.run.value.model.Some? ==> ScalarText(y.fields["model"]) == c.run.value.model)
      && (c.run.Some? ==> DecodeProvider(y.fields) == Some(c.run.value.modelProvider))
  {
    var y := decodeYaml(SplitSpec(content).value.yaml).value;
    var fm := DecodeFields(y).value;
    assert ParseSpec(content, path, decodeYaml).value == Assemble(fm, path, SplitSpec(content).value.body);
  }

  /** A header without `description` does not decode, so the file is refused. */
  lemma DescriptionRequired(content: string, path: string, decodeYaml: string -> Option<Yaml>)
    requires SplitSpec(content).Ok?
    requires var y := decodeYaml(SplitSpec(content).value.yaml); y.Some? && y.value.YMap? && "description" !in y.value.fields
    ensures ParseSpec(content, path, decodeYaml) == Err(InvalidYaml)
  {
  }

  /** `name: ~` is no name, so the file name is used; `description: 42` reads as "42". */
  lemma NullNameNumericDescription()
    ensures DecodeFields(YMap(map["name" := YNull("~"), "description" := YNum("42")]))
      == Some(Fields(None, "42", Empty, None, None, Empty))
    ensures DecodeFields(YMap(map["name" := YBool(false, "false"), "description" := YStr("d")])).Some?
    ensures DecodeFields(YMap(map["name" := YBool(false, "false"), "description" := YStr("d")])).value.name == Some("false")
  {
    var m := map["name" := YNull("~"), "description" := YNum("42")];
    assert "model_provider" !in m && "provider" !in m && "modelProvider" !in m;
    assert Field(m, "tools").None? && Field(m, "tags").None? && Field(m, "model").None? && Field(m, "name") == Some(YNull("~"));
    var m2 := map["name" := YBool(false, "false"), "description" := YStr("d")];
    assert "model_provider" !in m2 && "provider" !in m2 && "modelProvider" !in m2;
    assert Field(m2, "tools").None? && Field(m2, "tags").None? && Field(m2, "model").None? && Field(m2, "name") == Some(YBool(false, "false"));
  }

  /**
   * Tags use the comma-and-white-space split (unlike `.agent.md` tags), so
   * "deep research" is two tags here.
   */
  lemma TagsSplitOnWhitespace()
    ensures IntoVec(Single("deep research")) == Some(["deep", "research"])
  {
    DeepResearchTokens();
  }

  lemma DeepResearchTokens()
    ensures Tokens("deep research", CommaOrWhitespace) == ["deep", "research"]
  {
    var ps := ["deep", "research"];
    assert Join(ps, " ") == "deep research" by { assert ps[1..] == ["research"]; }
    assert NoSep(CommaOrWhitespace, "deep") && NoSep(CommaOrWhitespace, "research");
    assert Trim("deep") == "deep" && Trim("research") == "research" by {
      TrimOfNoEdgeSpace("deep");
      TrimOfNoEdgeSpace("research");
    }
    TokensOfJoinedPieces(ps, ' ', CommaOrWhitespace);
    NonBlankTrimmedOfTrimmed(ps);
  }

  /** A parsed chat mode never has toggles, an instructions file or embedded servers, and always has instructions. */
  lemma ParsedShape(content: string, path: string, decodeYaml: string -> Option<Yaml>)
    requires ParseSpec(content, path, decodeYaml).Ok?
    ensures var c := ParseSpec(content, path, decodeYaml).value;
      c.toggles.None? && c.instructionsFile.None? && c.mcpServers.None? && c.instructions.Some?
  {
  }
}
