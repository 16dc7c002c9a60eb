/**
 * The parser for Anthropic-style `.agent.md` files (parser/anthropic_frontmatter.rs):
 * YAML front matter with a required `name`, then the instructions body.
 * Turning the header text into a YAML tree is the `decodeYaml` parameter;
 * the struct decoding of that tree (required fields, defaults, aliases) is
 * modelled here.
 */
module AnthropicFrontmatter {
  import opened Wrappers
  import opened Strings
  import opened Paths
  import opened Values
  import opened McpTypes
  import opened ModelTypes
  import opened Frontmatter

  /** The decoded front matter. */
  datatype Fields = Fields(
    name: string,
    description: string,
    tools: ToolsField,
    tags: ToolsField,
    model: Option<string>,
    modelProvider: Option<string>)

  /** `supports`: the file name ends with ".agent.md". */
  predicate Supports(path: string) {
    match FileName(path)
    case None => false
    case Some(name) => EndsWith(name, ".agent.md")
  }

  /** Any `<dir>/<stem>.agent.md` is accepted, for a stem without '/'. */
  lemma SupportsAgentFile(dir: string, stem: string)
    requires NoSep(Slash, stem)
    ensures Supports(dir + "/" + stem + ".agent.md")
  {
    var name := stem + ".agent.md";
    assert NoSep(Slash, name) by {
      forall i | 0 <= i < |name| ensures !IsSep(Slash, name[i]) {
        if i < |stem| { assert name[i] == stem[i]; }
      }
    }
    assert name[|name| - 1] == 'd';
    FileNameOfChild(dir, name);
    assert dir + "/" + stem + ".agent.md" == dir + "/" + name;
    assert name[|name| - 9..] == ".agent.md";
  }

  /** A path whose file name has another ending is refused. */
  lemma RefusesOtherFiles()
    ensures !Supports("/tmp/example.chatmode.md") && !Supports("/tmp/agent.md")
  {
    RefusesChatmodeFile();
    RefusesBareAgentMd();
  }

  lemma RefusesChatmodeFile()
    ensures !Supports("/tmp/example.chatmode.md")
  {
    ChatmodeFileName();
    NotAgentMd("example.chatmode.md");
  }

  lemma ChatmodeFileName()
    ensures FileName("/tmp/example.chatmode.md") == Some("example.chatmode.md")
  {
    FileNameOfChild("/tmp", "example.chatmode.md");
    assert "/tmp" + "/" + "example.chatmode.md" == "/tmp/example.chatmode.md";
  }

  /** A name whose ninth character from the end is not a dot does not end with ".agent.md". */
  lemma NotAgentMd(name: string)
    requires |name| >= 9 && name[|name| - 9] != '.'
    ensures !EndsWith(name, ".agent.md")
  {
    assert ".agent.md"[0] == '.';
  }

  lemma RefusesBareAgentMd()
    ensures !Supports("/tmp/agent.md")
  {
    assert FileName("/tmp/agent.md") == Some("agent.md") by {
      FileNameOfChild("/tmp", "agent.md");
      assert "/tmp" + "/" + "agent.md" == "/tmp/agent.md";
    }
  }

  /**
   * Struct decoding: the header must be a mapping with a scalar `name`;
   * `description` defaults to "", `tools` and `tags` to `Empty`, `model` and
   * the provider to `None`; the string fields read any scalar as its text;
   * any present field of the wrong shape fails.
   */
  function DecodeFields(y: Yaml): (r: Option<Fields>)
    ensures r.Some? ==> y.YMap? && "name" in y.fields && ScalarText(y.fields["name"]) == Some(r.value.name)
    ensures r.Some? ==>
      || ("description" in y.fields && ScalarText(y.fields["description"]) == Some(r.value.description))
      || ("description" !in y.fields && r.value.description == "")
    ensures r.Some? ==> Some(r.value.tools) == DecodeToolsField(Field(y.fields, "tools"))
    ensures r.Some? ==> Some(r.value.tags) == DecodeToolsField(Field(y.fields, "tags"))
    ensures r.Some? ==> Some(r.value.model) == DecodeOptString(Field(y.fields, "model"))
    ensures r.Some? ==> Some(r.value.modelProvider) == DecodeProvider(y.fields)
    ensures r.None? <==>
      || !y.YMap? || !("name" in y.fields && ScalarText(y.fields["name"]).Some?)
      || ("description" in y.fields && ScalarText(y.fields["description"]).None?)
      || DecodeToolsField(Field(y.fields, "tools")).None?
      || DecodeToolsField(Field(y.fields, "tags")).None?
      || DecodeOptString(Field(y.fields, "model")).None?
      || DecodeProvider(y.fields).None?
  {
    match y
    case YMap(m) =>
      if !("name" in m && ScalarText(m["name"]).Some?) then None
      else if "description" in m && ScalarText(m["description"]).None? then None
      else
        var tools := DecodeToolsField(Field(m, "tools"));
        var tags := DecodeToolsField(Field(m, "tags"));
        var model := DecodeOptString(Field(m, "model"));
        var provider := DecodeProvider(m);
        if tools.None? || tags.None? || model.None? || provider.None? then None
        else Some(Fields(ScalarText(m["name"]).value, if "description" in m then ScalarText(m["description"]).value else "",
          tools.value, tags.value, model.value, provider.value))
    case _ => None
  }

  /** `Bare { tool }` for each tool. */
  function BareRefs(tools: seq<string>): seq<McpToolRef> {
    seq(|tools|, k requires 0 <= k < |tools| => Bare(tools[k]))
  }

  /** The `AgentConfig` built from decoded fields and the raw body. */
  function Assemble(fm: Fields, body: string): AgentConfig {
    var refs := match IntoVec(fm.tools) case Some(v) => Some(BareRefs(v)) case None => None;
    AgentConfig(fm.name, fm.description, IntoVecCommasOnly(fm.tags), None, refs, None,
      Some(Trim(body)), RunOf(fm.model, fm.modelProvider), None)
  }

  /** `parse`, as a function of the content and the YAML decoder. */
  function ParseSpec(content: string, decodeYaml: string -> Option<Yaml>): Result<AgentConfig, ParseError> {
    match SplitSpec(content)
    case Err(e) => Err(e)
    case Ok(parts) =>
      match decodeYaml(parts.yaml)
      case None => Err(InvalidYaml)
      case Some(y) =>
        match DecodeFields(y)
        case None => Err(InvalidYaml)
        case Some(fm) => Ok(Assemble(fm, parts.body))
  }

  /** `parse`: split the file, decode the header, assemble the config. */
  method Parse(content: string, decodeYaml: string -> Option<Yaml>) returns (r: Result<AgentConfig, ParseError>)
    ensures r == ParseSpec(content, decodeYaml)
  {
    var parts := SplitFrontmatter(content);
    if parts.Err? {
      return Err(parts.error);
    }
    var y := decodeYaml(parts.value.yaml);
    if y.None? {
      return Err(InvalidYaml);
    }
    var fm := DecodeFields(y.value);
    if fm.None? {
      return Err(InvalidYaml);
    }
    r := Ok(Assemble(fm.value, parts.value.body));
  }

  /** A split error is reported as it is; the decoder is never consulted. */
  lemma SplitErrorsPropagate(content: string, decodeYaml: string -> Option<Yaml>)
    requires SplitSpec(content).Err?
    ensures ParseSpec(content, decodeYaml) == Err(SplitSpec(content).error)
    ensures ParseSpec(content, decodeYaml).error != InvalidYaml
  {
  }

  /**
   * Whatever the file, a parsed agent never has toggles, an instructions file
   * or embedded servers, always has instructions, and has its tools as bare references.
   */
  lemma ParsedShape(content: string, decodeYaml: string -> Option<Yaml>)
    requires ParseSpec(content, decodeYaml).Ok?
    ensures var c := ParseSpec(content, decodeYaml).value;
      && c.toggles.None? && c.instructionsFile.None? && c.mcpServers.None? && c.instructions.Some?
      && (c.mcpToolRefs.Some? ==> |c.mcpToolRefs.value| > 0 && forall k | 0 <= k < |c.mcpToolRefs.value| :: c.mcpToolRefs.value[k].Bare?)
      && (c.run.Some? ==>
            c.run.value.approvalPolicy.None? && c.run.value.sandboxMode.None?
            && c.run.value.includePlanTool.None? && c.run.value.toolsWebSearchRequest.None?)
  {
  }

  /**
   * A parsed agent against its header: the name and description are the
   * header's strings, the instructions are the trimmed body, and run settings
   * exist exactly when the header names a model or a provider, holding only
   * those two.
   */
  lemma ParsedFromHeader(content: string, decodeYaml: string -> Option<Yaml>)
    requires ParseSpec(content, decodeYaml).Ok?
    ensures SplitSpec(content).Ok? && decodeYaml(SplitSpec(content).value.yaml).Some?
    ensures var y := decodeYaml(SplitSpec(content).value.yaml).value;
      var c := ParseSpec(content, decodeYaml).value;
      && y.YMap? && "name" in y.fields && ScalarText(y.fields["name"]) == Some(c.name)
      && ("description" in y.fields ==> ScalarText(y.fields["description"]) == Some(c.description))
      && ("description" !in y.fields ==> c.description == "")
      && c.instructions == Some(Trim(SplitSpec(content).value.body))
      && (c.run.Some? <==> ("model" in y.fields && !y.fields["model"].YNull?) || DecodeProvider(y.fields) != Some(None))
      && (c.run.Some? ==> c.run.value == EmptyRun.(model := c.run.value.model, modelProvider := c.run.value.modelProvider))
      && (c.run.Some? ==> (c.run.value.model.Some? <==> "model" in y.fields && !y.fields["model"].YNull?))
      && (c.run.Some? && c.run.value.model.Some? ==> ScalarText(y.fields["model"]) == c.run.value.model)
      && (c.run.Some? ==> DecodeProvider(y.fields) == Some(c.run.value.modelProvider))
  {
    var y := decodeYaml(SplitSpec(content).value.yaml).value;
    var fm := DecodeFields(y).value;
    assert ParseSpec(content, decodeYaml).value == Assemble(fm, SplitSpec(content).value.body);
  }

  /** The header `name: Example / description: Test / tags: deep research, demo, another tag`. */
  const ExampleHeader := YMap(map["name" := YStr("Example"), "description" := YStr("Test"),
    "tags" := YStr("deep research, demo, another tag")])

  lemma TokensOfExampleTags()
    ensures Tokens("deep research, demo, another tag", CommaOnly)
      == NonBlankTrimmed(["deep research", " demo", " another tag"])
  {
    var ps := ["deep research", " demo", " another tag"];
    assert Join(ps, ",") == "deep research, demo, another tag";
    TokensOfJoinedPieces(ps, ',', CommaOnly);
  }

  lemma TrimmedAnotherTag()
    ensures NonBlankTrimmed([" another tag"]) == ["another tag"]
  {
    assert " another tag" == [' '] + "another tag";
    TrimOfLeadingSpace("another tag");
    NonBlankTrimmedCons(" another tag", []);
    assert [" another tag"] == [" another tag"] + [];
  }

  lemma TrimmedExampleTagsTail()
    ensures NonBlankTrimmed([" demo", " another tag"]) == ["demo", "another tag"]
  {
    TrimmedAnotherTag();
    assert " demo" == [' '] + "demo";
    TrimOfLeadingSpace("demo");
    NonBlankTrimmedCons(" demo", [" another tag"]);
    assert [" demo", " another tag"] == [" demo"] + [" another tag"];
  }

  lemma TrimmedExampleTags()
    ensures NonBlankTrimmed(["deep research", " demo", " another tag"]) == ["deep research", "demo", "another tag"]
  {
    TrimmedExampleTagsTail();
    TrimOfNoEdgeSpace("deep research");
    BlankIffTrimEmpty("deep research");
    NonBlankTrimmedCons("deep research", [" demo", " another tag"]);
    assert ["deep research", " demo", " another tag"] == ["deep research"] + [" demo", " another tag"];
  }

  /** Tags are split at commas only, so inner spaces survive. */
  lemma TagsKeepInnerSpaces(body: string)
    ensures DecodeFields(ExampleHeader).Some?
    ensures var c := Assemble(DecodeFields(ExampleHeader).value, body);
      c.name == "Example" && c.description == "Test"
      && c.tags == Some(["deep research", "demo", "another tag"])
      && c.mcpToolRefs.None? && c.run.None?
  {
    ExampleHeaderFields();
    ExampleTagsSplit();
  }

  lemma ExampleTagsSplit()
    ensures IntoVecCommasOnly(Single("deep research, demo, another tag")) == Some(["deep research", "demo", "another tag"])
  {
    TokensOfExampleTags();
    TrimmedExampleTags();
  }

  lemma ExampleHeaderFields()
    ensures DecodeFields(ExampleHeader) == Some(Fields("Example", "Test", Empty, Single("deep research, demo, another tag"), None, None))
  {
    var m := ExampleHeader.fields;
    assert "model_provider" !in m && "provider" !in m && "modelProvider" !in m;
    assert Field(m, "tools").None? && Field(m, "model").None?;
  }

  /**
   * Plain scalars in string fields read as written: `name: 123`,
   * `description: true` and `model: 4.1` give "123", "true" and "4.1".
   */
  lemma PlainScalarsReadAsText()
    ensures DecodeFields(YMap(map["name" := YNum("123"), "description" := YBool(true, "true"), "model" := YNum("4.1")]))
      == Some(Fields("123", "true", Empty, Empty, Some("4.1"), None))
  {
    var m := map["name" := YNum("123"), "description" := YBool(true, "true"), "model" := YNum("4.1")];
    assert "model_provider" !in m && "provider" !in m && "modelProvider" !in m;
    assert Field(m, "tools").None? && Field(m, "tags").None? && Field(m, "model") == Some(YNum("4.1"));
  }

  /** An empty `description:` reads as "", while a list under `name` refuses the header. */
  lemma EmptyDescriptionListName()
    ensures DecodeFields(YMap(map["name" := YStr("a"), "description" := YNull("")]))
      == Some(Fields("a", "", Empty, Empty, None, None))
    ensures DecodeFields(YMap(map["name" := YSeq([YStr("a")])])).None?
  {
    var m := map["name" := YStr("a"), "description" := YNull("")];
    assert "model_provider" !in m && "provider" !in m && "modelProvider" !in m;
    assert Field(m, "tools").None? && Field(m, "tags").None? && Field(m, "model").None?;
  }

  lemma TokensOfPlanApplyPatch()
    ensures Tokens("plan apply_patch", CommaOrWhitespace) == NonBlankTrimmed(["plan", "apply_patch"])
  {
    var ps := ["plan", "apply_patch"];
    assert Join(ps, " ") == "plan apply_patch";
    TokensOfJoinedPieces(ps, ' ', CommaOrWhitespace);
  }

  lemma TrimmedPlanApplyPatch()
    ensures NonBlankTrimmed(["plan", "apply_patch"]) == ["plan", "apply_patch"]
  {
    TrimOfNoEdgeSpace("apply_patch");
    BlankIffTrimEmpty("apply_patch");
    NonBlankTrimmedCons("apply_patch", []);
    assert ["apply_patch"] == ["apply_patch"] + [];
    TrimOfNoEdgeSpace("plan");
    BlankIffTrimEmpty("plan");
    NonBlankTrimmedCons("plan", ["apply_patch"]);
    assert ["plan", "apply_patch"] == ["plan"] + ["apply_patch"];
  }

  /** `tools: plan apply_patch` gives the bare references `plan` and `apply_patch`. */
  lemma ToolsStringBecomesBareRefs()
    ensures IntoVec(Single("plan apply_patch")) == Some(["plan", "apply_patch"])
    ensures BareRefs(["plan", "apply_patch"]) == [Bare("plan"), Bare("apply_patch")]
  {
    assert Tokens("plan apply_patch", CommaOrWhitespace) == ["plan", "apply_patch"] by {
      TokensOfPlanApplyPatch();
      TrimmedPlanApplyPatch();
    }
    BarePlanApplyPatch();
  }

  lemma BarePlanApplyPatch()
    ensures BareRefs(["plan", "apply_patch"]) == [Bare("plan"), Bare("apply_patch")]
  {
    var r := BareRefs(["plan", "apply_patch"]);
    assert r[0] == Bare("plan") && r[1] == Bare("apply_patch");
  }

  /** A YAML list of tools is kept as it is. */
  lemma ToolsListKept()
    ensures DecodeToolsField(Some(YSeq([YStr("view_image"), YStr("web_search")]))) == Some(List(["view_image", "web_search"]))
    ensures IntoVec(List(["view_image", "web_search"])) == Some(["view_image", "web_search"])
  {
    var items := [YStr("view_image"), YStr("web_search")];
    assert seq(|items|, k requires 0 <= k < |items| => items[k].s) == ["view_image", "web_search"];
  }

  /** `model: sonnet` gives a run whose model is "sonnet" and nothing else. */
  lemma ModelMappedIntoRun(body: string)
    ensures var h := YMap(map["name" := YStr("WithModel"), "description" := YStr("Test"), "model" := YStr("sonnet")]);
      DecodeFields(h).Some?
      && Assemble(DecodeFields(h).value, body).run == Some(EmptyRun.(model := Some("sonnet")))
  {
    ModelHeaderFields();
  }

  lemma ModelHeaderFields()
    ensures DecodeFields(YMap(map["name" := YStr("WithModel"), "description" := YStr("Test"), "model" := YStr("sonnet")]))
      == Some(Fields("WithModel", "Test", Empty, Empty, Some("sonnet"), None))
  {
    var m := map["name" := YStr("WithModel"), "description" := YStr("Test"), "model" := YStr("sonnet")];
    assert "model_provider" !in m && "provider" !in m && "modelProvider" !in m;
    assert Field(m, "tools").None? && Field(m, "tags").None? && Field(m, "model") == Some(YStr("sonnet"));
  }

  /** Two spellings of the provider in one header are a decoding error. */
  lemma DuplicateProviderRejected()
    ensures DecodeFields(YMap(map["name" := YStr("n"), "provider" := YStr("a"), "modelProvider" := YStr("b")])).None?
  {
  }
}
