/**
 * The front-matter split shared by the `.agent.md` and `.chatmode.md` parsers
 * (parser/anthropic_frontmatter.rs and parser/vscode_chatmode.rs, which carry
 * the same code), and the decoding of the string-or-list fields of that
 * front matter.
 *
 * A file is read as its `lines()`. The first non-blank line must trim to
 * "---"; the header is every line up to the next line that trims to "---",
 * and the body is what follows.
 */
module Frontmatter {
  import opened Wrappers
  import opened Strings
  import opened Values
  import opened ModelTypes

  datatype ParseError = EmptyFile | MissingFrontmatter | Unterminated | InvalidYaml

  /** The header text handed to the YAML decoder and the instructions text. */
  datatype Parts = Parts(yaml: string, body: string)

  predicate IsDelimiter(l: string) { Trim(l) == "---" }

  /** The index of the first line that is not blank. */
  function FirstNonBlank(ls: seq<string>): (r: Option<nat>)
    ensures r.Some? ==> r.value < |ls| && !IsBlank(ls[r.value])
    ensures r.Some? ==> forall j | 0 <= j < r.value :: IsBlank(ls[j])
    ensures r.None? ==> forall j | 0 <= j < |ls| :: IsBlank(ls[j])
  {
    if |ls| == 0 then None
    else if !IsBlank(ls[0]) then Some(0)
    else match FirstNonBlank(ls[1..])
      case None => None
      case Some(i) => Some(i + 1)
  }

  /** The index of the first delimiter line at or after `from`. */
  function FindDelimiter(ls: seq<string>, from: nat): (r: Option<nat>)
    ensures r.Some? ==> from <= r.value < |ls| && IsDelimiter(ls[r.value])
    ensures r.Some? ==> forall j | from <= j < r.value :: !IsDelimiter(ls[j])
    ensures r.None? ==> forall j | from <= j < |ls| :: !IsDelimiter(ls[j])
    decreases |ls| - from
  {
    if from >= |ls| then None
    else if IsDelimiter(ls[from]) then Some(from)
    else FindDelimiter(ls, from + 1)
  }

  /** The header buffer: each line followed by "\n". */
  function YamlBuffer(ls: seq<string>): string {
    if |ls| == 0 then "" else YamlBuffer(ls[..|ls| - 1]) + ls[|ls| - 1] + "\n"
  }

  /** The instructions text: the lines after the closing delimiter, joined by "\n". */
  function BodyAfter(ls: seq<string>, e: nat): string
    requires e < |ls|
  {
    Join(ls[e + 1..], "\n")
  }

  /** The split of a file, stated on its lines. */
  function SplitSpec(content: string): Result<Parts, ParseError> {
    SplitLines(Lines(content))
  }

  function SplitLines(ls: seq<string>): Result<Parts, ParseError> {
    match FirstNonBlank(ls)
    case None => Err(EmptyFile)
    case Some(s) =>
      if !IsDelimiter(ls[s]) then Err(MissingFrontmatter)
      else match FindDelimiter(ls, s + 1)
        case None => Err(Unterminated)
        case Some(e) => Ok(Parts(YamlBuffer(ls[s + 1..e]), BodyAfter(ls, e)))
  }

  /** The first scan: the index of the first non-blank line. */
  method ScanFirstNonBlank(ls: seq<string>) returns (first: Option<nat>)
    ensures first == FirstNonBlank(ls)
  {
    first := None;
    var idx := 0;
    while idx < |ls|
      invariant 0 <= idx <= |ls|
      invariant forall j | 0 <= j < idx :: IsBlank(ls[j])
    {
      if !IsBlank(ls[idx]) {
        first := Some(idx);
        return;
      }
      idx := idx + 1;
    }
  }

  /** The second scan: from `from`, append lines to the header buffer until a delimiter. */
  method ScanHeader(ls: seq<string>, from: nat) returns (fmEnd: Option<nat>, buf: string)
    requires from <= |ls|
    ensures fmEnd == FindDelimiter(ls, from)
    ensures fmEnd.Some? ==> buf == YamlBuffer(ls[from..fmEnd.value])
  {
    fmEnd := None;
    buf := "";
    var i := from;
    while i < |ls|
      invariant from <= i <= |ls|
      invariant forall j | from <= j < i :: !IsDelimiter(ls[j])
      invariant buf == YamlBuffer(ls[from..i])
    {
      if IsDelimiter(ls[i]) {
        fmEnd := Some(i);
        return;
      }
      assert ls[from..i + 1][..i - from] == ls[from..i];
      buf := buf + ls[i] + "\n";
      i := i + 1;
    }
  }

  /** The split over the file's lines: two scans, the second filling the header buffer. */
  method SplitScan(ls: seq<string>) returns (r: Result<Parts, ParseError>)
    ensures r == SplitLines(ls)
  {
    var first := ScanFirstNonBlank(ls);
    if first.None? {
      return Err(EmptyFile);
    }
    var start := first.value;
    var opening := IsDelimiter(ls[start]);
    if !opening {
      return Err(MissingFrontmatter);
    }
    var fmEnd, buf := ScanHeader(ls, start + 1);
    if fmEnd.None? {
      return Err(Unterminated);
    }
    var e := fmEnd.value;
    r := Ok(Parts(buf, BodyAfter(ls, e)));
  }

  /** The split as the parsers perform it, on the `lines()` of the file. */
  method SplitFrontmatter(content: string) returns (r: Result<Parts, ParseError>)
    ensures r == SplitSpec(content)
  {
    var ls := Lines(content);
    r := SplitScan(ls);
  }

  /** Only the first non-blank line can be the opening line. */
  lemma FirstNonBlankUnique(ls: seq<string>, s: nat)
    requires s < |ls| && !IsBlank(ls[s]) && forall j | 0 <= j < s :: IsBlank(ls[j])
    ensures FirstNonBlank(ls) == Some(s)
  {
  }

  /** The split fails with `EmptyFile` exactly when every line is blank. */
  lemma SplitEmptyFile(ls: seq<string>)
    ensures SplitLines(ls) == Err(EmptyFile) <==> forall j | 0 <= j < |ls| :: IsBlank(ls[j])
  {
    match FirstNonBlank(ls)
    case None =>
    case Some(s) => assert !IsBlank(ls[s]);
  }

  /** It fails with `MissingFrontmatter` exactly when the first non-blank line is not a delimiter. */
  lemma SplitMissingFrontmatter(ls: seq<string>)
    ensures SplitLines(ls) == Err(MissingFrontmatter) <==>
        exists s | 0 <= s < |ls| :: !IsBlank(ls[s]) && (forall j | 0 <= j < s :: IsBlank(ls[j])) && !IsDelimiter(ls[s])
  {
    match FirstNonBlank(ls)
    case None =>
    case Some(s) =>
      forall s' | 0 <= s' < |ls| && !IsBlank(ls[s']) && (forall j | 0 <= j < s' :: IsBlank(ls[j]))
        ensures s' == s
      {
        FirstNonBlankUnique(ls, s');
      }
      if !IsDelimiter(ls[s]) {
        assert !IsBlank(ls[s]) && (forall j | 0 <= j < s :: IsBlank(ls[j])) && !IsDelimiter(ls[s]);
      }
  }

  /** It fails with `Unterminated` exactly when the opening delimiter has no closing one after it. */
  lemma SplitUnterminated(ls: seq<string>)
    ensures SplitLines(ls) == Err(Unterminated) <==>
        exists s | 0 <= s < |ls| :: !IsBlank(ls[s]) && (forall j | 0 <= j < s :: IsBlank(ls[j])) && IsDelimiter(ls[s])
          && forall j | s < j < |ls| :: !IsDelimiter(ls[j])
  {
    match FirstNonBlank(ls)
    case None =>
    case Some(s) =>
      forall s' | 0 <= s' < |ls| && !IsBlank(ls[s']) && (forall j | 0 <= j < s' :: IsBlank(ls[j]))
        ensures s' == s
      {
        FirstNonBlankUnique(ls, s');
      }
      if IsDelimiter(ls[s]) && FindDelimiter(ls, s + 1).None? {
        assert !IsBlank(ls[s]) && (forall j | 0 <= j < s :: IsBlank(ls[j])) && IsDelimiter(ls[s])
          && forall j | s < j < |ls| :: !IsDelimiter(ls[j]);
      }
      if IsDelimiter(ls[s]) && FindDelimiter(ls, s + 1).Some? {
        var e := FindDelimiter(ls, s + 1).value;
        assert IsDelimiter(ls[e]);
      }
  }

  /**
   * A header opened by the first non-blank line and closed by the next
   * delimiter splits into exactly the lines strictly between the two, and the
   * lines after the closing one.
   */
  lemma SplitOk(ls: seq<string>, s: nat, e: nat)
    requires s < e < |ls|
    requires forall j | 0 <= j < s :: IsBlank(ls[j])
    requires IsDelimiter(ls[s]) && IsDelimiter(ls[e])
    requires forall j | s < j < e :: !IsDelimiter(ls[j])
    ensures SplitLines(ls) == Ok(Parts(YamlBuffer(ls[s + 1..e]), Join(ls[e + 1..], "\n")))
  {
    BlankIffTrimEmpty(ls[s]);
    FirstNonBlankUnique(ls, s);
    assert FindDelimiter(ls, s + 1) == Some(e);
  }

  /** A line that trims to "---" always opens and closes the header, whatever its surrounding white space. */
  lemma DelimiterTolerance()
    ensures IsDelimiter("  ---\t") && IsDelimiter("---\r") && !IsDelimiter("----")
  {
    assert TrimStart("  ---\t") == "---\t";
    assert TrimStart("---\r") == "---\r";
    assert TrimEnd("---\t") == "---";
    assert TrimEnd("---\r") == "---";
  }

  // -------------------------------------------------- string-or-list fields

  /** The untagged `ToolsField` of both front-matter structs. */
  datatype ToolsField = List(items: seq<string>) | Single(s: string) | Empty

  /**
   * Decoding an optional YAML value into a `ToolsField`: missing or null is
   * `Empty`, a sequence of strings is `List`, a string is `Single`, anything
   * else fails.
   */
  function DecodeToolsField(v: Option<Yaml>): (r: Option<ToolsField>)
    ensures v.None? || v.value.YNull? ==> r == Some(Empty)
    ensures v.Some? && v.value.YStr? ==> r == Some(Single(v.value.s))
    ensures r.Some? && r.value.List? ==>
      v.Some? && v.value.YSeq? && |r.value.items| == |v.value.items|
      && forall k | 0 <= k < |r.value.items| :: v.value.items[k] == YStr(r.value.items[k])
    ensures v.Some? && v.value.YSeq? ==>
      (r.Some? <==> forall k | 0 <= k < |v.value.items| :: v.value.items[k].YStr?)
    ensures v.Some? && v.value.YSeq? && r.Some? ==> r.value.List?
    ensures v.Some? && (v.value.YBool? || v.value.YNum? || v.value.YMap?) ==> r.None?
  {
    match v
    case None => Some(Empty)
    case Some(YNull(_)) => Some(Empty)
    case Some(YStr(s)) => Some(Single(s))
    case Some(YSeq(items)) =>
      if forall k | 0 <= k < |items| :: items[k].YStr? then
        Some(List(seq(|items|, k requires 0 <= k < |items| => items[k].s)))
      else None
    case Some(_) => None
  }

  /**
   * What serde_yaml hands a `String` field: the text of any scalar, so
   * `123`, `true` and an empty value read as "123", "true" and ""; a
   * sequence or a mapping is refused.
   */
  function ScalarText(y: Yaml): Option<string> {
    match y
    case YNull(t) => Some(t)
    case YBool(_, t) => Some(t)
    case YNum(t) => Some(t)
    case YStr(s) => Some(s)
    case _ => None
  }

  /**
   * An `Option<String>` field: missing or a plain null is `None`, any other
   * scalar is `Some` of its text, a sequence or a mapping fails.
   */
  function DecodeOptString(v: Option<Yaml>): (r: Option<Option<string>>)
    ensures v.None? || v.value.YNull? ==> r == Some(None)
    ensures v.Some? && v.value.YStr? ==> r == Some(Some(v.value.s))
    ensures v.Some? && (v.value.YBool? || v.value.YNum?) ==> r == Some(Some(v.value.text))
    ensures v.Some? && (v.value.YSeq? || v.value.YMap?) ==> r.None?
    ensures r.Some? && r.value.Some? ==> v.Some? && !v.value.YNull? && ScalarText(v.value) == r.value
  {
    match v
    case None => Some(None)
    case Some(YNull(_)) => Some(None)
    case Some(y) =>
      match ScalarText(y)
      case Some(t) => Some(Some(t))
      case None => None
  }


  /**
   * `model_provider` with its aliases `provider` and `modelProvider`: at most
   * one of the three spellings may be present.
   */
  function DecodeProvider(m: map<string, Yaml>): (r: Option<Option<string>>)
    ensures
      || ("model_provider" in m && "provider" in m)
      || ("model_provider" in m && "modelProvider" in m)
      || ("provider" in m && "modelProvider" in m)
      ==> r.None?
    ensures "model_provider" !in m && "provider" !in m && "modelProvider" !in m ==> r == Some(None)
    ensures r.Some? && r.value.Some? ==>
      exists key | key in ["model_provider", "provider", "modelProvider"] ::
        key in m && !m[key].YNull? && ScalarText(m[key]) == r.value
  {
    var present := (if "model_provider" in m then ["model_provider"] else [])
      + (if "provider" in m then ["provider"] else [])
      + (if "modelProvider" in m then ["modelProvider"] else []);
    if |present| > 1 then None
    else if |present| == 0 then Some(None)
    else
      assert present[0] in ["model_provider", "provider", "modelProvider"];
      DecodeOptString(Field(m, present[0]))
  }

  /** `ToolsField::into_vec`: a list as it is, a string split on ',' and white space; empty becomes `None`. */
  function IntoVec(f: ToolsField): Option<seq<string>> {
    match f
    case List(v) => if v == [] then None else Some(v)
    case Single(s) => var v := Tokens(s, CommaOrWhitespace); if v == [] then None else Some(v)
    case Empty => None
  }

  /** `ToolsField::into_vec_commas_only`: as `IntoVec`, but a string is split on ',' only. */
  function IntoVecCommasOnly(f: ToolsField): Option<seq<string>> {
    match f
    case List(v) => if v == [] then None else Some(v)
    case Single(s) => var v := Tokens(s, CommaOnly); if v == [] then None else Some(v)
    case Empty => None
  }

  /** Round trip: tokens written as one comma-separated string are read back unchanged. */
  lemma IntoVecOfJoined(ts: seq<string>)
    requires |ts| > 0
    requires forall k | 0 <= k < |ts| :: ts[k] != "" && NoSep(CommaOrWhitespace, ts[k])
    ensures IntoVec(Single(Join(ts, ","))) == Some(ts)
  {
    forall k | 0 <= k < |ts| ensures Trim(ts[k]) == ts[k] {
      TrimOfNoEdgeSpace(ts[k]);
    }
    TokensOfJoin(ts, CommaOrWhitespace);
  }

  /** Round trip for comma-only splitting: items may hold inner spaces, they survive. */
  lemma IntoVecCommasOnlyOfJoined(ts: seq<string>)
    requires |ts| > 0
    requires forall k | 0 <= k < |ts| :: ts[k] != "" && Trim(ts[k]) == ts[k] && NoSep(CommaOnly, ts[k])
    ensures IntoVecCommasOnly(Single(Join(ts, ","))) == Some(ts)
  {
    TokensOfJoin(ts, CommaOnly);
  }

  /** The run settings of a front-matter agent: present when a model or a provider is given, carrying only those two. */
  function RunOf(model: Option<string>, provider: Option<string>): Option<AgentRun> {
    if model.Some? || provider.Some? then Some(EmptyRun.(model := model, modelProvider := provider)) else None
  }

}
