/** Tool identifiers derived from display names, and the provider variants. */
module Naming {
  import opened Strings

  /** The character `safe_name` pushes for one input character. */
  function SafeChar(c: char): char {
    if IsAsciiAlnum(c) then AsciiLowerChar(c) else '_'
  }

  /** What `safe_name` holds in its buffer before trimming: one character per input character. */
  function Sanitize(s: string): (r: string)
    ensures |r| == |s|
    ensures forall i | 0 <= i < |s| :: r[i] == SafeChar(s[i])
  {
    seq(|s|, i requires 0 <= i < |s| => SafeChar(s[i]))
  }

  /** Every character is '_'. */
  predicate AllUnderscores(t: string) { forall k | 0 <= k < |t| :: t[k] == '_' }

  /** `str::trim_matches('_')` */
  function TrimUnderscores(s: string): (r: string)
    ensures r != [] ==> r[0] != '_' && r[|r| - 1] != '_'
    decreases |s|
  {
    if |s| > 0 && s[0] == '_' then TrimUnderscores(s[1..])
    else if |s| > 0 && s[|s| - 1] == '_' then TrimUnderscores(s[..|s| - 1])
    else s
  }

  /** Trimming removes only '_': the kept slice is `s[i..j]`, and what lies before and after it is all '_'. */
  lemma {:induction false} TrimUnderscoresStrips(s: string) returns (i: nat, j: nat)
    ensures i <= j <= |s| && TrimUnderscores(s) == s[i..j]
    ensures AllUnderscores(s[..i]) && AllUnderscores(s[j..])
    decreases |s|
  {
    if |s| > 0 && s[0] == '_' {
      var i', j' := TrimUnderscoresStrips(s[1..]);
      i, j := StripFront(s, i', j');
    } else if |s| > 0 && s[|s| - 1] == '_' {
      i, j := TrimUnderscoresStrips(s[..|s| - 1]);
      StripBack(s, i, j);
    } else {
      i, j := 0, |s|;
      assert s[0..|s|] == s;
    }
  }

  /** A leading '_' moves the kept slice one place right. */
  lemma StripFront(s: string, i': nat, j': nat) returns (i: nat, j: nat)
    requires |s| > 0 && s[0] == '_'
    requires i' <= j' <= |s[1..]| && TrimUnderscores(s[1..]) == s[1..][i'..j']
    requires AllUnderscores(s[1..][..i']) && AllUnderscores(s[1..][j'..])
    ensures i <= j <= |s| && TrimUnderscores(s) == s[i..j]
    ensures AllUnderscores(s[..i]) && AllUnderscores(s[j..])
  {
    var t := s[1..];
    i, j := i' + 1, j' + 1;
    assert TrimUnderscores(s) == TrimUnderscores(t);
    assert t[i'..j'] == s[i..j];
    forall k | 0 <= k < i ensures s[..i][k] == '_' {
      if k > 0 { assert s[..i][k] == t[..i'][k - 1]; }
    }
    assert s[j..] == t[j'..];
  }

  /** A trailing '_' (after a first character that is not '_') leaves the kept slice where it was. */
  lemma StripBack(s: string, i: nat, j: nat)
    requires |s| > 0 && s[0] != '_' && s[|s| - 1] == '_'
    requires i <= j <= |s[..|s| - 1]| && TrimUnderscores(s[..|s| - 1]) == s[..|s| - 1][i..j]
    requires AllUnderscores(s[..|s| - 1][..i]) && AllUnderscores(s[..|s| - 1][j..])
    ensures TrimUnderscores(s) == s[i..j]
    ensures AllUnderscores(s[..i]) && AllUnderscores(s[j..])
  {
    var t := s[..|s| - 1];
    assert t[i..j] == s[i..j];
    assert s[..i] == t[..i];
    UnderscoresSnoc(s, j);
  }

  lemma UnderscoresSnoc(s: string, j: nat)
    requires |s| > 0 && s[|s| - 1] == '_' && j <= |s| - 1
    requires AllUnderscores(s[..|s| - 1][j..])
    ensures AllUnderscores(s[j..])
  {
    var t := s[..|s| - 1];
    forall k | j <= k < |s| ensures s[k] == '_' {
      if k < |t| { assert s[k] == t[j..][k - j]; }
    }
  }

  /** `safe_name`: a lower-case, filesystem- and profile-safe identifier. */
  function SafeName(name: string): string {
    TrimUnderscores(Sanitize(name))
  }

  /** The characters a safe name may contain. */
  predicate SafeAlphabet(c: char) { IsAsciiLower(c) || IsAsciiDigit(c) || c == '_' }

  predicate IsSafe(s: string) { forall i | 0 <= i < |s| :: SafeAlphabet(s[i]) }

  /** The loop of `safe_name`: push one character per input character, then trim '_'. */
  method ComputeSafeName(name: string) returns (out: string)
    ensures out == SafeName(name)
  {
    var buf := "";
    var i := 0;
    while i < |name|
      invariant 0 <= i <= |name|
      invariant buf == Sanitize(name[..i])
    {
      var ch := name[i];
      if IsAsciiAlnum(ch) {
        buf := buf + [AsciiLowerChar(ch)];
      } else {
        buf := buf + ['_'];
      }
      i := i + 1;
    }
    assert name[..i] == name;
    out := TrimUnderscores(buf);
  }

  lemma SanitizeIsSafe(s: string)
    ensures IsSafe(Sanitize(s))
  {
  }

  lemma {:induction false} TrimUnderscoresKeepsSafe(s: string)
    requires IsSafe(s)
    ensures IsSafe(TrimUnderscores(s))
  {
    var r := TrimUnderscores(s);
    var i, j := TrimUnderscoresStrips(s);
    forall k | 0 <= k < |r| ensures SafeAlphabet(r[k]) { assert r[k] == s[i + k]; }
  }

  /** The output of `safe_name` contains only 'a'..'z', '0'..'9' and '_'. */
  lemma SafeNameAlphabet(name: string)
    ensures IsSafe(SafeName(name))
  {
    SanitizeIsSafe(name);
    TrimUnderscoresKeepsSafe(Sanitize(name));
  }

  /** The output of `safe_name` neither starts nor ends with '_'. */
  lemma SafeNameEdges(name: string)
    ensures var r := SafeName(name); r != [] ==> r[0] != '_' && r[|r| - 1] != '_'
  {
  }

  lemma SanitizeOfSafe(s: string)
    requires IsSafe(s)
    ensures Sanitize(s) == s
  {
  }

  lemma TrimUnderscoresOfTrimmed(s: string)
    requires s != [] ==> s[0] != '_' && s[|s| - 1] != '_'
    ensures TrimUnderscores(s) == s
  {
  }

  /** `safe_name(safe_name(s)) == safe_name(s)` */
  lemma SafeNameIdempotent(name: string)
    ensures SafeName(SafeName(name)) == SafeName(name)
  {
    var r := SafeName(name);
    SafeNameAlphabet(name);
    SanitizeOfSafe(r);
    TrimUnderscoresOfTrimmed(r);
  }

  lemma {:induction false} TrimUnderscoresAllUnderscores(s: string)
    requires forall i | 0 <= i < |s| :: s[i] == '_'
    ensures TrimUnderscores(s) == ""
    decreases |s|
  {
    if |s| > 0 { TrimUnderscoresAllUnderscores(s[1..]); }
  }

  /** A name without any ASCII letter or digit yields the empty identifier. */
  lemma SafeNameWithoutAlnum(name: string)
    requires forall i | 0 <= i < |name| :: !IsAsciiAlnum(name[i])
    ensures SafeName(name) == ""
  {
    TrimUnderscoresAllUnderscores(Sanitize(name));
  }

  /** Runs of separators are not collapsed: "a  b" becomes "a__b". */
  lemma SafeNameKeepsRuns()
    ensures SafeName("a  b") == "a__b"
  {
    assert Sanitize("a  b") == "a__b";
  }

  /** Supported agent provider variants. */
  datatype AgentVariant = Codex | Anthropic | Vscode

  /** Tool name prefixes per variant. */
  datatype EnvPrefixes = EnvPrefixes(codex: string, anthropic: string, vscode: string)

  /** `tool_prefix_for`: the configured prefix of the given variant. */
  function ToolPrefixFor(variant: AgentVariant, env: EnvPrefixes): string {
    match variant
    case Codex => env.codex
    case Anthropic => env.anthropic
    case Vscode => env.vscode
  }

  /** `tool_name_for`: `<prefix><safe_name(name)>`. */
  function ToolNameFor(prefix: string, name: string): string {
    prefix + SafeName(name)
  }

  /** A tool name is its prefix followed by a safe identifier that has no '_' at either end. */
  lemma ToolNameForShape(prefix: string, name: string)
    ensures var t := ToolNameFor(prefix, name);
      StartsWith(t, prefix) && t[|prefix|..] == SafeName(name) && IsSafe(t[|prefix|..])
      && (t[|prefix|..] != [] ==> t[|prefix|] != '_' && t[|t| - 1] != '_')
  {
    SafeNameAlphabet(name);
    var t := ToolNameFor(prefix, name);
    assert t[|prefix|..] == SafeName(name);
  }
}
