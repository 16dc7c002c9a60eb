/**
 * The parts of Rust's `str` and `char` API switchboard-mcp relies on, on `seq<char>`:
 * ASCII classification and lower-casing, Unicode white space, trimming,
 * `split` on a character class, `lines`, `join`, `split_once`, prefixes and suffixes.
 */
module Strings {
  import opened Wrappers

  // ---------------------------------------------------------------- ASCII

  predicate IsAsciiDigit(c: char) { '0' <= c <= '9' }
  predicate IsAsciiUpper(c: char) { 'A' <= c <= 'Z' }
  predicate IsAsciiLower(c: char) { 'a' <= c <= 'z' }

  /** `char::is_ascii_alphanumeric` */
  predicate IsAsciiAlnum(c: char) { IsAsciiDigit(c) || IsAsciiUpper(c) || IsAsciiLower(c) }

  /** `char::to_ascii_lowercase`: only 'A'..'Z' change. */
  function AsciiLowerChar(c: char): (r: char)
    ensures IsAsciiUpper(c) ==> IsAsciiLower(r) && r as int == c as int + 32
    ensures !IsAsciiUpper(c) ==> r == c
    ensures !IsAsciiUpper(r)
  {
    if IsAsciiUpper(c) then (c as int + 32) as char else c
  }

  /** `str::to_ascii_lowercase` */
  function AsciiLower(s: string): (r: string)
    ensures |r| == |s|
    ensures forall i | 0 <= i < |s| :: r[i] == AsciiLowerChar(s[i])
  {
    seq(|s|, i requires 0 <= i < |s| => AsciiLowerChar(s[i]))
  }

  predicate NoAsciiUpper(s: string) { forall i | 0 <= i < |s| :: !IsAsciiUpper(s[i]) }

  lemma AsciiLowerIsLower(s: string)
    ensures NoAsciiUpper(AsciiLower(s))
  {
  }

  lemma AsciiLowerIdempotent(s: string)
    ensures AsciiLower(AsciiLower(s)) == AsciiLower(s)
  {
  }

  lemma AsciiLowerOfLower(s: string)
    requires NoAsciiUpper(s)
    ensures AsciiLower(s) == s
  {
  }

  lemma AsciiLowerConcat(a: string, b: string)
    ensures AsciiLower(a + b) == AsciiLower(a) + AsciiLower(b)
  {
  }

  /** `str::eq_ignore_ascii_case` */
  predicate EqIgnoreAsciiCase(a: string, b: string) { AsciiLower(a) == AsciiLower(b) }

  /** `list.iter().any(|a| a.eq_ignore_ascii_case(needle))` */
  predicate HasIgnoringCase(list: seq<string>, needle: string) {
    exists k | 0 <= k < |list| :: EqIgnoreAsciiCase(list[k], needle)
  }

  // ---------------------------------------------------------- white space

  /** `char::is_whitespace`: the Unicode White_Space property. */
  predicate IsWhitespace(c: char) {
    var n := c as int;
    (9 <= n <= 13) || n == 32 || n == 0x85 || n == 0xA0 || n == 0x1680
    || (0x2000 <= n <= 0x200A) || n == 0x2028 || n == 0x2029 || n == 0x202F
    || n == 0x205F || n == 0x3000
  }

  predicate AllWhitespace(s: string) { forall i | 0 <= i < |s| :: IsWhitespace(s[i]) }

  function TrimStart(s: string): (r: string)
    decreases |s|
  {
    if |s| > 0 && IsWhitespace(s[0]) then TrimStart(s[1..]) else s
  }

  function TrimEnd(s: string): (r: string)
    decreases |s|
  {
    if |s| > 0 && IsWhitespace(s[|s| - 1]) then TrimEnd(s[..|s| - 1]) else s
  }

  /** `str::trim`: leading and trailing white space removed. */
  function Trim(s: string): (r: string) {
    TrimEnd(TrimStart(s))
  }

  /**
   * `t.trim().is_empty()`, stated as: every character is white space
   * (`BlankIffTrimEmpty` shows the two agree).
   */
  predicate IsBlank(s: string) { AllWhitespace(s) }

  /** `TrimStart` drops a white-space prefix and stops at the first other character. */
  lemma {:induction false} TrimStartFacts(s: string)
    ensures |TrimStart(s)| <= |s| && TrimStart(s) == s[|s| - |TrimStart(s)|..]
    ensures AllWhitespace(s[..|s| - |TrimStart(s)|])
    ensures TrimStart(s) != [] ==> !IsWhitespace(TrimStart(s)[0])
    decreases |s|
  {
    if |s| > 0 && IsWhitespace(s[0]) {
      TrimStartFacts(s[1..]);
      var r := TrimStart(s[1..]);
      assert s[1..][|s| - 1 - |r|..] == s[|s| - |r|..];
      forall i | 0 <= i < |s| - |r| ensures IsWhitespace(s[i]) {
        if i > 0 { assert s[i] == s[1..][..|s| - 1 - |r|][i - 1]; }
      }
    }
  }

  /** `TrimEnd` drops a white-space suffix and stops at the last other character. */
  lemma {:induction false} TrimEndFacts(s: string)
    ensures |TrimEnd(s)| <= |s| && TrimEnd(s) == s[..|TrimEnd(s)|]
    ensures AllWhitespace(s[|TrimEnd(s)|..])
    ensures TrimEnd(s) != [] ==> !IsWhitespace(TrimEnd(s)[|TrimEnd(s)| - 1])
    decreases |s|
  {
    if |s| > 0 && IsWhitespace(s[|s| - 1]) {
      TrimEndFacts(s[..|s| - 1]);
      var r := TrimEnd(s[..|s| - 1]);
      assert s[..|s| - 1][..|r|] == s[..|r|];
      forall i | |r| <= i < |s| ensures IsWhitespace(s[i]) {
        if i < |s| - 1 { assert s[i] == s[..|s| - 1][|r|..][i - |r|]; }
      }
    }
  }

  /** The trimmed string has no white space at either end. */
  lemma TrimFacts(s: string)
    ensures Trim(s) != [] ==> !IsWhitespace(Trim(s)[0]) && !IsWhitespace(Trim(s)[|Trim(s)| - 1])
  {
    TrimStartFacts(s);
    TrimEndFacts(TrimStart(s));
  }

  lemma {:induction false} TrimStartEmpty(s: string)
    ensures TrimStart(s) == [] <==> AllWhitespace(s)
    decreases |s|
  {
    if |s| > 0 && IsWhitespace(s[0]) {
      TrimStartEmpty(s[1..]);
      assert AllWhitespace(s[1..]) ==> AllWhitespace(s) by {
        if AllWhitespace(s[1..]) {
          forall i | 0 <= i < |s| ensures IsWhitespace(s[i]) {
            if i > 0 { assert s[i] == s[1..][i - 1]; }
          }
        }
      }
    }
  }

  lemma {:induction false} TrimEndEmpty(s: string)
    ensures TrimEnd(s) == [] <==> AllWhitespace(s)
    decreases |s|
  {
    if |s| > 0 && IsWhitespace(s[|s| - 1]) {
      TrimEndEmpty(s[..|s| - 1]);
      assert AllWhitespace(s[..|s| - 1]) ==> AllWhitespace(s) by {
        if AllWhitespace(s[..|s| - 1]) {
          forall i | 0 <= i < |s| ensures IsWhitespace(s[i]) {
            if i < |s| - 1 { assert s[i] == s[..|s| - 1][i]; }
          }
        }
      }
    }
  }

  /** A string is blank exactly when trimming it leaves nothing. */
  lemma BlankIffTrimEmpty(s: string)
    ensures IsBlank(s) <==> Trim(s) == []
  {
    TrimStartEmpty(s);
    TrimEndEmpty(TrimStart(s));
    TrimStartFacts(s);
  }

  /** A string that has no white space at its ends is its own trim. */
  lemma TrimOfNoEdgeSpace(s: string)
    requires s != [] ==> !IsWhitespace(s[0]) && !IsWhitespace(s[|s| - 1])
    ensures Trim(s) == s
  {
  }

  /** One leading space in front of a string without edge white space is trimmed away. */
  lemma TrimOfLeadingSpace(s: string)
    requires s != [] && !IsWhitespace(s[0]) && !IsWhitespace(s[|s| - 1])
    ensures Trim([' '] + s) == s && !IsBlank([' '] + s)
  {
    assert ([' '] + s)[1..] == s;
    TrimOfNoEdgeSpace(s);
    assert !IsWhitespace(([' '] + s)[1]);
  }

  lemma TrimIdempotent(s: string)
    ensures Trim(Trim(s)) == Trim(s)
  {
    TrimFacts(s);
    TrimOfNoEdgeSpace(Trim(s));
  }

  // -------------------------------------------------- prefixes and suffixes

  predicate StartsWith(s: string, p: string) { |p| <= |s| && s[..|p|] == p }
  predicate EndsWith(s: string, p: string) { |p| <= |s| && s[|s| - |p|..] == p }

  /** `str::strip_suffix` */
  function StripSuffix(s: string, p: string): (r: Option<string>)
    ensures r.Some? <==> EndsWith(s, p)
    ensures r.Some? ==> r.value + p == s
  {
    if EndsWith(s, p) then Some(s[..|s| - |p|]) else None
  }

  // ------------------------------------------------------------ splitting

  /** The separator classes switchboard-mcp splits on (the last one for path components). */
  datatype Sep = CommaOrWhitespace | CommaOnly | Slash

  predicate IsSep(sep: Sep, c: char) {
    match sep
    case CommaOrWhitespace => c == ',' || IsWhitespace(c)
    case CommaOnly => c == ','
    case Slash => c == '/'
  }

  predicate NoSep(sep: Sep, p: string) { forall i | 0 <= i < |p| :: !IsSep(sep, p[i]) }

  function CountSeps(s: string, sep: Sep): nat {
    if |s| == 0 then 0 else (if IsSep(sep, s[0]) then 1 else 0) + CountSeps(s[1..], sep)
  }

  /**
   * `str::split` with a character predicate: the pieces between separators,
   * one more piece than there are separators, empty pieces kept.
   */
  function Split(s: string, sep: Sep): (r: seq<string>)
    ensures |r| >= 1
    decreases |s|
  {
    if |s| == 0 then [""]
    else
      var rest := Split(s[1..], sep);
      if IsSep(sep, s[0]) then [""] + rest
      else [[s[0]] + rest[0]] + rest[1..]
  }

  /** One piece per separator plus one, none containing a separator. */
  lemma {:induction false} SplitProps(s: string, sep: Sep)
    ensures |Split(s, sep)| == CountSeps(s, sep) + 1
    ensures forall k | 0 <= k < |Split(s, sep)| :: NoSep(sep, Split(s, sep)[k])
    decreases |s|
  {
    if |s| > 0 {
      SplitProps(s[1..], sep);
      var rest := Split(s[1..], sep);
      if !IsSep(sep, s[0]) {
        var p := [s[0]] + rest[0];
        assert NoSep(sep, p) by {
          forall i | 0 <= i < |p| ensures !IsSep(sep, p[i]) {
            if i > 0 { assert p[i] == rest[0][i - 1]; }
          }
        }
        assert Split(s, sep) == [p] + rest[1..];
      }
    }
  }

  /** `.filter(|t| !t.trim().is_empty()).map(|t| t.trim())`, equally `.map(trim).filter(!is_empty)`. */
  function NonBlankTrimmed(pieces: seq<string>): seq<string>
  {
    if |pieces| == 0 then []
    else (if IsBlank(pieces[0]) then [] else [Trim(pieces[0])]) + NonBlankTrimmed(pieces[1..])
  }

  /** Every kept piece is non-empty, is its own trim, and has no separator if no piece had one. */
  lemma {:induction false} NonBlankTrimmedProps(pieces: seq<string>, sep: Sep)
    requires forall k | 0 <= k < |pieces| :: NoSep(sep, pieces[k])
    ensures forall k | 0 <= k < |NonBlankTrimmed(pieces)| ::
      NonBlankTrimmed(pieces)[k] != [] && Trim(NonBlankTrimmed(pieces)[k]) == NonBlankTrimmed(pieces)[k]
      && NoSep(sep, NonBlankTrimmed(pieces)[k])
  {
    if |pieces| > 0 {
      NonBlankTrimmedProps(pieces[1..], sep);
      var t := Trim(pieces[0]);
      TrimIdempotent(pieces[0]);
      BlankIffTrimEmpty(pieces[0]);
      var u := TrimStart(pieces[0]);
      TrimStartFacts(pieces[0]);
      TrimEndFacts(u);
      assert NoSep(sep, u) by {
        forall i | 0 <= i < |u| ensures !IsSep(sep, u[i]) {
          assert u[i] == pieces[0][|pieces[0]| - |u| + i];
        }
      }
      assert NoSep(sep, t) by {
        forall i | 0 <= i < |t| ensures !IsSep(sep, t[i]) { assert t[i] == u[i]; }
      }
      var head := if IsBlank(pieces[0]) then [] else [t];
      assert NonBlankTrimmed(pieces) == head + NonBlankTrimmed(pieces[1..]);
    }
  }

  /** The tokens switchboard-mcp extracts from a string field: split, trimmed, empties dropped. */
  function Tokens(s: string, sep: Sep): (r: seq<string>)
    ensures forall k | 0 <= k < |r| :: r[k] != [] && Trim(r[k]) == r[k] && NoSep(sep, r[k])
  {
    SplitProps(s, sep);
    NonBlankTrimmedProps(Split(s, sep), sep);
    NonBlankTrimmed(Split(s, sep))
  }

  /** `[..].join(sep)` */
  function Join(parts: seq<string>, sep: string): string {
    if |parts| == 0 then ""
    else if |parts| == 1 then parts[0]
    else parts[0] + sep + Join(parts[1..], sep)
  }

  /** A piece without separators splits into itself. */
  lemma {:induction false} SplitNoSep(t: string, sep: Sep)
    requires NoSep(sep, t)
    ensures Split(t, sep) == [t]
    decreases |t|
  {
    if |t| > 0 {
      SplitNoSep(t[1..], sep);
      assert [t[0]] + t[1..] == t;
    }
  }

  /** How `Split` treats the first character. */
  lemma SplitCons(x: char, t: string, sep: Sep)
    ensures Split([x] + t, sep) ==
      if IsSep(sep, x) then [""] + Split(t, sep)
      else [[x] + Split(t, sep)[0]] + Split(t, sep)[1..]
  {
    assert ([x] + t)[1..] == t;
  }

  /** The piece arithmetic behind `SplitConsPiece`, on plain sequences. */
  lemma GrowFirstPiece(x: char, ra: seq<string>, rb: seq<string>, rs: seq<string>)
    requires |ra| >= 1 && rs == ra + rb
    ensures [[x] + rs[0]] + rs[1..] == ([[x] + ra[0]] + ra[1..]) + rb
  {
    assert rs[0] == ra[0];
    assert rs[1..] == ra[1..] + rb;
  }

  /** One step of `SplitAtSep`: a leading non-separator joins the first piece. */
  lemma SplitConsPiece(x: char, t: string, s: string, b: string, sep: Sep)
    requires !IsSep(sep, x)
    requires Split(s, sep) == Split(t, sep) + Split(b, sep)
    ensures Split([x] + s, sep) == Split([x] + t, sep) + Split(b, sep)
  {
    SplitCons(x, s, sep);
    SplitCons(x, t, sep);
    GrowFirstPiece(x, Split(t, sep), Split(b, sep), Split(s, sep));
  }

  /** The piece arithmetic behind `SplitConsSep`, on plain sequences. */
  lemma NewEmptyPiece(ra: seq<string>, rb: seq<string>, rs: seq<string>)
    requires rs == ra + rb
    ensures [""] + rs == ([""] + ra) + rb
  {
  }

  /** One step of `SplitAtSep`: a leading separator starts an empty piece. */
  lemma SplitConsSep(x: char, t: string, s: string, b: string, sep: Sep)
    requires IsSep(sep, x)
    requires Split(s, sep) == Split(t, sep) + Split(b, sep)
    ensures Split([x] + s, sep) == Split([x] + t, sep) + Split(b, sep)
  {
    SplitCons(x, s, sep);
    SplitCons(x, t, sep);
    NewEmptyPiece(Split(t, sep), Split(b, sep), Split(s, sep));
  }

  /** Splitting at a separator character splits the two sides independently. */
  lemma {:induction false} SplitAtSep(a: string, c: char, b: string, sep: Sep)
    requires IsSep(sep, c)
    ensures Split(a + [c] + b, sep) == Split(a, sep) + Split(b, sep)
    decreases |a|
  {
    if |a| == 0 {
      assert a + [c] + b == [c] + b;
      SplitCons(c, b, sep);
    } else {
      var x, t := a[0], a[1..];
      var s := t + [c] + b;
      SplitAtSep(t, c, b, sep);
      assert a == [x] + t;
      assert a + [c] + b == [x] + s;
      if IsSep(sep, x) {
        SplitConsSep(x, t, s, b, sep);
      } else {
        SplitConsPiece(x, t, s, b, sep);
      }
    }
  }

  /** Joining separator-free pieces with a separator and splitting again gives the pieces back. */
  lemma {:induction false} SplitJoin(parts: seq<string>, c: char, sep: Sep)
    requires |parts| > 0 && IsSep(sep, c)
    requires forall k | 0 <= k < |parts| :: NoSep(sep, parts[k])
    ensures Split(Join(parts, [c]), sep) == parts
    decreases |parts|
  {
    if |parts| == 1 {
      SplitNoSep(parts[0], sep);
    } else {
      SplitJoin(parts[1..], c, sep);
      SplitNoSep(parts[0], sep);
      assert Join(parts, [c]) == parts[0] + [c] + Join(parts[1..], [c]);
      SplitAtSep(parts[0], c, Join(parts[1..], [c]), sep);
      assert parts == [parts[0]] + parts[1..];
    }
  }

  /** Pieces that are already non-blank and trimmed pass the filter unchanged. */
  lemma {:induction false} NonBlankTrimmedOfTrimmed(pieces: seq<string>)
    requires forall k | 0 <= k < |pieces| :: pieces[k] != [] && Trim(pieces[k]) == pieces[k]
    ensures NonBlankTrimmed(pieces) == pieces
  {
    if |pieces| > 0 {
      NonBlankTrimmedOfTrimmed(pieces[1..]);
      BlankIffTrimEmpty(pieces[0]);
      assert pieces == [pieces[0]] + pieces[1..];
    }
  }

  /** The tokens of separator-free pieces joined by a separator are those pieces, trimmed, blanks dropped. */
  lemma TokensOfJoinedPieces(ps: seq<string>, c: char, sep: Sep)
    requires |ps| > 0 && IsSep(sep, c)
    requires forall k | 0 <= k < |ps| :: NoSep(sep, ps[k])
    ensures Tokens(Join(ps, [c]), sep) == NonBlankTrimmed(ps)
  {
    SplitJoin(ps, c, sep);
  }

  /** One step of `NonBlankTrimmed`. */
  lemma NonBlankTrimmedCons(p: string, rest: seq<string>)
    ensures NonBlankTrimmed([p] + rest) == (if IsBlank(p) then [] else [Trim(p)]) + NonBlankTrimmed(rest)
  {
    assert ([p] + rest)[1..] == rest;
  }

  /**
   * Round trip: tokens written out with "," between them are read back as
   * exactly those tokens, for either separator class.
   */
  lemma TokensOfJoin(ts: seq<string>, sep: Sep)
    requires sep != Slash
    requires forall k | 0 <= k < |ts| :: ts[k] != [] && Trim(ts[k]) == ts[k] && NoSep(sep, ts[k])
    ensures Tokens(Join(ts, ","), sep) == ts
  {
    if |ts| == 0 {
      assert Split("", sep) == [""];
      assert IsBlank("");
    } else {
      SplitJoin(ts, ',', sep);
      NonBlankTrimmedOfTrimmed(ts);
      SplitProps(Join(ts, ","), sep);
    }
  }

  // ---------------------------------------------------------------- lines

  function LineEnd(s: string): (i: nat)
    ensures i <= |s|
    ensures forall j | 0 <= j < i :: s[j] != '\n'
    ensures i < |s| ==> s[i] == '\n'
  {
    if |s| == 0 || s[0] == '\n' then 0 else 1 + LineEnd(s[1..])
  }

  function StripCR(l: string): string {
    if |l| > 0 && l[|l| - 1] == '\r' then l[..|l| - 1] else l
  }

  /**
   * `str::lines`: lines end at "\n" or "\r\n" (the terminator is dropped), a
   * final line without terminator is kept as it is, and a trailing terminator
   * does not start an empty last line.
   */
  function Lines(s: string): seq<string>
    decreases |s|
  {
    if s == [] then []
    else
      var i := LineEnd(s);
      if i == |s| then [s]
      else [StripCR(s[..i])] + Lines(s[i + 1..])
  }

  // ------------------------------------------------------------ split_once

  predicate OccursAt(s: string, pat: string, j: nat) { j + |pat| <= |s| && s[j..j + |pat|] == pat }

  /** The first index at or after `from` at which `pat` occurs in `s`, if any. */
  function IndexOf(s: string, pat: string, from: nat): (r: Option<nat>)
    ensures r.Some? ==> from <= r.value && OccursAt(s, pat, r.value)
    ensures r.Some? ==> forall j: nat | from <= j < r.value :: !OccursAt(s, pat, j)
    ensures r.None? ==> forall j: nat | from <= j :: !OccursAt(s, pat, j)
    decreases |s| - from
  {
    if from + |pat| > |s| then None
    else if OccursAt(s, pat, from) then Some(from)
    else IndexOf(s, pat, from + 1)
  }

  /** `str::split_once`: the text before and after the first occurrence of `pat`. */
  function SplitOnce(s: string, pat: string): (r: Option<(string, string)>)
    ensures r.Some? ==> r.value.0 + pat + r.value.1 == s
    ensures r.Some? ==> forall j: nat | j < |r.value.0| :: !OccursAt(s, pat, j)
    ensures r.None? ==> forall j: nat :: !OccursAt(s, pat, j)
  {
    match IndexOf(s, pat, 0)
    case None => None
    case Some(i) =>
      assert s == s[..i] + pat + s[i + |pat|..];
      Some((s[..i], s[i + |pat|..]))
  }
}
