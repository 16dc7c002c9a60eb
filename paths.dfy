/**
 * The parts of Rust's `std::path::Path` switchboard-mcp uses, on paths written as
 * strings with '/' as separator: `file_name`, `file_stem`, `extension`, `is_absolute`.
 */
module Paths {
  import opened Wrappers
  import opened Strings

  /** The normal components of a path: its '/'-separated pieces without "" and ".". */
  function Components(p: string): (r: seq<string>)
    ensures forall k | 0 <= k < |r| :: r[k] != "" && r[k] != "." && NoSep(Slash, r[k])
  {
    SplitProps(p, Slash);
    Drop(Split(p, Slash))
  }

  function Drop(pieces: seq<string>): (r: seq<string>)
    requires forall k | 0 <= k < |pieces| :: NoSep(Slash, pieces[k])
    ensures forall k | 0 <= k < |r| :: r[k] != "" && r[k] != "." && NoSep(Slash, r[k])
  {
    if |pieces| == 0 then []
    else (if pieces[0] == "" || pieces[0] == "." then [] else [pieces[0]]) + Drop(pieces[1..])
  }

  /** `Path::file_name`: the last component, unless there is none or it is "..". */
  function FileName(p: string): (r: Option<string>)
    ensures r.Some? ==> r.value != "" && r.value != "." && r.value != ".." && NoSep(Slash, r.value)
  {
    var cs := Components(p);
    if |cs| == 0 || cs[|cs| - 1] == ".." then None else Some(cs[|cs| - 1])
  }

  /** The index of the last '.' in `s`, if any. */
  function LastDot(s: string): (r: Option<nat>)
    ensures r.Some? ==> r.value < |s| && s[r.value] == '.'
    ensures r.Some? ==> forall j | r.value < j < |s| :: s[j] != '.'
    ensures r.None? ==> forall j | 0 <= j < |s| :: s[j] != '.'
  {
    if |s| == 0 then None
    else if s[|s| - 1] == '.' then Some(|s| - 1)
    else LastDot(s[..|s| - 1])
  }

  /** Where a file name splits into stem and extension: a last '.' that is not its first character. */
  function ExtensionDot(name: string): (r: Option<nat>)
    ensures r.Some? ==> 0 < r.value < |name| && name[r.value] == '.'
  {
    match LastDot(name)
    case Some(i) => if i > 0 then Some(i) else None
    case None => None
  }

  /** `Path::extension` */
  function Extension(p: string): Option<string> {
    match FileName(p)
    case None => None
    case Some(name) =>
      match ExtensionDot(name)
      case Some(i) => Some(name[i + 1..])
      case None => None
  }

  /** `Path::file_stem` */
  function FileStem(p: string): Option<string> {
    match FileName(p)
    case None => None
    case Some(name) =>
      match ExtensionDot(name)
      case Some(i) => Some(name[..i])
      case None => Some(name)
  }

  /** `Path::is_absolute`, on Unix: the path starts at the root. */
  predicate IsAbsolute(p: string) { |p| > 0 && p[0] == '/' }

  lemma {:induction false} DropConcat(a: seq<string>, b: seq<string>)
    requires forall k | 0 <= k < |a| :: NoSep(Slash, a[k])
    requires forall k | 0 <= k < |b| :: NoSep(Slash, b[k])
    ensures Drop(a + b) == Drop(a) + Drop(b)
  {
    if |a| > 0 {
      DropConcat(a[1..], b);
      assert (a + b)[0] == a[0];
      assert (a + b)[1..] == a[1..] + b;
      var h := if a[0] == "" || a[0] == "." then [] else [a[0]];
      assert Drop(a) == h + Drop(a[1..]);
      assert Drop(a + b) == h + Drop(a[1..] + b);
    } else {
      assert a + b == b;
    }
  }

  /** The file name of `dir/name` is `name`, for a name that is a normal component. */
  lemma FileNameOfChild(dir: string, name: string)
    requires name != "" && name != "." && name != ".." && NoSep(Slash, name)
    ensures FileName(dir + "/" + name) == Some(name)
  {
    SplitAtSep(dir, '/', name, Slash);
    SplitNoSep(name, Slash);
    assert dir + "/" + name == dir + ['/'] + name;
    SplitProps(dir, Slash);
    DropConcat(Split(dir, Slash), [name]);
  }

  /** No '.' anywhere. */
  predicate NoDot(s: string) { forall i | 0 <= i < |s| :: s[i] != '.' }

  /** The last '.' of `x + "." + ext` is the one before `ext` when `ext` has none. */
  lemma {:induction false} LastDotOfExtension(x: string, ext: string)
    requires NoDot(ext)
    ensures LastDot(x + "." + ext) == Some(|x|)
  {
    var s := x + "." + ext;
    if ext == [] {
      assert s[|s| - 1] == '.';
    } else {
      var e' := ext[..|ext| - 1];
      assert s[..|s| - 1] == x + "." + e';
      assert s[|s| - 1] == ext[|ext| - 1];
      LastDotOfExtension(x, e');
    }
  }

  /** `dir/stem.ext` has extension `ext` and stem `stem`. */
  lemma ExtensionOfChild(dir: string, stem: string, ext: string)
    requires stem != "" && stem != "." && NoSep(Slash, stem) && NoSep(Slash, ext) && NoDot(ext)
    ensures Extension(dir + "/" + stem + "." + ext) == Some(ext)
    ensures FileStem(dir + "/" + stem + "." + ext) == Some(stem)
  {
    var name := stem + "." + ext;
    forall i | 0 <= i < |name| ensures !IsSep(Slash, name[i]) {
      if i < |stem| { assert name[i] == stem[i]; }
      else if i > |stem| { assert name[i] == ext[i - |stem| - 1]; }
    }
    assert name != ".." by {
      if |name| == 2 { assert stem == name[..1]; }
    }
    FileNameOfChild(dir, name);
    assert dir + "/" + stem + "." + ext == dir + "/" + name;
    LastDotOfExtension(stem, ext);
    assert name[|stem| + 1..] == ext;
    assert name[..|stem|] == stem;
  }
}
