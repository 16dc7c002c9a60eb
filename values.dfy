/**
 * Already-parsed document trees. JSON, YAML and TOML text is deserialized by
 * serde libraries, which are not part of this model; switchboard-mcp only
 * looks values up in these trees.
 */
module Values {
  import opened Wrappers

  /** A `serde_json::Value`. Numbers are kept as integers: switchboard-mcp never reads them. */
  datatype Json =
    | JNull
    | JBool(b: bool)
    | JNum(n: int)
    | JStr(s: string)
    | JArr(items: seq<Json>)
    | JObj(fields: map<string, Json>)
  {
    /** `Value::get(key)`: a field of an object; not an object, no field. */
    function Get(key: string): (r: Option<Json>)
      ensures r.Some? <==> JObj? && key in fields
      ensures r.Some? ==> r.value == fields[key]
    {
      if JObj? && key in fields then Some(fields[key]) else None
    }
  }

  /**
   * The value of a field of a decoded mapping (a YAML front-matter mapping
   * or a TOML table), if present; for a TOML table this is also what
   * `remove` hands back.
   */
  function Field<V>(m: map<string, V>, key: string): (r: Option<V>)
    ensures r.Some? <==> key in m
    ensures r.Some? ==> r.value == m[key]
  {
    if key in m then Some(m[key]) else None
  }

  /** `.and_then(|v| v.as_str())` */
  function JsonStr(v: Option<Json>): (r: Option<string>)
    ensures r.Some? <==> v.Some? && v.value.JStr?
  {
    if v.Some? && v.value.JStr? then Some(v.value.s) else None
  }

  /** `.and_then(|v| v.as_object())` */
  function JsonObj(v: Option<Json>): (r: Option<map<string, Json>>)
    ensures r.Some? <==> v.Some? && v.value.JObj?
  {
    if v.Some? && v.value.JObj? then Some(v.value.fields) else None
  }

  /** `.and_then(|v| v.as_array())` */
  function JsonArr(v: Option<Json>): (r: Option<seq<Json>>)
    ensures r.Some? <==> v.Some? && v.value.JArr?
  {
    if v.Some? && v.value.JArr? then Some(v.value.items) else None
  }

  /** `.filter_map(|x| x.as_str())`: the string items of an array, in order. */
  function JsonStrings(items: seq<Json>): seq<string> {
    if |items| == 0 then []
    else (if items[0].JStr? then [items[0].s] else []) + JsonStrings(items[1..])
  }

  /** Filtering splits over concatenation: the string items of `a + b` are those of `a`, then those of `b`. */
  lemma {:induction false} JsonStringsConcat(a: seq<Json>, b: seq<Json>)
    ensures JsonStrings(a + b) == JsonStrings(a) + JsonStrings(b)
    decreases |a|
  {
    if |a| > 0 {
      var head := if a[0].JStr? then [a[0].s] else [];
      assert (a + b)[0] == a[0] && (a + b)[1..] == a[1..] + b;
      assert JsonStrings(a + b) == head + JsonStrings(a[1..] + b);
      JsonStringsConcat(a[1..], b);
      assert head + (JsonStrings(a[1..]) + JsonStrings(b)) == (head + JsonStrings(a[1..])) + JsonStrings(b);
    } else {
      assert a + b == b;
    }
  }

  /** A single item is kept exactly when it is a string. */
  lemma JsonStringsOne(x: Json)
    ensures JsonStrings([x]) == if x.JStr? then [x.s] else []
  {
    assert [x][1..] == [];
  }

  /**
   * A YAML node as serde_yaml reads it (mapping keys are strings in front
   * matter). A plain scalar keeps the text it was written with, since a
   * `String` field receives that text whatever the scalar resolves to; a
   * quoted scalar is a string.
   */
  datatype Yaml =
    | YNull(text: string)           // a plain null: empty, "~", "null", "Null" or "NULL"
    | YBool(b: bool, text: string)
    | YNum(text: string)            // a plain integer or float
    | YStr(s: string)
    | YSeq(items: seq<Yaml>)
    | YMap(fields: map<string, Yaml>)

  /** A `toml::Value`. */
  datatype Toml =
    | TStr(s: string)
    | TInt(i: int)
    | TFloat(f: real)
    | TBool(b: bool)
    | TDatetime(text: string)
    | TArr(items: seq<Toml>)
    | TTable(fields: map<string, Toml>)

  /** `.filter_map(|it| it.as_str())` over a TOML array. */
  function TomlStrings(items: seq<Toml>): seq<string> {
    if |items| == 0 then []
    else (if items[0].TStr? then [items[0].s] else []) + TomlStrings(items[1..])
  }

  /** Filtering splits over concatenation: the string items of `a + b` are those of `a`, then those of `b`. */
  lemma {:induction false} TomlStringsConcat(a: seq<Toml>, b: seq<Toml>)
    ensures TomlStrings(a + b) == TomlStrings(a) + TomlStrings(b)
    decreases |a|
  {
    if |a| > 0 {
      var head := if a[0].TStr? then [a[0].s] else [];
      assert (a + b)[0] == a[0] && (a + b)[1..] == a[1..] + b;
      assert TomlStrings(a + b) == head + TomlStrings(a[1..] + b);
      TomlStringsConcat(a[1..], b);
      assert head + (TomlStrings(a[1..]) + TomlStrings(b)) == (head + TomlStrings(a[1..])) + TomlStrings(b);
    } else {
      assert a + b == b;
    }
  }

  /** No string is kept exactly when the array has no string item. */
  lemma {:induction false} TomlStringsEmpty(items: seq<Toml>)
    ensures TomlStrings(items) == [] <==> forall k | 0 <= k < |items| :: !items[k].TStr?
    decreases |items|
  {
    if |items| > 0 {
      TomlStringsEmpty(items[1..]);
      assert forall k | 1 <= k < |items| :: items[k] == items[1..][k - 1];
    }
  }

  /** A single item is kept exactly when it is a string. */
  lemma TomlStringsOne(x: Toml)
    ensures TomlStrings([x]) == if x.TStr? then [x.s] else []
  {
    assert [x][1..] == [];
  }
}
