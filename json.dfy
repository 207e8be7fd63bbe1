/** The parsed documents the core reads: YAML and JSON configuration files
    and the vendor's result mappings. A mapping keeps its entries in
    insertion order, as a Python dict does; parsers keep one entry per key,
    and lookups take the first entry with the key. */
module Json {
  import opened Wrappers
  import opened Text

  /** A Python float, with the text `repr()` gives for it. */
  datatype Float = Float(value: real, repr: string)

  datatype Json =
    | JNull
    | JBool(b: bool)
    | JInt(i: int)
    | JFloat(f: Float)
    | JStr(s: string)
    | JList(items: seq<Json>)
    | JObject(entries: seq<(string, Json)>)

  type Entries = seq<(string, Json)>

  /** d.keys() */
  function Keys(m: Entries): (r: seq<string>)
    ensures |r| == |m|
    ensures forall i :: 0 <= i < |m| ==> r[i] == m[i].0
  {
    seq(|m|, i requires 0 <= i < |m| => m[i].0)
  }

  /** d.values() */
  function Values(m: Entries): (r: seq<Json>)
    ensures |r| == |m|
    ensures forall i :: 0 <= i < |m| ==> r[i] == m[i].1
  {
    seq(|m|, i requires 0 <= i < |m| => m[i].1)
  }

  /** `k in d` */
  predicate Has(m: Entries, k: string) {
    k in Keys(m)
  }

  /** d.get(k): the value of the first entry with key k. */
  function Find(m: Entries, k: string): (r: Option<Json>)
    ensures r.Some? <==> Has(m, k)
    ensures r.Some? ==> exists i :: 0 <= i < |m| && m[i] == (k, r.value)
  {
    if m == [] then None
    else if m[0].0 == k then Some(m[0].1)
    else
      var r := Find(m[1..], k);
      assert Keys(m) == [m[0].0] + Keys(m[1..]);
      assert r.Some? ==> exists i :: 0 <= i < |m| && m[i] == (k, r.value) by {
        if r.Some? {
          var i :| 0 <= i < |m| - 1 && m[1..][i] == (k, r.value);
          assert m[i + 1] == (k, r.value);
        }
      }
      r
  }

  /** A lookup in two runs of entries finds the first run's entry when it
      has the key, and looks in the second run otherwise. */
  lemma {:induction false} FindAppend(a: Entries, b: Entries, k: string)
    ensures Find(a + b, k) == if Has(a, k) then Find(a, k) else Find(b, k)
  {
    if a == [] {
      assert a + b == b;
    } else {
      assert (a + b)[1..] == a[1..] + b;
      assert Keys(a) == [a[0].0] + Keys(a[1..]);
      FindAppend(a[1..], b, k);
    }
  }

  /** d.get(k, default) */
  function GetOr(m: Entries, k: string, default: Json): Json {
    Find(m, k).GetOr(default)
  }

  /** d.get(k), with Python's None when k is absent. */
  function Get(m: Entries, k: string): Json {
    GetOr(m, k, JNull)
  }

  /** dict(m): the mapping as a map from key to value. */
  function ToMap(m: Entries): (d: map<string, Json>)
    ensures forall k :: k in d <==> Has(m, k)
    ensures forall k :: k in d ==> d[k] == Get(m, k)
  {
    map k | k in Keys(m) :: Get(m, k)
  }

  /** int(x) for a float: truncation toward zero. */
  function Trunc(x: real): (n: int)
    ensures x >= 0.0 ==> n == x.Floor
    ensures n as real <= x < n as real + 1.0 || n as real - 1.0 < x <= n as real
  {
    if x >= 0.0 then x.Floor else -((-x).Floor)
  }

  /** bool(v) */
  predicate Truthy(v: Json) {
    match v
    case JNull => false
    case JBool(b) => b
    case JInt(i) => i != 0
    case JFloat(f) => f.value != 0.0
    case JStr(s) => s != ""
    case JList(items) => items != []
    case JObject(entries) => entries != []
  }

  predicate IsContainer(v: Json) {
    v.JList? || v.JObject?
  }

  /** type(v).__name__ */
  function TypeName(v: Json): string {
    match v
    case JNull => "NoneType"
    case JBool(_) => "bool"
    case JInt(_) => "int"
    case JFloat(_) => "float"
    case JStr(_) => "str"
    case JList(_) => "list"
    case JObject(_) => "dict"
  }

  /** The numeric value Python uses when `v` is compared with a number
      (a bool counts as 0 or 1); None where the comparison raises
      TypeError. */
  function Number(v: Json): Option<real> {
    match v
    case JBool(b) => Some(if b then 1.0 else 0.0)
    case JInt(i) => Some(i as real)
    case JFloat(f) => Some(f.value)
    case _ => None
  }

  /** str(v) */
  function PyStr(v: Json): string
    decreases v, 0
  {
    match v
    case JNull => "None"
    case JBool(b) => if b then "True" else "False"
    case JInt(i) => IntToString(i)
    case JFloat(f) => f.repr
    case JStr(s) => s
    case JList(items) =>
      "[" + Join(", ", seq(|items|, i requires 0 <= i < |items| => PyRepr(items[i]))) + "]"
    case JObject(entries) =>
      "{" + Join(", ", seq(|entries|, i requires 0 <= i < |entries| =>
        "'" + entries[i].0 + "': " + PyRepr(entries[i].1))) + "}"
  }

  /** repr(v): strings are quoted, everything else prints as str(v). */
  function PyRepr(v: Json): string
    decreases v, 1
  {
    if v.JStr? then "'" + v.s + "'" else PyStr(v)
  }

  /** The elements a Python `for` loop visits: a list's items, a string's
      characters, a mapping's keys. None where iteration raises
      TypeError. */
  function Iterate(v: Json): (r: Option<seq<Json>>)
    ensures r.Some? <==> v.JList? || v.JStr? || v.JObject?
    ensures v.JList? ==> r == Some(v.items)
  {
    match v
    case JList(items) => Some(items)
    case JStr(s) => Some(seq(|s|, i requires 0 <= i < |s| => JStr([s[i]])))
    case JObject(entries) => Some(seq(|entries|, i requires 0 <= i < |entries| => JStr(entries[i].0)))
    case _ => None
  }

  /** `k in v`: membership of a key in a mapping, of an item in a list, of a
      substring in a string; Err names the exception Python raises. */
  function PyIn(k: string, v: Json): (r: Result<bool, string>)
    ensures v.JObject? ==> r == Ok(Has(v.entries, k))
    ensures r.Err? <==> !(v.JObject? || v.JList? || v.JStr?)
  {
    match v
    case JObject(entries) => Ok(Has(entries, k))
    case JList(items) => Ok(JStr(k) in items)
    case JStr(s) => Ok(Contains(s, k))
    case _ => Err("TypeError")
  }

  /** `v[k]` with a string key. */
  function Subscript(v: Json, k: string): (r: Result<Json, string>)
    ensures r.Ok? <==> v.JObject? && Has(v.entries, k)
    ensures r.Ok? ==> r.value == Get(v.entries, k)
  {
    match v
    case JObject(entries) =>
      (match Find(entries, k)
       case Some(x) => Ok(x)
       case None => Err("KeyError"))
    case _ => Err("TypeError")
  }

  /** `v.get(k, default)`: only a mapping has the method. */
  function DictGet(v: Json, k: string, default: Json): (r: Result<Json, string>)
    ensures r.Ok? <==> v.JObject?
    ensures v.JObject? && !Has(v.entries, k) ==> r == Ok(default)
  {
    match v
    case JObject(entries) => Ok(GetOr(entries, k, default))
    case _ => Err("AttributeError")
  }

  // ---------------------------------------------------------------------
  // json.dumps

  predicate IsPrintableAscii(c: char) {
    ' ' <= c <= '~'
  }

  function HexDigit(d: nat): (c: char)
    requires d < 16
    ensures IsPrintableAscii(c)
  {
    if d < 10 then ('0' as int + d) as char else ('a' as int + d - 10) as char
  }

  /** Four lower-case hexadecimal digits of n. */
  function Hex4(n: nat): (r: string)
    requires n < 0x10000
    ensures |r| == 4 && forall i :: 0 <= i < 4 ==> IsPrintableAscii(r[i])
  {
    [HexDigit(n / 4096), HexDigit(n / 256 % 16), HexDigit(n / 16 % 16), HexDigit(n % 16)]
  }

  /** How json.dumps (with its default ensure_ascii) writes one character of
      a string: quote, backslash and the five named control characters by
      their short escapes, every other character outside ' '..'~' as
      \uXXXX (a surrogate pair above U+FFFF), the rest as itself. */
  function EscapeChar(c: char): (r: string)
    ensures |r| >= 1 && forall i :: 0 <= i < |r| ==> IsPrintableAscii(r[i])
    ensures IsPrintableAscii(c) && c != '"' && c != '\\' ==> r == [c]
  {
    if c == '"' then "\\\""
    else if c == '\\' then "\\\\"
    else if c == '\n' then "\\n"
    else if c == '\r' then "\\r"
    else if c == '\t' then "\\t"
    else if c == 8 as char then "\\b"
    else if c == 12 as char then "\\f"
    else if IsPrintableAscii(c) then [c]
    else if c as int < 0x10000 then "\\u" + Hex4(c as int)
    else
      var v := c as int - 0x10000;
      "\\u" + Hex4(0xD800 + v / 1024) + "\\u" + Hex4(0xDC00 + v % 1024)
  }

  /** The escaped body of a JSON string: printable ASCII only. */
  function Escaped(s: string): (r: string)
    ensures forall i :: 0 <= i < |r| ==> IsPrintableAscii(r[i])
    ensures |r| >= |s|
  {
    if s == [] then "" else Escaped(s[..|s| - 1]) + EscapeChar(s[|s| - 1])
  }

  function Quote(s: string): string {
    "\"" + Escaped(s) + "\""
  }

  function Spaces(n: nat): (r: string)
    ensures |r| == n
  {
    if n == 0 then "" else " " + Spaces(n - 1)
  }

  /** json.dumps(v) when indent is None (separators ", " and ": "), and
      json.dumps(v, indent=n) otherwise (each item on its own line, `level`
      deep, separators "," and ": "). Empty containers stay "[]" and "{}". */
  function Dumps(v: Json, indent: Option<nat>, level: nat): string
    decreases v
  {
    match v
    case JNull => "null"
    case JBool(b) => if b then "true" else "false"
    case JInt(i) => IntToString(i)
    case JFloat(f) => f.repr
    case JStr(s) => Quote(s)
    case JList(items) =>
      if items == [] then "[]"
      else
        (match indent
         case None =>
           "[" + Join(", ", seq(|items|, i requires 0 <= i < |items| => Dumps(items[i], None, 0))) + "]"
         case Some(n) =>
           "[\n" + Join(",\n", seq(|items|, i requires 0 <= i < |items| =>
             Spaces(n * (level + 1)) + Dumps(items[i], indent, level + 1))) +
           "\n" + Spaces(n * level) + "]")
    case JObject(entries) =>
      if entries == [] then "{}"
      else
        (match indent
         case None =>
           "{" + Join(", ", seq(|entries|, i requires 0 <= i < |entries| =>
             Quote(entries[i].0) + ": " + Dumps(entries[i].1, None, 0))) + "}"
         case Some(n) =>
           "{\n" + Join(",\n", seq(|entries|, i requires 0 <= i < |entries| =>
             Spaces(n * (level + 1)) + Quote(entries[i].0) + ": " + Dumps(entries[i].1, indent, level + 1))) +
           "\n" + Spaces(n * level) + "}")
  }

  /** What opening and parsing a configuration file gives: the open or read
      fails (OSError), the bytes are not valid UTF-8 (UnicodeDecodeError, a
      ValueError), the parser rejects the text, or the parsed document. */
  datatype Document = Unreadable | Undecodable | Malformed | Parsed(doc: Json)
}
