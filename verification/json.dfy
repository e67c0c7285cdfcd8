/**
 * Decoded JSON values with the Python dictionary semantics the executor relies
 * on: `d.get(key, default)`, `d[key]`, truthiness, `int(x)`, `len(x)` and the
 * text `"{}".format(x)` produces.
 */
module PyJson {
  import opened Wrappers
  import opened Exceptions
  import opened Text

  /**
   * A value produced by `json.loads`; an object keeps its members in document
   * order. A number with a fraction or an exponent is a float: `r` is its value
   * and `text` the digits Python's `repr` writes for it.
   */
  datatype Json =
    | JNull
    | JBool(b: bool)
    | JInt(i: int)
    | JFloat(r: real, text: string)
    | JStr(s: string)
    | JList(items: seq<Json>)
    | JObject(fields: seq<(string, Json)>)

  /** The value of `key` in a decoded object: like `json.loads`, a later duplicate wins. */
  function Lookup(fields: seq<(string, Json)>, key: string): (r: Option<Json>)
    ensures r.Some? <==> exists i :: 0 <= i < |fields| && fields[i].0 == key
    ensures r.Some? ==> exists i :: 0 <= i < |fields| && fields[i] == (key, r.value)
  {
    if fields == [] then None
    else if fields[|fields| - 1].0 == key then Some(fields[|fields| - 1].1)
    else Lookup(fields[..|fields| - 1], key)
  }

  /** Lookup in a one-member object. */
  lemma LookupSingle(k: string, v: Json, key: string)
    ensures Lookup([(k, v)], key) == if k == key then Some(v) else None
  {
    assert [(k, v)][..0] == [];
  }

  /** Lookup in a two-member object: the later member is looked at first. */
  lemma LookupPair(k1: string, v1: Json, k2: string, v2: Json, key: string)
    ensures Lookup([(k1, v1), (k2, v2)], key) == if k2 == key then Some(v2) else if k1 == key then Some(v1) else None
  {
    assert [(k1, v1), (k2, v2)][..1] == [(k1, v1)];
    LookupSingle(k1, v1, key);
  }

  /** The position of the member `Lookup` finds: the last one with that key. */
  function LookupIndex(fields: seq<(string, Json)>, key: string): (i: nat)
    requires key in Keys(fields)
    ensures i < |fields| && fields[i].0 == key && Lookup(fields, key) == Some(fields[i].1)
  {
    var last := |fields| - 1;
    if fields[last].0 == key then last
    else
      assert key in Keys(fields[..last]) by {
        var j :| 0 <= j < |fields| && fields[j].0 == key;
        assert fields[..last][j].0 == key;
      }
      LookupIndex(fields[..last], key)
  }

  /** `j.get(key, default)`: only a dictionary has `get`. */
  function Get(j: Json, key: string, default: Json): (r: Result<Json, Error>)
    ensures r.Err? <==> !j.JObject?
    ensures r.Err? ==> r.error == AttributeError
    ensures j.JObject? && Lookup(j.fields, key).None? ==> r == Ok(default)
  {
    match j
    case JObject(fields) => Ok(Lookup(fields, key).GetOr(default))
    case _ => Err(AttributeError)
  }

  /** `j[key]` with a string key. */
  function Index(j: Json, key: string): (r: Result<Json, Error>)
    ensures r.Ok? <==> j.JObject? && Lookup(j.fields, key).Some?
    ensures r.Err? ==> r.error == (if j.JObject? then KeyError else TypeError)
  {
    match j
    case JObject(fields) => if Lookup(fields, key).Some? then Ok(Lookup(fields, key).value) else Err(KeyError)
    case _ => Err(TypeError)
  }

  /** `d.get(k1, {}).get(k2, {})...get(kn, default)`: a chain of lookups with `{}` for every missing level. */
  function GetPath(j: Json, path: seq<string>, default: Json): (r: Result<Json, Error>)
    requires |path| > 0
    decreases |path|
  {
    if |path| == 1 then Get(j, path[0], default)
    else
      match Get(j, path[0], JObject([]))
      case Err(e) => Err(e)
      case Ok(inner) => GetPath(inner, path[1..], default)
  }

  /** A chain of lookups through dictionaries that lack every key yields the default. */
  lemma {:induction false} GetPathMissing(path: seq<string>, default: Json)
    requires |path| > 0
    ensures GetPath(JObject([]), path, default) == Ok(default)
  {
    if |path| > 1 {
      GetPathMissing(path[1..], default);
    }
  }

  /** The keys of a decoded object. */
  function Keys(fields: seq<(string, Json)>): set<string> {
    set i | 0 <= i < |fields| :: fields[i].0
  }

  /** The keys of an object are those before its last member and the last member's own. */
  lemma KeysSnoc(fields: seq<(string, Json)>)
    requires fields != []
    ensures Keys(fields) == Keys(fields[..|fields| - 1]) + {fields[|fields| - 1].0}
  {
    var init := fields[..|fields| - 1];
    forall x | x in Keys(fields)
      ensures x in Keys(init) + {fields[|fields| - 1].0}
    {
      var i :| 0 <= i < |fields| && fields[i].0 == x;
      if i < |fields| - 1 {
        assert init[i].0 == x;
      }
    }
    forall x | x in Keys(init)
      ensures x in Keys(fields)
    {
      var i :| 0 <= i < |init| && init[i].0 == x;
      assert fields[i].0 == x;
    }
  }

  /**
   * The keys of a decoded object in the order a dictionary iterates them: a
   * repeated key keeps the place of its first occurrence.
   */
  function KeyOrder(fields: seq<(string, Json)>): (ks: seq<string>)
    ensures forall k :: k in ks <==> k in Keys(fields)
    ensures forall i, j :: 0 <= i < j < |ks| ==> ks[i] != ks[j]
    ensures |ks| == |Keys(fields)|
  {
    if fields == [] then []
    else
      var init := fields[..|fields| - 1];
      var k := fields[|fields| - 1].0;
      var ks := KeyOrder(init);
      KeysSnoc(fields);
      if k in ks then
        assert Keys(fields) == Keys(init);
        ks
      else
        assert |Keys(fields)| == |Keys(init)| + 1;
        ks + [k]
  }

  /** Python truthiness. */
  predicate Truthy(j: Json) {
    match j
    case JNull => false
    case JBool(b) => b
    case JInt(i) => i != 0
    case JFloat(r, _) => r != 0.0
    case JStr(s) => s != ""
    case JList(items) => items != []
    case JObject(fields) => fields != []
  }

  /** `len(j)`: defined on strings, lists and dictionaries only. */
  function Len(j: Json): (r: Result<nat, Error>)
    ensures r.Err? <==> j.JNull? || j.JBool? || j.JInt? || j.JFloat?
    ensures r.Ok? ==> (r.value == 0 <==> !Truthy(j))
  {
    match j
    case JStr(s) => Ok(|s|)
    case JList(items) => Ok(|items|)
    case JObject(fields) =>
      assert fields != [] ==> fields[0].0 in Keys(fields);
      Ok(|Keys(fields)|)
    case _ => Err(TypeError)
  }

  /** `int(x)` of a float: its integer part, rounding toward zero. */
  function Truncate(x: real): (n: int)
    ensures 0.0 <= x ==> 0 <= n && n as real <= x < n as real + 1.0
    ensures x < 0.0 ==> n <= 0 && n as real - 1.0 < x <= n as real
  {
    if x >= 0.0 then x.Floor else -((-x).Floor)
  }

  /**
   * `int(j)`: integers and booleans convert, floats are truncated, strings are
   * parsed, anything else is a TypeError.
   */
  function PyInt(j: Json): (r: Result<int, Error>)
    ensures j.JInt? ==> r == Ok(j.i)
    ensures j.JFloat? ==> r == Ok(Truncate(j.r))
    ensures r.Err? ==> (r.error == ValueError <==> j.JStr?)
    ensures j.JNull? || j.JList? || j.JObject? ==> r == Err(TypeError)
  {
    match j
    case JInt(i) => Ok(i)
    case JFloat(x, _) => Ok(Truncate(x))
    case JBool(b) => Ok(if b then 1 else 0)
    case JStr(s) => if ParseInt(s).Some? then Ok(ParseInt(s).value) else Err(ValueError)
    case _ => Err(TypeError)
  }

  /** `int(s)` of the decimal text of a number gives the number back. */
  lemma PyIntOfText(i: int)
    ensures PyInt(JStr(IntToString(i))) == Ok(i)
  {
    ParseIntToString(i);
  }

  /** A Python value rendered by `"{}".format(x)`, that is `str(x)`. */
  function PyStr(j: Json): string
    decreases j
  {
    match j
    case JStr(s) => s
    case _ => PyRepr(j)
  }

  /**
   * `repr(x)`: strings are quoted, containers render their members with `repr`,
   * a dictionary once per key, in iteration order, with the value it keeps.
   */
  function PyRepr(j: Json): string
    decreases j
  {
    match j
    case JNull => "None"
    case JBool(b) => if b then "True" else "False"
    case JInt(i) => IntToString(i)
    case JFloat(_, text) => text
    case JStr(s) => ReprString(s)
    case JList(items) => "[" + ReprItems(items) + "]"
    case JObject(fields) => "{" + ReprMembers(fields, KeyOrder(fields)) + "}"
  }

  function ReprItems(items: seq<Json>): string
    decreases items
  {
    if items == [] then ""
    else if |items| == 1 then PyRepr(items[0])
    else PyRepr(items[0]) + ", " + ReprItems(items[1..])
  }

  function ReprMembers(fields: seq<(string, Json)>, keys: seq<string>): string
    requires forall k :: k in keys ==> k in Keys(fields)
    decreases fields, |keys|
  {
    if keys == [] then ""
    else
      var entry := ReprEntry(fields[LookupIndex(fields, keys[0])]);
      if |keys| == 1 then entry else entry + ", " + ReprMembers(fields, keys[1..])
  }

  function ReprEntry(entry: (string, Json)): string
    decreases entry
  {
    ReprString(entry.0) + ": " + PyRepr(entry.1)
  }

  /**
   * `repr(s)` of a string: single quotes, or double quotes when the text holds
   * a single quote and no double quote.
   */
  function ReprString(s: string): string {
    var quote := if '\'' in s && '"' !in s then '"' else '\'';
    [quote] + Escaped(s, quote) + [quote]
  }

  function Escaped(s: string, quote: char): string {
    if s == [] then "" else EscapeChar(s[0], quote) + Escaped(s[1..], quote)
  }

  /** How `repr` writes one character: backslash escapes for the quote, the backslash and ASCII controls. */
  function EscapeChar(c: char, quote: char): string {
    if c == '\\' || c == quote then ['\\', c]
    else if c == '\n' then "\\n"
    else if c == '\r' then "\\r"
    else if c == '\t' then "\\t"
    else if c as int < 32 || c as int == 127 then "\\x" + [HexDigit(c as int / 16), HexDigit(c as int % 16)]
    else [c]
  }

  function HexDigit(d: nat): char
    requires d < 16
  {
    "0123456789abcdef"[d]
  }

  /** Printable ASCII other than the quote and the backslash. */
  predicate Plain(c: char) {
    32 <= c as int < 127 && c != '\'' && c != '\\'
  }

  /** A text of plain characters is written between single quotes, as it is. */
  lemma {:induction false} ReprPlainString(s: string)
    requires forall i :: 0 <= i < |s| ==> Plain(s[i])
    ensures ReprString(s) == "'" + s + "'"
  {
    assert '\'' !in s;
    EscapedAsIs(s, '\'');
  }

  /**
   * A text holding a single quote but otherwise plain characters and no
   * double quote is written between double quotes, as it is.
   */
  lemma {:induction false} ReprQuotedString(s: string)
    requires '\'' in s
    requires forall i :: 0 <= i < |s| ==> s[i] == '\'' || (Plain(s[i]) && s[i] != '"')
    ensures ReprString(s) == "\"" + s + "\""
  {
    assert '"' !in s;
    EscapedAsIs(s, '"');
  }

  /** Printable ASCII other than the backslash and the quote is written as it is. */
  lemma {:induction false} EscapedAsIs(s: string, quote: char)
    requires forall i :: 0 <= i < |s| ==> 32 <= s[i] as int < 127 && s[i] != '\\' && s[i] != quote
    ensures Escaped(s, quote) == s
  {
    if s != [] {
      assert 32 <= s[0] as int < 127 && s[0] != '\\' && s[0] != quote;
      EscapedAsIs(s[1..], quote);
      assert s == [s[0]] + s[1..];
    }
  }

  /** `"{}".format(x)` of an optional string: an absent value is `None`. */
  function OfOption(o: Option<string>): (j: Json)
    ensures PyStr(j) == Show(o)
  {
    match o
    case None => JNull
    case Some(s) => JStr(s)
  }

  /**
   * Iterating over a value (`for x in j`, `tuple(j)`): a list yields its items, a
   * string its characters, a dictionary its keys, each once; anything else is a
   * TypeError.
   */
  function Iterate(j: Json): (r: Result<seq<Json>, Error>)
    ensures r.Err? <==> j.JNull? || j.JBool? || j.JInt? || j.JFloat?
    ensures j.JList? ==> r == Ok(j.items)
    ensures r.Ok? ==> (r.value == [] <==> !Truthy(j))
  {
    match j
    case JList(items) => Ok(items)
    case JStr(s) => Ok(seq(|s|, i requires 0 <= i < |s| => JStr([s[i]])))
    case JObject(fields) =>
      var ks := KeyOrder(fields);
      assert fields != [] ==> fields[0].0 in Keys(fields);
      Ok(seq(|ks|, i requires 0 <= i < |ks| => JStr(ks[i])))
    case _ => Err(TypeError)
  }

  /** A string yields its characters in order; a dictionary yields each of its keys exactly once. */
  lemma IterateMembers(j: Json)
    ensures j.JStr? ==>
              && Iterate(j).Ok? && |Iterate(j).value| == |j.s|
              && forall i :: 0 <= i < |j.s| ==> Iterate(j).value[i] == JStr([j.s[i]])
    ensures j.JObject? ==>
              && Iterate(j).Ok?
              && (forall x :: x in Iterate(j).value <==> x.JStr? && x.s in Keys(j.fields))
              && (forall a, b :: 0 <= a < b < |Iterate(j).value| ==> Iterate(j).value[a] != Iterate(j).value[b])
  {
    if j.JObject? {
      var ks := KeyOrder(j.fields);
      var items := Iterate(j).value;
      forall x: Json | x.JStr? && x.s in Keys(j.fields)
        ensures x in items
      {
        var i :| 0 <= i < |ks| && ks[i] == x.s;
        assert items[i] == x;
      }
    }
  }

  /** Iterating a value yields as many elements as `len` counts, and fails exactly where `len` does. */
  lemma IterateAgreesWithLen(j: Json)
    ensures Iterate(j).Ok? <==> Len(j).Ok?
    ensures Iterate(j).Ok? ==> |Iterate(j).value| == Len(j).value
  {
  }
}
