/**
 * The string operations the executor relies on: Python's decimal `str()` of an
 * integer and `int()` of a string, `"{}".format(None)`, ASCII `lower()` and
 * `startswith`.
 */
module Text {
  import opened Wrappers

  predicate IsDigit(c: char) {
    '0' <= c <= '9'
  }

  predicate AllDigits(s: string) {
    forall i :: 0 <= i < |s| ==> IsDigit(s[i])
  }

  function DigitChar(d: nat): (c: char)
    requires d < 10
    ensures IsDigit(c)
  {
    ('0' as int + d) as char
  }

  function DigitValue(c: char): (d: nat)
    requires IsDigit(c)
    ensures d < 10
  {
    c as int - '0' as int
  }

  /** The decimal digits of n, most significant first, without leading zeros. */
  function NatToString(n: nat): (s: string)
    ensures |s| > 0 && AllDigits(s)
    decreases n
  {
    if n < 10 then [DigitChar(n)] else NatToString(n / 10) + [DigitChar(n % 10)]
  }

  /** Python's `str(i)` for an integer. */
  function IntToString(i: int): string {
    if i < 0 then "-" + NatToString(-i) else NatToString(i)
  }

  /** The number a string of decimal digits denotes. */
  function ParseNat(s: string): nat
    requires AllDigits(s)
  {
    if s == [] then 0 else ParseNat(s[..|s| - 1]) * 10 + DigitValue(s[|s| - 1])
  }

  /** Reading back the digits of n gives n. */
  lemma {:induction false} ParseNatToString(n: nat)
    ensures ParseNat(NatToString(n)) == n
  {
    if n >= 10 {
      var s := NatToString(n);
      assert s[..|s| - 1] == NatToString(n / 10);
      ParseNatToString(n / 10);
    }
  }

  /** Distinct integers are written differently. */
  lemma IntToStringInjective(a: int, b: int)
    ensures IntToString(a) == IntToString(b) ==> a == b
  {
    ParseIntToString(a);
    ParseIntToString(b);
  }

  /** `str(i)` starts with a digit, or with a minus sign followed by a digit. */
  lemma IntToStringShape(i: int)
    ensures |IntToString(i)| >= 1
    ensures IsDigit(IntToString(i)[0]) <==> i >= 0
    ensures i < 0 ==> IntToString(i)[0] == '-' && |IntToString(i)| >= 2 && IsDigit(IntToString(i)[1])
  {
    if i < 0 {
      assert IntToString(i)[1] == NatToString(-i)[0];
    }
  }

  /** `"{}".format(x)` of an optional string: Python writes `None` for an absent value. */
  function Show(o: Option<string>): string {
    match o
    case None => "None"
    case Some(s) => s
  }

  /** `"{}".format(x)` of an optional integer. */
  function ShowInt(o: Option<int>): string {
    match o
    case None => "None"
    case Some(i) => IntToString(i)
  }

  function LowerChar(c: char): char {
    if 'A' <= c <= 'Z' then (c as int + 32) as char else c
  }

  /** Python's `str.lower()` restricted to ASCII letters. */
  function Lower(s: string): (r: string)
    ensures |r| == |s|
    ensures forall i :: 0 <= i < |s| ==> r[i] == LowerChar(s[i])
  {
    if s == [] then [] else [LowerChar(s[0])] + Lower(s[1..])
  }

  /** Python's `s.startswith(prefix)`. */
  predicate StartsWith(s: string, prefix: string) {
    |prefix| <= |s| && s[..|prefix|] == prefix
  }

  /** Python's `str.isspace()` on ASCII: tab to carriage return, the separators U+001C to U+001F, and space. */
  predicate IsSpace(c: char) {
    c == ' ' || (9 <= c as int <= 13) || (28 <= c as int <= 31)
  }

  predicate AllSpaces(s: string) {
    forall i :: 0 <= i < |s| ==> IsSpace(s[i])
  }

  /** `s.lstrip()` */
  function TrimStart(s: string): (r: string)
    ensures r == [] || !IsSpace(r[0])
    ensures |r| <= |s| && r == s[|s| - |r|..]
  {
    if s != [] && IsSpace(s[0]) then TrimStart(s[1..]) else s
  }

  /** `s.rstrip()` */
  function TrimEnd(s: string): (r: string)
    ensures r == [] || !IsSpace(r[|r| - 1])
    ensures |r| <= |s| && r == s[..|r|]
  {
    if s != [] && IsSpace(s[|s| - 1]) then TrimEnd(s[..|s| - 1]) else s
  }

  /**
   * Decimal digits with single underscores between them, the digit grouping
   * `int()` accepts since Python 3.6.
   */
  predicate Grouped(s: string) {
    |s| > 0 && IsDigit(s[0])
    && (|s| == 1 || if s[1] == '_' then Grouped(s[2..]) else Grouped(s[1..]))
  }

  /** The digits of a numeral, its grouping underscores dropped. */
  function Ungrouped(s: string): (d: string)
    ensures AllDigits(d)
  {
    if s == [] then [] else (if IsDigit(s[0]) then [s[0]] else []) + Ungrouped(s[1..])
  }

  /** `int()` of text with no surrounding whitespace: an optional sign, then grouped digits. */
  function ParseSigned(t: string): Option<int> {
    var negative := |t| > 0 && t[0] == '-';
    var body := if |t| > 0 && (t[0] == '-' || t[0] == '+') then t[1..] else t;
    if Grouped(body) then
      var n := ParseNat(Ungrouped(body)) as int;
      Some(if negative then -n else n)
    else None
  }

  /**
   * Python's `int(s)` for a string: surrounding whitespace is ignored, then an
   * optional sign and decimal digits, possibly grouped by single underscores.
   */
  function ParseInt(s: string): Option<int> {
    ParseSigned(TrimEnd(TrimStart(s)))
  }

  /** Dropping the underscores of a plain digit string leaves it as it is. */
  lemma {:induction false} UngroupedDigits(s: string)
    requires AllDigits(s)
    ensures Ungrouped(s) == s
  {
    if s != [] {
      UngroupedDigits(s[1..]);
    }
  }

  /** Ungrouping works piece by piece. */
  lemma {:induction false} UngroupedAppend(a: string, b: string)
    ensures Ungrouped(a + b) == Ungrouped(a) + Ungrouped(b)
  {
    if a != [] {
      assert (a + b)[1..] == a[1..] + b;
      UngroupedAppend(a[1..], b);
    } else {
      assert a + b == b;
    }
  }

  /** A string that neither starts nor ends with whitespace is not stripped. */
  lemma StripNothing(s: string)
    requires s != [] && !IsSpace(s[0]) && !IsSpace(s[|s| - 1])
    ensures TrimEnd(TrimStart(s)) == s
    ensures ParseInt(s) == ParseSigned(s)
  {
  }

  /** A plain digit string is a grouped numeral with no underscore. */
  lemma {:induction false} GroupedDigits(d: string)
    requires |d| > 0 && AllDigits(d)
    ensures Grouped(d) && Ungrouped(d) == d
  {
    UngroupedDigits(d);
    if |d| > 1 {
      GroupedDigits(d[1..]);
    }
  }

  /** Two digit groups joined by one underscore form a grouped numeral. */
  lemma {:induction false} GroupedJoin(a: string, b: string)
    requires |a| > 0 && AllDigits(a) && Grouped(b)
    ensures Grouped(a + "_" + b)
  {
    var g := a + "_" + b;
    if |a| == 1 {
      assert g[1] == '_' && g[2..] == b;
    } else {
      assert g[1] == a[1] && g[1..] == a[1..] + "_" + b;
      GroupedJoin(a[1..], b);
    }
  }

  /** Unsigned grouped digits read as the number they denote. */
  lemma ParseSignedUnsigned(t: string)
    requires Grouped(t)
    ensures ParseSigned(t) == Some(ParseNat(Ungrouped(t)) as int)
  {
    assert IsDigit(t[0]);
  }

  /** A grouped numeral reads as the number its digits denote. */
  lemma ParseIntGrouped(d: string)
    requires Grouped(d)
    ensures ParseInt(d) == Some(ParseNat(Ungrouped(d)) as int)
  {
    StripGrouped(d);
    ParseSignedUnsigned(d);
  }

  /** A minus sign followed by a grouped numeral reads as the negated number. */
  lemma ParseIntNegative(d: string)
    requires Grouped(d)
    ensures ParseInt("-" + d) == Some(-(ParseNat(Ungrouped(d)) as int))
  {
    ParseSignedNegative(d);
    StripMinus(d);
  }

  lemma ParseSignedNegative(d: string)
    requires Grouped(d)
    ensures ParseSigned("-" + d) == Some(-(ParseNat(Ungrouped(d)) as int))
  {
    var t := "-" + d;
    assert t[0] == '-' && t[1..] == d;
  }

  /** A grouped numeral ends with a digit. */
  lemma {:induction false} GroupedLast(d: string)
    requires Grouped(d)
    ensures IsDigit(d[|d| - 1])
  {
    if |d| > 1 {
      if d[1] == '_' {
        GroupedLast(d[2..]);
      } else {
        GroupedLast(d[1..]);
      }
    }
  }

  lemma StripGrouped(d: string)
    requires Grouped(d)
    ensures ParseInt(d) == ParseSigned(d)
  {
    GroupedLast(d);
    StripNothing(d);
  }

  lemma StripMinus(d: string)
    requires Grouped(d)
    ensures ParseInt("-" + d) == ParseSigned("-" + d)
  {
    var t := "-" + d;
    GroupedLast(d);
    assert t[|t| - 1] == d[|d| - 1];
    StripNothing(t);
  }

  /** `int(str(i)) == i`. */
  lemma ParseIntToString(i: int)
    ensures ParseInt(IntToString(i)) == Some(i)
  {
    var d := NatToString(if i < 0 then -i else i);
    GroupedDigits(d);
    if i < 0 {
      ParseIntNegative(d);
    } else {
      ParseIntGrouped(d);
    }
    ParseNatToString(if i < 0 then -i else i);
  }

  lemma {:induction false} TrimStartSpaces(pre: string, s: string)
    requires AllSpaces(pre)
    ensures TrimStart(pre + s) == TrimStart(s)
  {
    if pre != [] {
      assert (pre + s)[1..] == pre[1..] + s;
      TrimStartSpaces(pre[1..], s);
    } else {
      assert pre + s == s;
    }
  }

  lemma {:induction false} TrimEndSpaces(s: string, post: string)
    requires AllSpaces(post)
    ensures TrimEnd(s + post) == TrimEnd(s)
  {
    if post != [] {
      assert (s + post)[..|s + post| - 1] == s + post[..|post| - 1];
      TrimEndSpaces(s, post[..|post| - 1]);
    } else {
      assert s + post == s;
    }
  }

  /** Trailing whitespace survives `lstrip()` only to be removed by `rstrip()`. */
  lemma {:induction false} TrimStartAppend(s: string, post: string)
    requires AllSpaces(post)
    ensures TrimEnd(TrimStart(s + post)) == TrimEnd(TrimStart(s))
  {
    if s == [] {
      assert s + post == post;
      TrimStartSpaces(post, []);
      assert post + [] == post;
    } else if IsSpace(s[0]) {
      assert (s + post)[1..] == s[1..] + post;
      TrimStartAppend(s[1..], post);
    } else {
      TrimEndSpaces(s, post);
    }
  }

  /** `int()` ignores whitespace around the number: `int(" 42\n") == int("42")`. */
  lemma ParseIntIgnoresSpaces(pre: string, s: string, post: string)
    requires AllSpaces(pre) && AllSpaces(post)
    ensures ParseInt(pre + s + post) == ParseInt(s)
  {
    assert pre + s + post == pre + (s + post);
    TrimStartSpaces(pre, s + post);
    TrimStartAppend(s, post);
  }

  /** A group of digits in front of a grouped numeral extends it. */
  lemma {:induction false} GroupedPrepend(a: string, b: string)
    requires |a| > 0 && AllDigits(a) && Grouped(b)
    ensures Grouped(a + b)
  {
    var g := a + b;
    if |a| == 1 {
      assert g[1] == b[0] && g[1..] == b;
    } else {
      assert g[1] == a[1] && g[1..] == a[1..] + b;
      GroupedPrepend(a[1..], b);
    }
  }

  /**
   * `int()` ignores an underscore after a group of digits:
   * `int("1_000") == int("1000")`, `int("1_000_000") == int("1000_000")`.
   */
  lemma ParseIntUnderscore(a: string, b: string)
    requires |a| > 0 && AllDigits(a) && Grouped(b)
    ensures ParseInt(a + "_" + b) == ParseInt(a + b)
  {
    GroupedJoin(a, b);
    ParseIntGrouped(a + "_" + b);
    GroupedPrepend(a, b);
    ParseIntGrouped(a + b);
    UngroupedSkip(a, b);
  }

  lemma UngroupedSkip(a: string, b: string)
    ensures Ungrouped(a + "_" + b) == Ungrouped(a + b)
  {
    assert a + "_" + b == a + ("_" + b);
    UngroupedAppend(a, "_" + b);
    UngroupedAppend(a, b);
    assert ("_" + b)[1..] == b;
  }
}
