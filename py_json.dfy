/*
 * The JSON-shaped Python values the modelled code handles (what `json.loads`
 * returns, minus floats), with Python's truthiness, dict lookup and update,
 * and `repr`/`str` rendering.
 */
module PyJson {
  import opened Common

  datatype Json =
    | JNull
    | JBool(b: bool)
    | JInt(i: int)
    | JStr(s: string)
    | JList(items: seq<Json>)
    | JObj(entries: seq<(string, Json)>)

  /** Python truthiness: None, False, 0, "", [] and {} are falsy. */
  predicate Truthy(j: Json)
  {
    match j
    case JNull => false
    case JBool(b) => b
    case JInt(i) => i != 0
    case JStr(s) => s != []
    case JList(items) => items != []
    case JObj(entries) => entries != []
  }

  predicate IsStr(j: Json) { j.JStr? }

  /** The keys of a dict, in insertion order. */
  function Keys(entries: seq<(string, Json)>): (ks: seq<string>)
  {
    seq(|entries|, i requires 0 <= i < |entries| => entries[i].0)
  }

  /**
   * `d.get(key)` on a dict given by its entries; when `json.loads` meets a
   * repeated key the last binding is the one kept.
   */
  function Lookup(entries: seq<(string, Json)>, key: string): (r: Option<Json>)
    ensures r.None? <==> key !in Keys(entries)
    ensures r.Some? ==> exists i :: 0 <= i < |entries| && entries[i] == (key, r.value)
  {
    if entries == [] then None
    else
      var later := Lookup(entries[1..], key);
      assert Keys(entries) == [entries[0].0] + Keys(entries[1..]);
      if later.Some? then later
      else if entries[0].0 == key then Some(entries[0].1)
      else None
  }

  /** The name Python reports for the type of a value. */
  function TypeName(j: Json): string
  {
    match j
    case JNull => "NoneType"
    case JBool(_) => "bool"
    case JInt(_) => "int"
    case JStr(_) => "str"
    case JList(_) => "list"
    case JObj(_) => "dict"
  }

  /**
   * `v.get(key, dflt)`: the bound value or `dflt` on a dict; any other value
   * has no `get` and raises AttributeError.
   */
  function Get(v: Json, key: string, dflt: Json): (r: Result<Json>)
    ensures r.Err? <==> !v.JObj?
    ensures r.Err? ==> r.error == AttributeError("'" + TypeName(v) + "' object has no attribute 'get'")
    ensures v.JObj? && key !in Keys(v.entries) ==> r == Ok(dflt)
    ensures v.JObj? && key in Keys(v.entries) ==> r == Ok(Lookup(v.entries, key).value)
  {
    if !v.JObj? then Err(AttributeError("'" + TypeName(v) + "' object has no attribute 'get'"))
    else
      var found := Lookup(v.entries, key);
      if found.Some? then Ok(found.value) else Ok(dflt)
  }

  /** `v or alt`. */
  function Or(v: Json, alt: Json): (r: Json)
    ensures Truthy(v) ==> r == v
    ensures !Truthy(v) ==> r == alt
  {
    if Truthy(v) then v else alt
  }

  /**
   * The values `for x in v` visits: the items of a list, the keys of a dict,
   * the one-character strings of a str; None, bools and ints are not iterable.
   */
  function Iter(v: Json): (r: Result<seq<Json>>)
    ensures r.Err? <==> v.JNull? || v.JBool? || v.JInt?
    ensures v.JList? ==> r == Ok(v.items)
    ensures v.JObj? ==> r.Ok? && |r.value| == |v.entries|
                        && forall i :: 0 <= i < |v.entries| ==> r.value[i] == JStr(v.entries[i].0)
    ensures v.JStr? ==> r.Ok? && |r.value| == |v.s| && forall i :: 0 <= i < |v.s| ==> r.value[i] == JStr([v.s[i]])
  {
    match v
    case JList(items) => Ok(items)
    case JObj(entries) => Ok(seq(|entries|, i requires 0 <= i < |entries| => JStr(entries[i].0)))
    case JStr(s) => Ok(seq(|s|, i requires 0 <= i < |s| => JStr([s[i]])))
    case _ => Err(TypeError("'" + TypeName(v) + "' object is not iterable"))
  }

  /**
   * A key as the agent configs use it: a non-empty str. A truthy id of
   * another type is read as absent, where Python keys by an int and raises
   * TypeError for an unhashable list or dict.
   */
  function KeyOf(v: Json): (r: Option<string>)
    ensures r.Some? ==> Truthy(v) && v == JStr(r.value)
    ensures r.None? && v.JStr? ==> !Truthy(v)
  {
    if v.JStr? && v.s != [] then Some(v.s) else None
  }

  // ---------------------------------------------------------------------
  // `repr()` and `str()`.

  /** A lower-case hexadecimal digit. */
  function HexDigit(d: nat): (r: char)
    requires d < 16
    ensures '0' <= r <= '9' || 'a' <= r <= 'f'
  {
    if d < 10 then ('0' as int + d) as char else ('a' as int + d - 10) as char
  }

  /**
   * One character of a string literal as `repr` writes it, for quote `q`.
   * Python also escapes the non-printable characters above U+00A0; they
   * are written as they are here.
   */
  function ReprChar(c: char, q: char): string
    requires q == '\'' || q == '"'
  {
    if c == '\\' then "\\\\"
    else if c == q then ['\\', q]
    else if c == '\n' then "\\n"
    else if c == '\r' then "\\r"
    else if c == '\t' then "\\t"
    else if c as int < 0x20 || 0x7f <= c as int <= 0xa0 then
      ['\\', 'x', HexDigit(c as int / 16), HexDigit(c as int % 16)]
    else [c]
  }

  function ReprChars(s: string, q: char): string
    requires q == '\'' || q == '"'
  {
    if s == [] then [] else ReprChar(s[0], q) + ReprChars(s[1..], q)
  }

  /**
   * `repr(s)` for a str: single quotes, unless the text holds a single quote
   * and no double quote.
   */
  function StrRepr(s: string): (r: string)
  {
    var q := if '\'' in s && '"' !in s then '"' else '\'';
    [q] + ReprChars(s, q) + [q]
  }

  function ReprList(items: seq<Json>): string
    decreases items, 0
  {
    if items == [] then []
    else if |items| == 1 then Repr(items[0])
    else Repr(items[0]) + ", " + ReprList(items[1..])
  }

  function ReprEntries(entries: seq<(string, Json)>): string
    decreases entries, 0
  {
    if entries == [] then []
    else
      var e0 := entries[0];
      assert e0 in entries && e0.1 < e0;
      var e := StrRepr(e0.0) + ": " + Repr(e0.1);
      if |entries| == 1 then e else e + ", " + ReprEntries(entries[1..])
  }

  /** `repr(v)`. */
  function Repr(j: Json): string
    decreases j, 1
  {
    match j
    case JNull => "None"
    case JBool(b) => if b then "True" else "False"
    case JInt(i) => IntToString(i)
    case JStr(s) => StrRepr(s)
    case JList(items) => "[" + ReprList(items) + "]"
    case JObj(entries) => "{" + ReprEntries(entries) + "}"
  }

  /** `str(v)`: the text itself for a str, `repr` otherwise. */
  function Str(j: Json): string
  {
    if j.JStr? then j.s else Repr(j)
  }

  predicate SingleLine(s: string)
  {
    forall i :: 0 <= i < |s| ==> s[i] != '\n' && s[i] != '\r'
  }

  lemma SingleLineConcat(a: string, b: string)
    requires SingleLine(a) && SingleLine(b)
    ensures SingleLine(a + b)
  {
    assert forall i :: 0 <= i < |a + b| ==> (a + b)[i] == if i < |a| then a[i] else b[i - |a|];
  }

  /** A quoted character never contains a line break: `\n` and `\r` are escaped. */
  lemma {:induction false} ReprCharsSingleLine(s: string, q: char)
    requires q == '\'' || q == '"'
    ensures SingleLine(ReprChars(s, q))
  {
    if s != [] {
      ReprCharsSingleLine(s[1..], q);
      ReprCharSingleLine(s[0], q);
      SingleLineConcat(ReprChar(s[0], q), ReprChars(s[1..], q));
    }
  }

  lemma ReprCharSingleLine(c: char, q: char)
    requires q == '\'' || q == '"'
    ensures SingleLine(ReprChar(c, q))
  {
  }

  /** `repr` of a str is a single line. */
  lemma StrReprSingleLine(s: string)
    ensures SingleLine(StrRepr(s))
  {
    var q := if '\'' in s && '"' !in s then '"' else '\'';
    ReprCharsSingleLine(s, q);
    SingleLineConcat([q], ReprChars(s, q));
    SingleLineConcat([q] + ReprChars(s, q), [q]);
  }

  /** `repr` never produces a line break, so a repr'd value stays on its line. */
  lemma {:induction false} ReprSingleLine(j: Json)
    ensures SingleLine(Repr(j))
    decreases j, 1
  {
    match j
    case JNull =>
    case JBool(b) =>
    case JInt(i) =>
      NatToStringDigits(if i < 0 then -i else i);
    case JStr(s) =>
      StrReprSingleLine(s);
    case JList(items) =>
      ReprListSingleLine(items);
      SingleLineConcat("[", ReprList(items));
      SingleLineConcat("[" + ReprList(items), "]");
    case JObj(entries) =>
      ReprEntriesSingleLine(entries);
      SingleLineConcat("{", ReprEntries(entries));
      SingleLineConcat("{" + ReprEntries(entries), "}");
  }

  lemma {:induction false} ReprListSingleLine(items: seq<Json>)
    ensures SingleLine(ReprList(items))
    decreases items, 0
  {
    if |items| == 1 {
      ReprSingleLine(items[0]);
    } else if |items| > 1 {
      ReprSingleLine(items[0]);
      ReprListSingleLine(items[1..]);
      SingleLineConcat(Repr(items[0]), ", ");
      SingleLineConcat(Repr(items[0]) + ", ", ReprList(items[1..]));
    }
  }

  lemma {:induction false} ReprEntriesSingleLine(entries: seq<(string, Json)>)
    ensures SingleLine(ReprEntries(entries))
    decreases entries, 0
  {
    if entries != [] {
      var k := entries[0].0;
      StrReprSingleLine(k);
      var e0 := entries[0];
      assert e0 in entries && e0.1 < e0;
      ReprSingleLine(e0.1);
      SingleLineConcat(StrRepr(k), ": ");
      SingleLineConcat(StrRepr(k) + ": ", Repr(entries[0].1));
      var e := StrRepr(k) + ": " + Repr(entries[0].1);
      if |entries| > 1 {
        ReprEntriesSingleLine(entries[1..]);
        SingleLineConcat(e, ", ");
        SingleLineConcat(e + ", ", ReprEntries(entries[1..]));
      }
    }
  }

  // ---------------------------------------------------------------------
  // `int(x)` of a JSON value.

  predicate AllDigits(s: string)
  {
    forall i :: 0 <= i < |s| ==> '0' <= s[i] <= '9'
  }

  /** The number an ASCII digit string spells in base 10. */
  function DigitsValue(s: string): nat
    requires AllDigits(s)
  {
    if s == [] then 0 else 10 * DigitsValue(s[..|s| - 1]) + (s[|s| - 1] as int - '0' as int)
  }

  /** The digits of a digit part, its underscores left out. */
  function DropUnderscores(s: string): (r: string)
    requires forall i :: 0 <= i < |s| ==> '0' <= s[i] <= '9' || s[i] == '_'
    ensures AllDigits(r) && |r| <= |s|
    ensures AllDigits(s) ==> r == s
    ensures '_' !in s ==> r == s
  {
    if s == [] then []
    else
      assert forall i :: 1 <= i < |s| ==> s[i] == s[1..][i - 1];
      (if s[0] == '_' then [] else [s[0]]) + DropUnderscores(s[1..])
  }

  /**
   * `int(s)` of a string: surrounding whitespace, an optional sign, then
   * ASCII digits with single underscores between them; None where Python
   * raises ValueError.
   */
  function IntLiteral(s: string): Option<int>
  {
    SignedDigits(Strip(s))
  }

  /** An optional sign followed by a digit part, read without its underscores. */
  function SignedDigits(t: string): (r: Option<int>)
    ensures r.Some? <==> DigitPart(if t != [] && (t[0] == '-' || t[0] == '+') then t[1..] else t)
  {
    var signed := t != [] && (t[0] == '-' || t[0] == '+');
    var digits := if signed then t[1..] else t;
    if DigitPart(digits) then
      var v := DigitsValue(DropUnderscores(digits));
      Some(if signed && t[0] == '-' then -(v as int) else v)
    else None
  }

  /**
   * `int(v)`: an int as it is, a bool as 0 or 1, a string through its
   * literal (ValueError when it is none), and TypeError for None, a list or a
   * dict.
   */
  function PyInt(v: Json): (r: Result<int>)
    ensures r.Err? <==> v.JNull? || v.JList? || v.JObj? || (v.JStr? && IntLiteral(v.s).None?)
    ensures r.Err? && v.JStr? ==> r.error.ValueError?
    ensures r.Err? && !v.JStr? ==> r.error.TypeError?
  {
    match v
    case JInt(i) => Ok(i)
    case JBool(b) => Ok(if b then 1 else 0)
    case JStr(s) =>
      if IntLiteral(s).Some? then Ok(IntLiteral(s).value)
      else Err(ValueError("invalid literal for int() with base 10: " + StrRepr(s)))
    case _ => Err(TypeError("int() argument must be a string, a bytes-like object or a real number, not '" + TypeName(v) + "'"))
  }

  // ---------------------------------------------------------------------
  // `float(s)` of a string: which texts it accepts.

  /** The index of the first character of `s` in `cs`, or `|s|` when there is none. */
  function FindAny(s: string, cs: set<char>): (k: nat)
    ensures k <= |s|
    ensures forall i :: 0 <= i < k ==> s[i] !in cs
    ensures k < |s| ==> s[k] in cs
  {
    if s == [] || s[0] in cs then 0
    else
      var k := 1 + FindAny(s[1..], cs);
      assert forall i :: 1 <= i < |s| ==> s[i] == s[1..][i - 1];
      k
  }

  /** A run of ASCII digits, with single underscores allowed between two digits. */
  predicate DigitPart(s: string)
  {
    && s != [] && '0' <= s[0] <= '9' && '0' <= s[|s| - 1] <= '9'
    && (forall i :: 0 <= i < |s| ==> '0' <= s[i] <= '9' || s[i] == '_')
    && (forall i, j :: 0 <= i < |s| && j == i + 1 && j < |s| && s[i] == '_' ==> s[j] != '_')
  }

  /** `[digits] "." digits`, or `digits ["."]`. */
  predicate DecimalText(s: string)
  {
    var k := FindAny(s, {'.'});
    if k == |s| then DigitPart(s)
    else ((s[..k] == [] || DigitPart(s[..k])) && DigitPart(s[k + 1..])) || (DigitPart(s[..k]) && k + 1 == |s|)
  }

  /** A decimal, then optionally `e` or `E`, an optional sign and digits. */
  predicate FloatNumberText(s: string)
  {
    var k := FindAny(s, {'e', 'E'});
    if k == |s| then DecimalText(s)
    else
      var e := s[k + 1..];
      DecimalText(s[..k]) && (DigitPart(e) || (e != [] && (e[0] == '+' || e[0] == '-') && DigitPart(e[1..])))
  }

  /**
   * The texts `float()` accepts: surrounding whitespace, an optional sign,
   * then a number or, in any case, "inf", "infinity" or "nan".
   */
  predicate FloatText(s: string)
  {
    var t := Strip(s);
    var body := if t != [] && (t[0] == '+' || t[0] == '-') then t[1..] else t;
    FloatNumberText(body) || ToLower(body) in {"inf", "infinity", "nan"}
  }

  /** `float()` accepts a decimal text. */
  lemma FloatTextAcceptsDecimal()
    ensures FloatText("0.7")
  {
    StripUnchanged("0.7");
    assert FindAny("0.7", {'e', 'E'}) == 3 && FindAny("0.7", {'.'}) == 1;
  }

  /** `float()` accepts a signed "infinity" in any case. */
  lemma FloatTextAcceptsInfinity()
    ensures FloatText("-Infinity")
  {
    StripUnchanged("-Infinity");
    assert ToLower("Infinity") == "infinity";
  }

  /** `float()` rejects a word with ValueError. */
  lemma FloatTextRejectsWord()
    ensures !FloatText("abc")
  {
    StripUnchanged("abc");
    assert FindAny("abc", {'e', 'E'}) == 3 && FindAny("abc", {'.'}) == 3;
    assert ToLower("abc") == "abc";
  }

  /** `float()` rejects an exponent without digits, and the empty text. */
  lemma FloatTextRejectsBareExponent()
    ensures !FloatText("1e") && !FloatText("")
  {
    StripUnchanged("1e");
    assert FindAny("1e", {'e', 'E'}) == 1;
    assert ToLower("1e") == "1e";
    StripUnchanged("");
  }

  lemma {:induction false} DigitsOfNat(n: nat)
    ensures AllDigits(NatToString(n)) && DigitsValue(NatToString(n)) == n
  {
    var s := NatToString(n);
    if n >= 10 {
      assert s[..|s| - 1] == NatToString(n / 10);
      DigitsOfNat(n / 10);
    }
    var d := if n < 10 then n else n % 10;
    assert s[|s| - 1] == DigitChar(d);
  }

  /** `int(str(i)) == i`: reading back what `str` wrote gives the number. */
  lemma {:induction false} IntLiteralOfString(i: int)
    ensures IntLiteral(IntToString(i)) == Some(i)
  {
    var s := IntToString(i);
    IntToStringEdges(i);
    StripDigitsUnchanged(s);
    SignedDigitsOfString(i);
  }

  /** `str(i)` starts with a digit or '-' and ends with a digit. */
  lemma {:induction false} IntToStringEdges(i: int)
    ensures var s := IntToString(i);
      && s != [] && '0' <= s[|s| - 1] <= '9' && ('0' <= s[0] <= '9' || s[0] == '-')
  {
    var s := IntToString(i);
    NatToStringDigits(if i < 0 then -i else i);
    if i < 0 {
      var d := NatToString(-i);
      assert s == "-" + d;
      assert s[|s| - 1] == d[|d| - 1];
    }
  }

  lemma StripDigitsUnchanged(s: string)
    requires s != [] && '0' <= s[|s| - 1] <= '9' && ('0' <= s[0] <= '9' || s[0] == '-')
    ensures Strip(s) == s
  {
    NotSpace(s[|s| - 1]);
    NotSpace(s[0]);
    StripUnchanged(s);
  }

  lemma NotSpace(c: char)
    requires '0' <= c <= '9' || c == '-'
    ensures !IsSpace(c)
  {
  }

  lemma {:induction false} SignedDigitsOfString(i: int)
    ensures SignedDigits(IntToString(i)) == Some(i)
  {
    var n: nat := if i < 0 then -i else i;
    DigitsOfNat(n);
    var d := NatToString(n);
    assert IntToString(i) == (if i < 0 then "-" else "") + d;
    if i < 0 {
      SignedDigitsNegative("-" + d, d);
    } else {
      SignedDigitsPlain(d);
    }
  }

  lemma SignedDigitsNegative(s: string, d: string)
    requires AllDigits(d) && d != [] && s == "-" + d
    ensures SignedDigits(s) == Some(-(DigitsValue(d) as int))
  {
    assert s[1..] == d;
    AllDigitsPart(d);
  }

  lemma SignedDigitsPlain(d: string)
    requires AllDigits(d) && d != []
    ensures SignedDigits(d) == Some(DigitsValue(d) as int)
  {
    AllDigitsPart(d);
  }

  /** A plain run of digits is a digit part. */
  lemma AllDigitsPart(d: string)
    requires AllDigits(d) && d != []
    ensures DigitPart(d)
  {
  }

  /** `int("-1_0")` is -10: an underscore between two digits is allowed. */
  lemma IntLiteralUnderscores()
    ensures IntLiteral("-1_0") == Some(-10)
  {
    StripUnchanged("-1_0");
    SignedTen();
  }

  lemma SignedTen()
    ensures SignedDigits("-1_0") == Some(-10)
  {
    var t := "-1_0";
    assert t[0] == '-' && t[1..] == "1_0";
    DigitPartTen();
    DropTen();
    DigitsTen();
  }

  lemma DigitPartTen()
    ensures DigitPart("1_0")
  {
  }

  lemma DigitsTen()
    ensures DigitsValue("10") == 10
  {
    assert "10"[..1] == "1" && "1"[..0] == "";
  }

  lemma DropTen()
    ensures DropUnderscores("1_0") == "10"
  {
    var a, b := "1_0", "_0";
    assert a[0] == '1' && a[1..] == b;
    assert b[0] == '_' && b[1..] == "0";
    assert DropUnderscores("0") == "0";
    assert DropUnderscores(a) == ['1'] + DropUnderscores(b);
  }

  /** `int("1__0")` and `int("_1")` raise: an underscore must sit between two digits. */
  lemma IntLiteralRejectsBadUnderscores()
    ensures IntLiteral("1__0").None? && IntLiteral("_1").None?
  {
    StripUnchanged("1__0");
    StripUnchanged("_1");
    assert !DigitPart("1__0") by { assert "1__0"[1] == '_' && "1__0"[2] == '_'; }
  }

  /** `int(v)` reads back a number written with `str`. */
  lemma PyIntOfStr(i: int)
    ensures PyInt(JStr(IntToString(i))) == Ok(i)
  {
    var s := IntToString(i);
    IntLiteralOfString(i);
    assert IntLiteral(s) == Some(i);
    assert PyInt(JStr(s)) == Ok(IntLiteral(s).value);
  }
}
