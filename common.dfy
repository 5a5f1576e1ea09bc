/*
 * Shared vocabulary of the model: optional values, the exceptions the
 * Python code raises, and the few string routines of Python's `str` that
 * the repository relies on (whitespace stripping, whitespace splitting,
 * decimal rendering of integers).
 */
module Common {

  datatype Option<T> = None | Some(value: T)

  /** The Python exceptions the modelled code raises, by class. */
  datatype Error =
    | ValueError(msg: string)
    | TypeError(msg: string)
    | AttributeError(msg: string)
    | KeyError(key: string)
    | FileNotFoundError(path: string)
    | NotADirectoryError(path: string)
    | RuntimeError(msg: string)
    | AgentPromptValidationError(msg: string)
    | NameError(name: string)
    | DuplicateIdError(id: string)
    | IndexError(msg: string)

  datatype Result<T> = Ok(value: T) | Err(error: Error)
  {
    predicate IsOk() { this.Ok? }
  }

  /** A metadata value as the vector stores keep it (str, int, float or bool). */
  datatype Scalar = SStr(s: string) | SInt(i: int) | SReal(r: real) | SBool(b: bool)

  /** A flat metadata dict. */
  type Meta = map<string, Scalar>

  /** An embedding vector (float32 precision is not modelled). */
  type Vec = seq<real>

  // ---------------------------------------------------------------------
  // Whitespace as `str.isspace`, `str.strip`, `str.split()` and the regex
  // class `\s` see it (the Unicode White_Space characters plus the four
  // ASCII separators U+001C..U+001F).

  predicate IsSpace(c: char)
  {
    ('\t' <= c <= '\r') || ('\U{1C}' <= c <= ' ') || c == '\U{85}' || c == '\U{A0}'
    || c == '\U{1680}' || ('\U{2000}' <= c <= '\U{200A}') || c == '\U{2028}'
    || c == '\U{2029}' || c == '\U{202F}' || c == '\U{205F}' || c == '\U{3000}'
  }

  predicate AllSpace(s: string)
  {
    forall i :: 0 <= i < |s| ==> IsSpace(s[i])
  }

  predicate NoSpace(s: string)
  {
    forall i :: 0 <= i < |s| ==> !IsSpace(s[i])
  }

  /** The end of the whitespace run starting at `i`. */
  function LeadEnd(s: string, i: nat): (e: nat)
    requires i <= |s|
    ensures i <= e <= |s|
    decreases |s| - i
  {
    if i < |s| && IsSpace(s[i]) then LeadEnd(s, i + 1) else i
  }

  lemma {:induction false} LeadEndSpaces(s: string, i: nat)
    requires i <= |s|
    ensures forall k :: i <= k < LeadEnd(s, i) ==> IsSpace(s[k])
    ensures LeadEnd(s, i) < |s| ==> !IsSpace(s[LeadEnd(s, i)])
    decreases |s| - i
  {
    if i < |s| && IsSpace(s[i]) {
      LeadEndSpaces(s, i + 1);
    }
  }

  /** The start of the whitespace run ending at `j`, looking no further left than `lo`. */
  function TrailStart(s: string, lo: nat, j: nat): (b: nat)
    requires lo <= j <= |s|
    ensures lo <= b <= j
    decreases j - lo
  {
    if j > lo && IsSpace(s[j - 1]) then TrailStart(s, lo, j - 1) else j
  }

  lemma {:induction false} TrailStartSpaces(s: string, lo: nat, j: nat)
    requires lo <= j <= |s|
    ensures forall k :: TrailStart(s, lo, j) <= k < j ==> IsSpace(s[k])
    ensures TrailStart(s, lo, j) > lo ==> !IsSpace(s[TrailStart(s, lo, j) - 1])
    decreases j - lo
  {
    if j > lo && IsSpace(s[j - 1]) {
      TrailStartSpaces(s, lo, j - 1);
    }
  }

  /** `s.lstrip()`. */
  function LStrip(s: string): (r: string)
    ensures |r| <= |s| && r == s[|s| - |r|..]
    ensures AllSpace(s[..|s| - |r|])
    ensures r != [] ==> !IsSpace(r[0])
  {
    LeadEndSpaces(s, 0);
    s[LeadEnd(s, 0)..]
  }

  /** `s.rstrip()`. */
  function RStrip(s: string): (r: string)
    ensures |r| <= |s| && r == s[..|r|]
    ensures AllSpace(s[|r|..])
    ensures r != [] ==> !IsSpace(r[|r| - 1])
  {
    TrailStartSpaces(s, 0, |s|);
    s[..TrailStart(s, 0, |s|)]
  }

  /** `s.strip()`. */
  function Strip(s: string): (r: string)
  {
    var i := LeadEnd(s, 0);
    s[i..TrailStart(s, i, |s|)]
  }

  /** `s.strip()` is the slice `s[i..j]` with only whitespace cut on either side. */
  lemma StripIsSlice(s: string) returns (i: nat, j: nat)
    ensures i <= j <= |s| && Strip(s) == s[i..j]
    ensures AllSpace(s[..i]) && AllSpace(s[j..])
    ensures Strip(s) != [] ==> !IsSpace(Strip(s)[0]) && !IsSpace(Strip(s)[|Strip(s)| - 1])
  {
    i := LeadEnd(s, 0);
    j := TrailStart(s, i, |s|);
    LeadEndSpaces(s, 0);
    TrailStartSpaces(s, i, |s|);
    assert forall k :: 0 <= k < |s[j..]| ==> s[j..][k] == s[j + k];
  }

  /** The stripped string is empty exactly when the input is all whitespace. */
  lemma StripEmptyIff(s: string)
    ensures Strip(s) == [] <==> AllSpace(s)
  {
    var i, j := StripIsSlice(s);
    if Strip(s) == [] {
      assert i == j;
      assert forall k :: 0 <= k < |s| ==> (k < i ==> s[k] == s[..i][k]) && (k >= j ==> s[k] == s[j..][k - j]);
    }
  }

  lemma LStripFixed(s: string)
    requires s == [] || !IsSpace(s[0])
    ensures LStrip(s) == s
  {
  }

  /** A string with no whitespace at either end is its own strip. */
  lemma StripUnchanged(s: string)
    requires s == [] || (!IsSpace(s[0]) && !IsSpace(s[|s| - 1]))
    ensures Strip(s) == s
  {
    assert LeadEnd(s, 0) == 0;
    if s != [] {
      assert TrailStart(s, 0, |s|) == |s|;
    }
  }

  /** Stripping twice is stripping once. */
  lemma StripIdempotent(s: string)
    ensures Strip(Strip(s)) == Strip(s)
  {
    var t := Strip(s);
    var _, _ := StripIsSlice(s);
    assert LeadEnd(t, 0) == 0;
    if t != [] {
      assert TrailStart(t, 0, |t|) == |t|;
    }
  }

  // ---------------------------------------------------------------------
  // `str.split()` (no argument) and `sep.join(...)`.

  /** The longest whitespace-free prefix of `s`. */
  function TakeWord(s: string): (w: string)
    ensures |w| <= |s| && w == s[..|w|] && NoSpace(w)
    ensures |w| < |s| ==> IsSpace(s[|w|])
  {
    if s == [] || IsSpace(s[0]) then []
    else
      var rest := TakeWord(s[1..]);
      assert [s[0]] + rest == s[..|rest| + 1];
      [s[0]] + rest
  }

  /** `s.split()`: the maximal runs of non-whitespace characters, in order. */
  function Words(s: string): (ws: seq<string>)
    ensures forall k :: 0 <= k < |ws| ==> ws[k] != [] && NoSpace(ws[k])
    decreases |s|
  {
    var t := LStrip(s);
    if t == [] then [] else
      var w := TakeWord(t);
      [w] + Words(t[|w|..])
  }

  function Join(ws: seq<string>, sep: string): (r: string)
  {
    if ws == [] then [] else if |ws| == 1 then ws[0] else ws[0] + sep + Join(ws[1..], sep)
  }

  /** Joining `a + b` puts one separator between the two joins. */
  lemma {:induction false} JoinAppend(a: seq<string>, b: seq<string>, sep: string)
    requires a != [] && b != []
    ensures Join(a + b, sep) == Join(a, sep) + sep + Join(b, sep)
  {
    if |a| == 1 {
      assert (a + b)[1..] == b;
    } else {
      assert (a + b)[1..] == a[1..] + b;
      JoinAppend(a[1..], b, sep);
    }
  }

  /** `s.split(c)`: the pieces between occurrences of `c`; never empty. */
  function SplitOn(s: string, c: char): (parts: seq<string>)
    ensures |parts| >= 1
  {
    if s == [] then [[]]
    else if s[0] == c then [[]] + SplitOn(s[1..], c)
    else
      var rest := SplitOn(s[1..], c);
      [[s[0]] + rest[0]] + rest[1..]
  }

  lemma {:induction false} SplitOnPiece(w: string, rest: string, c: char)
    requires c !in w
    ensures SplitOn(w + [c] + rest, c) == [w] + SplitOn(rest, c)
    ensures SplitOn(w, c) == [w]
  {
    if w != [] {
      assert (w + [c] + rest)[1..] == w[1..] + [c] + rest;
      SplitOnPiece(w[1..], rest, c);
      assert [w[0]] + w[1..] == w;
    } else {
      assert w + [c] + rest == [c] + rest;
    }
  }

  /** Splitting a `c`-joined list of `c`-free pieces gives the pieces back. */
  lemma {:induction false} SplitOfJoin(ls: seq<string>, c: char)
    requires ls != []
    requires forall k :: 0 <= k < |ls| ==> c !in ls[k]
    ensures SplitOn(Join(ls, [c]), c) == ls
  {
    if |ls| == 1 {
      SplitOnPiece(ls[0], [], c);
    } else {
      SplitOfJoin(ls[1..], c);
      SplitOnPiece(ls[0], Join(ls[1..], [c]), c);
    }
  }

  /** A string with single spaces between non-empty words and no other whitespace. */
  predicate Normalized(s: string)
  {
    (forall i :: 0 <= i < |s| && IsSpace(s[i]) ==> s[i] == ' ' && 0 < i < |s| - 1)
    && (forall i :: 0 <= i < |s| - 1 && IsSpace(s[i]) ==> !IsSpace(s[i + 1]))
  }

  lemma {:induction false} JoinWordsNormalized(ws: seq<string>)
    requires forall k :: 0 <= k < |ws| ==> ws[k] != [] && NoSpace(ws[k])
    ensures Normalized(Join(ws, " "))
    ensures ws == [] <==> Join(ws, " ") == []
  {
    if |ws| > 1 {
      JoinWordsNormalized(ws[1..]);
      var rest := Join(ws[1..], " ");
      var r := ws[0] + " " + rest;
      assert r == Join(ws, " ");
      forall i | 0 <= i < |r| && IsSpace(r[i])
        ensures r[i] == ' ' && 0 < i < |r| - 1
      {
        if i > |ws[0]| {
          assert r[i] == rest[i - |ws[0]| - 1];
        }
      }
      forall i | 0 <= i < |r| - 1 && IsSpace(r[i])
        ensures !IsSpace(r[i + 1])
      {
        if i > |ws[0]| {
          assert r[i] == rest[i - |ws[0]| - 1];
          assert r[i + 1] == rest[i - |ws[0]|];
        } else if i == |ws[0]| {
          assert r[i + 1] == rest[0];
        }
      }
    }
  }

  lemma {:induction false} TakeWordOfWordThenRest(w: string, rest: string)
    requires NoSpace(w) && (rest == [] || IsSpace(rest[0]))
    ensures TakeWord(w + rest) == w
    decreases |w|
  {
    if w != [] {
      assert (w + rest)[1..] == w[1..] + rest;
      TakeWordOfWordThenRest(w[1..], rest);
    }
  }

  /** Splitting `w + " " + rest` takes off the word `w`. */
  lemma WordsStep(w: string, rest: string)
    requires w != [] && NoSpace(w) && rest != [] && !IsSpace(rest[0])
    ensures Words(w + " " + rest) == [w] + Words(rest)
  {
    var s := w + " " + rest;
    var x := " " + rest;
    assert s[0] == w[0];
    assert LeadEnd(s, 0) == 0;
    assert s == w + x;
    TakeWordOfWordThenRest(w, x);
    assert s[|w|..] == x;
    assert x[1] == rest[0];
    assert LeadEnd(x, 1) == 1;
    assert LeadEnd(x, 0) == 1;
    assert x[1..] == rest;
    assert LeadEnd(rest, 0) == 0;
  }

  /** Splitting a space-joined list of words gives the words back. */
  lemma {:induction false} WordsOfJoin(ws: seq<string>)
    requires forall k :: 0 <= k < |ws| ==> ws[k] != [] && NoSpace(ws[k])
    ensures Words(Join(ws, " ")) == ws
  {
    if ws == [] {
    } else if |ws| == 1 {
      var w := ws[0];
      assert LeadEnd(w, 0) == 0;
      TakeWordOfWordThenRest(w, []);
      assert w + [] == w;
      assert w[|w|..] == [];
    } else {
      var rest := Join(ws[1..], " ");
      JoinWordsNormalized(ws[1..]);
      assert rest != [] && !IsSpace(rest[0]) by {
        assert ws[1] != [];
      }
      WordsOfJoin(ws[1..]);
      WordsStep(ws[0], rest);
    }
  }

  /** The whitespace normaliser `" ".join(s.split())`. */
  function Squash(s: string): (r: string)
    ensures Normalized(r)
    ensures r == [] <==> AllSpace(s)
  {
    JoinWordsNormalized(Words(s));
    WordsEmptyIff(s);
    Join(Words(s), " ")
  }

  lemma WordsEmptyIff(s: string)
    ensures Words(s) == [] <==> AllSpace(s)
  {
    var t := LStrip(s);
    if t == [] {
      assert s == s[..|s| - |t|];
    } else {
      assert !IsSpace(s[|s| - |t|]);
    }
  }

  /** Normalising an already normalised string changes nothing. */
  lemma SquashIdempotent(s: string)
    ensures Squash(Squash(s)) == Squash(s)
  {
    WordsOfJoin(Words(s));
  }

  // ---------------------------------------------------------------------
  // Decimal rendering, as `str(n)` for integers.

  /** The decimal digit for `d`. */
  function DigitChar(d: nat): (c: char)
    requires d < 10
    ensures '0' <= c <= '9'
  {
    ('0' as int + d) as char
  }

  function NatToString(n: nat): (r: string)
    ensures |r| >= 1 && (n >= 10 <==> |r| >= 2)
  {
    if n < 10 then [DigitChar(n)] else NatToString(n / 10) + [DigitChar(n % 10)]
  }

  /** `str(n)` of a natural number is all decimal digits. */
  lemma {:induction false} NatToStringDigits(n: nat)
    ensures forall i :: 0 <= i < |NatToString(n)| ==> '0' <= NatToString(n)[i] <= '9'
  {
    if n >= 10 {
      NatToStringDigits(n / 10);
    }
  }

  /** Distinct numbers have distinct decimal renderings. */
  lemma {:induction false} NatToStringInjective(a: nat, b: nat)
    requires NatToString(a) == NatToString(b)
    ensures a == b
  {
    if a >= 10 && b >= 10 {
      var sa, sb := NatToString(a), NatToString(b);
      assert DigitChar(a % 10) == sa[|sa| - 1] == sb[|sb| - 1] == DigitChar(b % 10);
      assert sa[..|sa| - 1] == NatToString(a / 10);
      assert sb[..|sb| - 1] == NatToString(b / 10);
      NatToStringInjective(a / 10, b / 10);
    }
  }

  /** `str(i)` for a Python int. */
  function IntToString(i: int): (r: string)
    ensures r != [] && (r[0] == '-' <==> i < 0)
  {
    if i < 0 then "-" + NatToString(-i)
    else
      NatToStringDigits(i);
      NatToString(i)
  }

  lemma IntToStringInjective(a: int, b: int)
    requires IntToString(a) == IntToString(b)
    ensures a == b
  {
    if a < 0 {
      assert IntToString(a)[1..] == NatToString(-a);
      assert IntToString(b)[1..] == NatToString(-b);
      NatToStringInjective(-a, -b);
    } else {
      NatToStringInjective(a, b);
    }
  }

  /** `str(n).zfill(width)` for a non-negative number. */
  function ZeroPad(n: nat, width: nat): (r: string)
    ensures |r| >= width
  {
    var d := NatToString(n);
    if |d| >= width then d else seq(width - |d|, _ => '0') + d
  }

  // ---------------------------------------------------------------------
  // Case mapping limited to ASCII letters. `str.lower()` and
  // `str.upper()` also map other letters ("Ü", "ſ", the Kelvin sign),
  // which these functions leave unchanged.

  function ToLowerChar(c: char): char
  {
    if 'A' <= c <= 'Z' then (c as int + 32) as char else c
  }

  function ToUpperChar(c: char): char
  {
    if 'a' <= c <= 'z' then (c as int - 32) as char else c
  }

  function ToLower(s: string): (r: string)
    ensures |r| == |s| && forall i :: 0 <= i < |s| ==> r[i] == ToLowerChar(s[i])
  {
    seq(|s|, i requires 0 <= i < |s| => ToLowerChar(s[i]))
  }

  function ToUpper(s: string): (r: string)
    ensures |r| == |s| && forall i :: 0 <= i < |s| ==> r[i] == ToUpperChar(s[i])
  {
    seq(|s|, i requires 0 <= i < |s| => ToUpperChar(s[i]))
  }

  /** `s.replace(a, b)` for single characters. */
  function ReplaceChar(s: string, a: char, b: char): (r: string)
    ensures |r| == |s| && forall i :: 0 <= i < |s| ==> r[i] == (if s[i] == a then b else s[i])
  {
    seq(|s|, i requires 0 <= i < |s| => if s[i] == a then b else s[i])
  }

  /** `s.replace("\r\n", "\n")`: every CR immediately followed by LF is dropped. */
  function ReplaceCrlf(s: string): (r: string)
    ensures |r| <= |s|
    ensures (forall i :: 0 <= i < |s| ==> s[i] != '\r') ==> r == s
  {
    if |s| < 2 then s
    else if s[0] == '\r' && s[1] == '\n' then "\n" + ReplaceCrlf(s[2..])
    else [s[0]] + ReplaceCrlf(s[1..])
  }

  // ---------------------------------------------------------------------
  // UTF-8 length, as `len(s.encode("utf-8"))`.

  function Utf8CharLen(c: char): (n: nat)
    ensures 1 <= n <= 4
  {
    if c as int < 0x80 then 1 else if c as int < 0x800 then 2 else if c as int < 0x10000 then 3 else 4
  }

  function Utf8Len(s: string): (n: nat)
    ensures |s| <= n <= 4 * |s|
  {
    if s == [] then 0 else Utf8CharLen(s[0]) + Utf8Len(s[1..])
  }

  // ---------------------------------------------------------------------
  // Sequences.

  /** Concatenation regrouped; stated once so loop invariants over growing lists stay cheap. */
  lemma AppendAssoc<T>(a: seq<T>, b: seq<T>, c: seq<T>)
    ensures (a + b) + c == a + (b + c)
  {
  }

  predicate Distinct<T(==)>(s: seq<T>)
  {
    forall i, j :: 0 <= i < j < |s| ==> s[i] != s[j]
  }

  function Sum(xs: seq<nat>): nat
  {
    if xs == [] then 0 else xs[0] + Sum(xs[1..])
  }

  // ---------------------------------------------------------------------
  // Loops that stop at the first exception.

  /** `done` followed by what the rest of a loop produces, or the rest's error. */
  function Then<B>(done: seq<B>, rest: Result<seq<B>>): Result<seq<B>>
  {
    if rest.Err? then rest else Ok(done + rest.value)
  }

  /** A loop applying `one` to each item in order: the values, or the first error. */
  function TryMap<A, B>(items: seq<A>, one: A -> Result<B>): Result<seq<B>>
  {
    if items == [] then Ok([])
    else if one(items[0]).Err? then Err(one(items[0]).error)
    else Then([one(items[0]).value], TryMap(items[1..], one))
  }

  lemma TryMapStep<A, B>(items: seq<A>, i: nat, one: A -> Result<B>)
    requires i < |items|
    ensures one(items[i]).Err? ==> TryMap(items[i..], one) == Err(one(items[i]).error)
    ensures one(items[i]).Ok? ==> TryMap(items[i..], one) == Then([one(items[i]).value], TryMap(items[i + 1..], one))
  {
    assert items[i..][0] == items[i];
    assert items[i..][1..] == items[i + 1..];
  }

  /** The loop succeeds exactly when every body succeeds, and then collects their values in order. */
  lemma {:induction false} TryMapOk<A, B>(items: seq<A>, one: A -> Result<B>)
    ensures var r := TryMap(items, one);
            (r.Ok? <==> forall k :: 0 <= k < |items| ==> one(items[k]).Ok?)
            && (r.Ok? ==> |r.value| == |items| && forall k :: 0 <= k < |items| ==> r.value[k] == one(items[k]).value)
  {
    if items != [] {
      TryMapOk(items[1..], one);
      assert forall k :: 1 <= k < |items| ==> items[k] == items[1..][k - 1];
    }
  }

  /** Otherwise it fails with the error of the first failing body. */
  lemma {:induction false} TryMapErr<A, B>(items: seq<A>, one: A -> Result<B>)
    ensures var r := TryMap(items, one);
            r.Err? ==> exists k :: 0 <= k < |items| && one(items[k]).Err?
                          && (forall j :: 0 <= j < k ==> one(items[j]).Ok?)
                          && r.error == one(items[k]).error
  {
    if items != [] && one(items[0]).Ok? {
      var rest := TryMap(items[1..], one);
      if rest.Err? {
        TryMapErr(items[1..], one);
        var k :| 0 <= k < |items[1..]| && one(items[1..][k]).Err? && (forall j :: 0 <= j < k ==> one(items[1..][j]).Ok?)
                  && rest.error == one(items[1..][k]).error;
        assert items[k + 1] == items[1..][k];
        assert forall j :: 1 <= j < k + 1 ==> items[j] == items[1..][j - 1];
      }
    }
  }

  lemma ThenNothing<B>(r: Result<seq<B>>)
    ensures Then([], r) == r
  {
    if r.Ok? {
      assert [] + r.value == r.value;
    }
  }

  lemma ThenAssoc<B>(a: seq<B>, b: seq<B>, r: Result<seq<B>>)
    ensures Then(a, Then(b, r)) == Then(a + b, r)
  {
    if r.Ok? {
      AppendAssoc(a, b, r.value);
    }
  }
}
