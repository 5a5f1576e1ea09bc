/*
 * Python's ordering of `str` values (code point by code point, a proper
 * prefix first) and `sorted(...)` of a collection of distinct strings.
 */
module StrOrder {
  /** `a < b` on Python strings. */
  predicate StrLt(a: string, b: string)
  {
    if b == [] then false
    else if a == [] then true
    else if a[0] != b[0] then a[0] < b[0]
    else StrLt(a[1..], b[1..])
  }

  lemma {:induction false} StrLtIrreflexive(a: string)
    ensures !StrLt(a, a)
  {
    if a != [] {
      StrLtIrreflexive(a[1..]);
    }
  }

  lemma {:induction false} StrLtTransitive(a: string, b: string, c: string)
    requires StrLt(a, b) && StrLt(b, c)
    ensures StrLt(a, c)
  {
    if a != [] && a[0] == b[0] && b[0] == c[0] {
      StrLtTransitive(a[1..], b[1..], c[1..]);
    }
  }

  /** Two different strings are ordered one way or the other, never both. */
  lemma {:induction false} StrLtTotal(a: string, b: string)
    requires a != b
    ensures StrLt(a, b) != StrLt(b, a)
  {
    if a != [] && b != [] && a[0] == b[0] {
      assert a == [a[0]] + a[1..] && b == [b[0]] + b[1..];
      StrLtTotal(a[1..], b[1..]);
    }
  }

  /** Ascending without repeats. */
  predicate StrictlySorted(s: seq<string>)
  {
    forall i, j :: 0 <= i < j < |s| ==> StrLt(s[i], s[j])
  }

  /** `x` put into its place in a strictly sorted list, unless already there. */
  function Insert(x: string, s: seq<string>): (r: seq<string>)
    requires StrictlySorted(s)
    ensures StrictlySorted(r)
    ensures forall y :: y in r <==> y == x || y in s
  {
    if s == [] then [x]
    else if x == s[0] then s
    else if StrLt(x, s[0]) then
      assert forall j :: 0 < j < |s| ==> StrLt(x, s[j]) by {
        forall j | 0 < j < |s| ensures StrLt(x, s[j]) { StrLtTransitive(x, s[0], s[j]); }
      }
      [x] + s
    else
      StrLtTotal(x, s[0]);
      var t := Insert(x, s[1..]);
      assert forall y :: y in t ==> StrLt(s[0], y);
      [s[0]] + t
  }

  /** `sorted(set(xs))`: the distinct strings of `xs`, ascending. */
  function SortedSet(xs: seq<string>): (r: seq<string>)
    ensures StrictlySorted(r)
    ensures forall y :: y in r <==> y in xs
  {
    if xs == [] then [] else Insert(xs[0], SortedSet(xs[1..]))
  }

  /**
   * A strictly sorted list is determined by its elements: whichever order
   * the strings were collected in, `sorted` gives the same list.
   */
  lemma {:induction false} SortedUnique(a: seq<string>, b: seq<string>)
    requires StrictlySorted(a) && StrictlySorted(b)
    requires forall y :: y in a <==> y in b
    ensures a == b
  {
    SameElementsBothEmpty(a, b);
    if a != [] {
      HeadsEqual(a, b);
      forall y ensures y in a[1..] ==> y in b[1..] {
        if y in a[1..] {
          TailMember(a, b, y);
        }
      }
      forall y ensures y in b[1..] ==> y in a[1..] {
        if y in b[1..] {
          TailMember(b, a, y);
        }
      }
      SortedUnique(a[1..], b[1..]);
    }
  }

  lemma SameElementsBothEmpty(a: seq<string>, b: seq<string>)
    requires forall y :: y in a <==> y in b
    ensures a == [] <==> b == []
  {
    if a != [] {
      assert a[0] in a;
    }
    if b != [] {
      assert b[0] in b;
    }
  }

  /** Two strictly sorted lists with the same elements start alike. */
  lemma HeadsEqual(a: seq<string>, b: seq<string>)
    requires StrictlySorted(a) && StrictlySorted(b)
    requires forall y :: y in a <==> y in b
    requires a != [] && b != []
    ensures a[0] == b[0]
  {
    assert a[0] in a && b[0] in b;
    var i :| 0 <= i < |a| && a[i] == b[0];
    var j :| 0 <= j < |b| && b[j] == a[0];
    if i > 0 && j > 0 {
      StrLtTransitive(a[0], b[0], a[0]);
      StrLtIrreflexive(a[0]);
    }
  }

  /** A later element of one sorted list is a later element of the other. */
  lemma TailMember(a: seq<string>, b: seq<string>, y: string)
    requires StrictlySorted(a) && StrictlySorted(b)
    requires forall x :: x in a <==> x in b
    requires a != [] && b != [] && a[0] == b[0] && y in a[1..]
    ensures y in b[1..]
  {
    var i :| 0 <= i < |a[1..]| && a[1..][i] == y;
    assert StrLt(a[0], y);
    StrLtIrreflexive(y);
    assert y in b;
    var j :| 0 <= j < |b| && b[j] == y;
    assert j != 0;
    assert b[1..][j - 1] == y;
  }

  /** `sorted(keys)` of a set of distinct strings (a dict's keys), as a specification. */
  ghost function SortedOf(keys: set<string>): (r: seq<string>)
    ensures StrictlySorted(r)
    ensures forall y :: y in r <==> y in keys
    decreases |keys|
  {
    if keys == {} then []
    else
      var x :| x in keys;
      Insert(x, SortedOf(keys - {x}))
  }

  /** `sorted(d.keys())`: the keys collected one at a time into a sorted list. */
  method SortKeys(keys: set<string>) returns (r: seq<string>)
    ensures r == SortedOf(keys)
  {
    r := [];
    var rest := keys;
    while rest != {}
      invariant rest <= keys
      invariant StrictlySorted(r)
      invariant forall y :: y in r <==> y in keys - rest
      decreases |rest|
    {
      var x :| x in rest;
      r := Insert(x, r);
      rest := rest - {x};
    }
    SortedUnique(r, SortedOf(keys));
  }
}
