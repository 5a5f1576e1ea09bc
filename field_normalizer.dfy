/*
 * Enum normalisation of what a chooser agent's model returned: one allowed
 * id for a single-choice field, a duplicate-free list of allowed ids for a
 * multi-choice field, with the configured default and then the first
 * allowed id as fallbacks. The error log written when nothing is allowed is
 * not modelled.
 */
module FieldNormalizer {
  import opened Common
  import opened PyJson

  /** `isinstance(v, str) and v in allowed`. */
  predicate AllowedStr(v: Json, allowed: seq<string>)
  {
    v.JStr? && v.s in allowed
  }

  /** The first item of `items` that is an allowed string. */
  function FirstAllowed(items: seq<Json>, allowed: seq<string>): (r: Option<string>)
    ensures r.None? <==> forall i :: 0 <= i < |items| ==> !AllowedStr(items[i], allowed)
    ensures r.Some? ==> exists i :: 0 <= i < |items| && items[i] == JStr(r.value) && r.value in allowed
                          && forall j :: 0 <= j < i ==> !AllowedStr(items[j], allowed)
  {
    if items == [] then None
    else if AllowedStr(items[0], allowed) then Some(items[0].s)
    else
      var r := FirstAllowed(items[1..], allowed);
      assert forall i :: 1 <= i < |items| ==> items[i] == items[1..][i - 1];
      r
  }

  /** The value `normalize_one` picks from the raw value alone, before any fallback. */
  function PickOne(raw: Json, allowed: seq<string>): Option<string>
  {
    if AllowedStr(raw, allowed) then Some(raw.s)
    else if raw.JList? then FirstAllowed(raw.items, allowed)
    else None
  }

  /**
   * `normalize_one(field_id, raw_value, allowed, default_value)`: the raw
   * value when it is an allowed string, else the first allowed string of a
   * raw list, else the default when it is an allowed string, else the first
   * allowed id; None only when nothing is allowed.
   */
  function NormalizeOneSpec(raw: Json, allowed: seq<string>, dflt: Json): (r: Option<string>)
    ensures r.Some? ==> r.value in allowed
    ensures r.None? <==> allowed == []
    ensures AllowedStr(raw, allowed) ==> r == Some(raw.s)
    ensures PickOne(raw, allowed).None? && AllowedStr(dflt, allowed) ==> r == Some(dflt.s)
    ensures PickOne(raw, allowed).None? && !AllowedStr(dflt, allowed) && allowed != [] ==> r == Some(allowed[0])
  {
    var picked := PickOne(raw, allowed);
    if picked.Some? then picked
    else if AllowedStr(dflt, allowed) then Some(dflt.s)
    else if allowed != [] then Some(allowed[0])
    else None
  }

  /** `normalize_one`, as written. */
  method NormalizeOne(fieldId: string, raw: Json, allowed: seq<string>, dflt: Json) returns (chosen: Option<string>)
    ensures chosen == NormalizeOneSpec(raw, allowed, dflt)
  {
    chosen := None;
    if raw.JStr? && raw.s in allowed {
      chosen := Some(raw.s);
    } else if raw.JList? {
      chosen := ScanForAllowed(raw.items, allowed);
    }
    if chosen.None? {
      if dflt.JStr? && dflt.s in allowed {
        chosen := Some(dflt.s);
      } else if allowed != [] {
        chosen := Some(allowed[0]);
      }
    }
  }

  /** The `for item in raw_value` loop of `normalize_one`, stopping at the first allowed string. */
  method ScanForAllowed(items: seq<Json>, allowed: seq<string>) returns (chosen: Option<string>)
    ensures chosen == FirstAllowed(items, allowed)
  {
    chosen := None;
    var i := 0;
    while i < |items|
      invariant 0 <= i <= |items|
      invariant chosen.None? ==> FirstAllowed(items[i..], allowed) == FirstAllowed(items, allowed)
      invariant chosen.Some? ==> chosen == FirstAllowed(items, allowed)
    {
      var item := items[i];
      assert items[i..][1..] == items[i + 1..];
      if item.JStr? && item.s in allowed {
        chosen := Some(item.s);
        break;
      }
      i := i + 1;
    }
  }

  /**
   * The allowed strings among the first `n` items, each kept at its first
   * occurrence (the `item not in selected` check).
   */
  function CollectAllowed(items: seq<Json>, allowed: seq<string>, n: nat): (r: seq<string>)
    requires n <= |items|
    ensures Distinct(r)
    ensures forall x :: x in r <==> x in allowed && exists i :: 0 <= i < n && items[i] == JStr(x)
  {
    if n == 0 then []
    else
      var s := CollectAllowed(items, allowed, n - 1);
      if AllowedStr(items[n - 1], allowed) && items[n - 1].s !in s then s + [items[n - 1].s] else s
  }

  /** What `normalize_many` selects from one value (the raw value, or the default). */
  function SelectMany(v: Json, allowed: seq<string>): (r: seq<string>)
    ensures Distinct(r) && forall x :: x in r ==> x in allowed
  {
    if v.JList? then CollectAllowed(v.items, allowed, |v.items|)
    else if AllowedStr(v, allowed) then [v.s]
    else []
  }

  /**
   * `normalize_many(field_id, raw_value, allowed, default_value)`: the
   * selection from the raw value, else the selection from the default, else
   * `[allowed[0]]`; always duplicate-free allowed ids, empty only when nothing
   * is allowed.
   */
  function NormalizeManySpec(raw: Json, allowed: seq<string>, dflt: Json): (r: seq<string>)
    ensures Distinct(r) && forall x :: x in r ==> x in allowed
    ensures r != [] <==> allowed != []
    ensures SelectMany(raw, allowed) != [] ==> r == SelectMany(raw, allowed)
    ensures SelectMany(raw, allowed) == [] && SelectMany(dflt, allowed) != [] ==> r == SelectMany(dflt, allowed)
    ensures SelectMany(raw, allowed) == [] && SelectMany(dflt, allowed) == [] && allowed != [] ==> r == [allowed[0]]
  {
    var sel := SelectMany(raw, allowed);
    var sel2 := if sel != [] then sel else SelectMany(dflt, allowed);
    assert sel2 != [] ==> sel2[0] in allowed;
    if sel2 == [] && allowed != [] then [allowed[0]] else sel2
  }

  /** One `for item in ...: if ... and item not in selected: selected.append(item)` loop. */
  method AppendAllowed(items: seq<Json>, allowed: seq<string>) returns (selected: seq<string>)
    ensures selected == CollectAllowed(items, allowed, |items|)
  {
    selected := [];
    var i := 0;
    while i < |items|
      invariant 0 <= i <= |items|
      invariant selected == CollectAllowed(items, allowed, i)
    {
      var item := items[i];
      if item.JStr? && item.s in allowed && item.s !in selected {
        selected := selected + [item.s];
      }
      i := i + 1;
    }
  }

  /** `normalize_many`, statement by statement. */
  method NormalizeMany(fieldId: string, raw: Json, allowed: seq<string>, dflt: Json) returns (selected: seq<string>)
    ensures selected == NormalizeManySpec(raw, allowed, dflt)
  {
    selected := [];
    if raw.JList? {
      selected := AppendAllowed(raw.items, allowed);
    } else if raw.JStr? && raw.s in allowed {
      selected := selected + [raw.s];
    }
    if selected == [] {
      if dflt.JList? {
        selected := AppendAllowed(dflt.items, allowed);
      } else if dflt.JStr? && dflt.s in allowed {
        selected := selected + [dflt.s];
      }
    }
    if selected == [] && allowed != [] {
      selected := selected + [allowed[0]];
    }
  }

  /**
   * The selection keeps first-occurrence order: wherever a later selected id
   * occurs in the items, an earlier selected id occurs before it.
   */
  lemma {:induction false} CollectKeepsFirstOccurrenceOrder(items: seq<Json>, allowed: seq<string>, n: nat, i: nat, j: nat, b: nat)
    requires n <= |items|
    requires i < j < |CollectAllowed(items, allowed, n)| && b < |items|
    requires items[b] == JStr(CollectAllowed(items, allowed, n)[j])
    ensures exists a :: 0 <= a < b && items[a] == JStr(CollectAllowed(items, allowed, n)[i])
  {
    var s := CollectAllowed(items, allowed, n - 1);
    var r := CollectAllowed(items, allowed, n);
    if j < |s| {
      assert r[..|s|] == s;
      CollectKeepsFirstOccurrenceOrder(items, allowed, n - 1, i, j, b);
    } else {
      assert r == s + [items[n - 1].s];
      var x := r[j];
      assert x !in s;
      assert r[i] in s;
      var a :| 0 <= a < n - 1 && items[a] == JStr(r[i]);
    }
  }
}
