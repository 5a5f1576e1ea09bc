/*
 * `PromptSchema`: the canonical header keys, the must keys, the defaults,
 * the aliases and the per-language bilingual maps, all keyed by normalised
 * header text, and the lookups `preprocess` and `NameMatcher` make on them.
 */
module PromptSchemaKeys {
  import opened Common
  import opened PyJson

  /**
   * The schema as `_load` leaves it: every key (and every alias or bilingual
   * target) already normalised. The bilingual maps keep the file's language
   * order.
   */
  datatype Schema = Schema(
    canonicalKeys: set<string>,
    mustKeys: set<string>,
    defaults: map<string, string>,
    aliases: map<string, string>,
    bilingual: seq<(string, map<string, string>)>)

  // ---------------------------------------------------------------------
  // `normalize_key`.

  /** `\w`: a letter, a digit or `_` (non-ASCII characters other than whitespace count as letters). */
  predicate IsWordChar(c: char)
  {
    ('a' <= c <= 'z') || ('A' <= c <= 'Z') || ('0' <= c <= '9') || c == '_' || (c as int >= 0x80 && !IsSpace(c))
  }

  /** `re.sub(r"\s+", " ", s)`: every whitespace run becomes one space; `inRun` says a run is open. */
  function CollapseSpaces(s: string, inRun: bool): string
  {
    if s == [] then []
    else if IsSpace(s[0]) then
      (if inRun then [] else " ") + CollapseSpaces(s[1..], true)
    else
      [s[0]] + CollapseSpaces(s[1..], false)
  }

  /** `re.sub(r"[^\w\s]+", "", s)`: every character that is neither a word character nor whitespace is dropped. */
  function DropPunctuation(s: string): string
  {
    if s == [] then []
    else if IsWordChar(s[0]) || IsSpace(s[0]) then [s[0]] + DropPunctuation(s[1..])
    else DropPunctuation(s[1..])
  }

  /**
   * `normalize_key` on a str: lower-case and strip, collapse whitespace runs,
   * and only then delete punctuation (NFKC is not modelled).
   */
  function NormalizeKey(s: string): string
  {
    DropPunctuation(CollapseSpaces(Strip(ToLower(s)), false))
  }

  /** `normalize_key` on any value: "" for anything but a str. */
  function NormalizeKeyOf(v: Json): (r: string)
    ensures !v.JStr? ==> r == ""
  {
    if v.JStr? then NormalizeKey(v.s) else ""
  }

  /**
   * A normalised key holds only word characters and plain spaces, and no
   * upper-case ASCII letter.
   */
  lemma NormalizeKeyChars(s: string)
    ensures forall c :: c in NormalizeKey(s) ==> (IsWordChar(c) || c == ' ') && !('A' <= c <= 'Z')
  {
    var low := ToLower(s);
    var t := Strip(low);
    LowerHasNoUpper(s);
    StripKeepsChars(low);
    var c := CollapseSpaces(t, false);
    var r := DropPunctuation(c);
    CollapseChars(t, false);
    DropChars(c);
    forall x | x in r
      ensures (IsWordChar(x) || x == ' ') && !('A' <= x <= 'Z')
    {
      var i :| 0 <= i < |r| && r[i] == x;
      var j :| 0 <= j < |c| && c[j] == x;
    }
  }

  /** Collapsing leaves plain spaces and the input's other characters. */
  lemma {:induction false} CollapseChars(s: string, inRun: bool)
    ensures forall c :: c in CollapseSpaces(s, inRun) ==> (if IsSpace(c) then c == ' ' else c in s)
  {
    if s != [] {
      CollapseChars(s[1..], !inRun || IsSpace(s[0]));
      CollapseChars(s[1..], IsSpace(s[0]));
    }
  }

  /** Deleting punctuation leaves word characters and whitespace of the input. */
  lemma {:induction false} DropChars(s: string)
    ensures forall c :: c in DropPunctuation(s) ==> (IsWordChar(c) || IsSpace(c)) && c in s
  {
    if s != [] {
      DropChars(s[1..]);
    }
  }

  lemma LowerHasNoUpper(s: string)
    ensures forall c :: c in ToLower(s) ==> !('A' <= c <= 'Z')
  {
    forall c | c in ToLower(s)
      ensures !('A' <= c <= 'Z')
    {
      var i :| 0 <= i < |s| && ToLower(s)[i] == c;
    }
  }

  lemma StripKeepsChars(s: string)
    ensures forall c :: c in Strip(s) ==> c in s
  {
    var i, j := StripIsSlice(s);
    forall c | c in Strip(s)
      ensures c in s
    {
      var k :| 0 <= k < j - i && s[i..j][k] == c;
      assert s[i + k] == c;
    }
  }

  /**
   * Punctuation is deleted after whitespace was collapsed, so the spaces
   * around it remain: `"A - B"` normalises to `"a  b"`, with two spaces.
   */
  lemma NormalizeKeyKeepsDoubleSpace()
    ensures NormalizeKey("A - B") == "a  b"
  {
    LowerExample();
    StripUnchanged("a - b");
    CollapseExample();
    DropExample();
  }

  lemma LowerExample()
    ensures ToLower("A - B") == "a - b"
  {
    var low := ToLower("A - B");
    assert |low| == 5 && low[0] == 'a' && low[1] == ' ' && low[2] == '-' && low[3] == ' ' && low[4] == 'b';
  }

  lemma CollapseExample()
    ensures CollapseSpaces("a - b", false) == "a - b"
  {
    assert CollapseSpaces("b", true) == "b";
    assert CollapseSpaces(" b", false) == " b";
    assert CollapseSpaces("- b", true) == "- b";
    assert CollapseSpaces(" - b", false) == " - b";
  }

  lemma DropExample()
    ensures DropPunctuation("a - b") == "a  b"
  {
    assert DropPunctuation("b") == "b";
    assert DropPunctuation(" b") == " b";
    assert DropPunctuation("- b") == " b";
    assert DropPunctuation(" - b") == "  b";
  }

  // ---------------------------------------------------------------------
  // Lookups.

  /** `is_canonical`. */
  predicate IsCanonical(schema: Schema, key: string)
  {
    NormalizeKey(key) in schema.canonicalKeys
  }

  /** `is_must`. */
  predicate IsMust(schema: Schema, key: string)
  {
    NormalizeKey(key) in schema.mustKeys
  }

  /** `default_for`: the configured default of the normalised key, else "". */
  function DefaultFor(schema: Schema, key: string): (r: string)
    ensures NormalizeKey(key) !in schema.defaults ==> r == ""
    ensures NormalizeKey(key) in schema.defaults ==> r == schema.defaults[NormalizeKey(key)]
  {
    var nk := NormalizeKey(key);
    if nk in schema.defaults then schema.defaults[nk] else ""
  }

  /** The first language map, in file order, that holds `nk`, and its target. */
  function BilingualHit(bilingual: seq<(string, map<string, string>)>, nk: string): (r: Option<string>)
    ensures r.None? <==> forall i :: 0 <= i < |bilingual| ==> nk !in bilingual[i].1
    ensures r.Some? ==> exists i :: (0 <= i < |bilingual| && nk in bilingual[i].1 && r.value == bilingual[i].1[nk] &&
      forall j :: 0 <= j < i ==> nk !in bilingual[j].1)
  {
    if bilingual == [] then None
    else if nk in bilingual[0].1 then
      assert nk in bilingual[0].1;
      Some(bilingual[0].1[nk])
    else
      var r := BilingualHit(bilingual[1..], nk);
      assert forall i :: 1 <= i < |bilingual| ==> bilingual[i] == bilingual[1..][i - 1];
      if r.Some? then
        var i :| 0 <= i < |bilingual[1..]| && nk in bilingual[1..][i].1 && r.value == bilingual[1..][i].1[nk]
          && forall j :: 0 <= j < i ==> nk !in bilingual[1..][j].1;
        assert nk in bilingual[i + 1].1 && forall j :: 0 <= j < i + 1 ==> nk !in bilingual[j].1;
        r
      else r
  }

  /** `to_canonical_or_none`: canonical, then alias, then the first bilingual hit. */
  function ToCanonicalOrNone(schema: Schema, key: string): (r: Option<string>)
    ensures NormalizeKey(key) in schema.canonicalKeys ==> r == Some(NormalizeKey(key))
    ensures NormalizeKey(key) !in schema.canonicalKeys && NormalizeKey(key) in schema.aliases ==>
      r == Some(schema.aliases[NormalizeKey(key)])
    ensures NormalizeKey(key) !in schema.canonicalKeys && NormalizeKey(key) !in schema.aliases ==>
      r == BilingualHit(schema.bilingual, NormalizeKey(key))
    ensures r.None? <==> (NormalizeKey(key) !in schema.canonicalKeys && NormalizeKey(key) !in schema.aliases &&
      forall i :: 0 <= i < |schema.bilingual| ==> NormalizeKey(key) !in schema.bilingual[i].1)
  {
    var nk := NormalizeKey(key);
    if nk in schema.canonicalKeys then Some(nk)
    else if nk in schema.aliases then Some(schema.aliases[nk])
    else BilingualHit(schema.bilingual, nk)
  }
}
