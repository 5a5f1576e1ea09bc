/*
 * Prompt preprocessing (`ragstream/preprocessing/preprocessing.py`): the
 * markdown section parser, the composition of the Super-Prompt text, and
 * `preprocess`, which maps the user's sections onto the SuperPrompt body.
 */
module Preprocessing {
  import opened Common
  import opened PromptSchemaKeys
  import opened NameMatcher
  import opened SuperPromptState

  // ---------------------------------------------------------------------
  // The header regex `^(#{1,3})\s*(.+)$` under `re.MULTILINE`, as
  // `re.finditer` applies it. `\s*` also crosses line breaks, `.` stops
  // only at '\n', and no space is needed after the hashes.

  /** `^` in multi-line mode: the start of the text or just after a '\n'. */
  predicate LineStart(text: string, p: nat)
  {
    p <= |text| && (p == 0 || text[p - 1] == '\n')
  }

  /** How many hashes `#{1,3}` takes greedily at `p` (0 when none). */
  function HashCount(text: string, p: nat): (k: nat)
    requires p <= |text|
    ensures k <= 3 && p + k <= |text|
    ensures forall i :: p <= i < p + k ==> text[i] == '#'
    ensures k < 3 && p + k < |text| ==> text[p + k] != '#'
  {
    if p < |text| && text[p] == '#' then
      if p + 1 < |text| && text[p + 1] == '#' then
        if p + 2 < |text| && text[p + 2] == '#' then 3 else 2
      else 1
    else 0
  }

  /** Where `.+$` stops: the first '\n' at or after `i`, or the end of the text. */
  function LineEnd(text: string, i: nat): (e: nat)
    requires i <= |text|
    ensures i <= e <= |text|
    ensures e < |text| ==> text[e] == '\n'
    decreases |text| - i
  {
    if i == |text| || text[i] == '\n' then i else LineEnd(text, i + 1)
  }

  /** The last position in `[lo, j)` that is not a '\n'. */
  function LastNonNewline(text: string, lo: nat, j: nat): (r: Option<nat>)
    requires lo <= j <= |text|
    ensures r.Some? ==> lo <= r.value < j && text[r.value] != '\n'
    ensures r.Some? ==> forall i :: r.value < i < j ==> text[i] == '\n'
    ensures r.None? ==> forall i :: lo <= i < j ==> text[i] == '\n'
    decreases j - lo
  {
    if j == lo then None
    else if text[j - 1] != '\n' then Some(j - 1)
    else LastNonNewline(text, lo, j - 1)
  }

  /** One match: where it starts, and group 2 as `text[titleStart..end]`, which ends the match. */
  datatype Header = Header(start: nat, titleStart: nat, end: nat)

  /**
   * The match found at `p`, if any. With hashes at a line start, `\s*`
   * takes the whitespace after them (line breaks included) and `.+` the
   * rest of the line it reaches. When only whitespace follows up to the
   * end of the text, the regex backtracks: `.+` takes the last character
   * that is not a '\n', or, failing that, the last of two or three hashes.
   */
  function MatchAt(text: string, p: nat): (r: Option<Header>)
    requires p <= |text|
    ensures r.Some? ==> r.value.start == p < r.value.titleStart < r.value.end <= |text|
  {
    if !LineStart(text, p) then None
    else
      var k := HashCount(text, p);
      if k == 0 then None
      else
        var q := LeadEnd(text, p + k);
        LeadEndSpaces(text, p + k);
        if q < |text| then
          Some(Header(p, q, LineEnd(text, q)))
        else
          match LastNonNewline(text, p + k, |text|)
          case Some(j) => Some(Header(p, j, j + 1))
          case None => if k >= 2 then Some(Header(p, p + k - 1, p + k)) else None
  }

  /**
   * A line start yields no match only when it holds no hash, or a single
   * hash followed by nothing but line breaks up to the end of the text.
   */
  lemma MatchAtNoneIff(text: string, p: nat)
    requires LineStart(text, p)
    ensures MatchAt(text, p).None? <==>
      (p == |text| || text[p] != '#' ||
       (HashCount(text, p) == 1 && forall i :: p + 1 <= i < |text| ==> text[i] == '\n'))
  {
    var k := HashCount(text, p);
    if k > 0 {
      var q := LeadEnd(text, p + k);
      LeadEndSpaces(text, p + k);
      if q == |text| && k == 1 {
        var last := LastNonNewline(text, p + k, |text|);
        if (forall i :: p + 1 <= i < |text| ==> text[i] == '\n') {
          assert last.None?;
        }
      } else if q < |text| {
        assert text[q] != '\n' && p + 1 <= q;
      }
    }
  }

  /** `re.finditer` from `pos`: a match, then the search resumes where it ended. */
  function Headers(text: string, pos: nat): (hs: seq<Header>)
    requires pos <= |text|
    decreases |text| - pos
  {
    if pos == |text| then []
    else
      match MatchAt(text, pos)
      case Some(h) => [h] + Headers(text, h.end)
      case None => Headers(text, pos + 1)
  }

  /** The matches lie inside the text, each after the end of the one before. */
  predicate WellPlaced(text: string, hs: seq<Header>)
  {
    (forall i :: 0 <= i < |hs| ==> hs[i].start < hs[i].titleStart < hs[i].end <= |text|) &&
    (forall i, j :: 0 <= i < j < |hs| ==> hs[i].end <= hs[j].start)
  }

  /** The matches found from `pos` are well placed, start at or after `pos`, and each is a match where it starts. */
  lemma {:induction false} HeadersWellPlaced(text: string, pos: nat)
    requires pos <= |text|
    ensures WellPlaced(text, Headers(text, pos))
    ensures forall i :: 0 <= i < |Headers(text, pos)| ==> pos <= Headers(text, pos)[i].start
    ensures forall i :: 0 <= i < |Headers(text, pos)| ==> MatchAt(text, Headers(text, pos)[i].start) == Some(Headers(text, pos)[i])
    decreases |text| - pos
  {
    if pos < |text| {
      match MatchAt(text, pos)
      case Some(h) =>
        HeadersWellPlaced(text, h.end);
        var rest := Headers(text, h.end);
        assert Headers(text, pos) == [h] + rest;
        WellPlacedCons(text, h, rest);
        MatchesCons(text, h, rest);
      case None =>
        HeadersWellPlaced(text, pos + 1);
    }
  }

  lemma WellPlacedCons(text: string, h: Header, rest: seq<Header>)
    requires h.start < h.titleStart < h.end <= |text| && WellPlaced(text, rest)
    requires forall i :: 0 <= i < |rest| ==> h.end <= rest[i].start
    ensures WellPlaced(text, [h] + rest) && forall i :: 0 <= i < |rest| + 1 ==> h.start <= ([h] + rest)[i].start
  {
  }

  lemma MatchesCons(text: string, h: Header, rest: seq<Header>)
    requires h.start <= |text| && MatchAt(text, h.start) == Some(h)
    requires forall i :: 0 <= i < |rest| ==> rest[i].start <= |text| && MatchAt(text, rest[i].start) == Some(rest[i])
    ensures forall i :: 0 <= i < |rest| + 1 ==> ([h] + rest)[i].start <= |text| && MatchAt(text, ([h] + rest)[i].start) == Some(([h] + rest)[i])
  {
    forall i | 0 <= i < |rest| + 1
      ensures ([h] + rest)[i].start <= |text| && MatchAt(text, ([h] + rest)[i].start) == Some(([h] + rest)[i])
    {
      if i > 0 {
        assert ([h] + rest)[i] == rest[i - 1];
      }
    }
  }

  /** No match is found from `pos` exactly when no position from `pos` on matches. */
  lemma {:induction false} HeadersEmptyIff(text: string, pos: nat)
    requires pos <= |text|
    ensures Headers(text, pos) == [] <==> forall p :: pos <= p <= |text| ==> MatchAt(text, p).None?
    decreases |text| - pos
  {
    if pos < |text| {
      match MatchAt(text, pos)
      case Some(h) =>
      case None =>
        HeadersEmptyIff(text, pos + 1);
        if Headers(text, pos) == [] {
          forall p | pos <= p <= |text|
            ensures MatchAt(text, p).None?
          {
            if p > pos {
              assert pos + 1 <= p;
            }
          }
        }
    } else {
      forall p | pos <= p <= |text|
        ensures MatchAt(text, p).None?
      {
        assert p == |text|;
      }
    }
  }

  // ---------------------------------------------------------------------
  // `_parse_markdown_sections`.

  /** Section `i`: the stripped title, and the stripped text up to the next header (or the end). */
  function SectionAt(text: string, hs: seq<Header>, i: nat): (string, string)
    requires WellPlaced(text, hs) && i < |hs|
  {
    var bodyEnd := if i + 1 < |hs| then hs[i + 1].start else |text|;
    (Strip(text[hs[i].titleStart..hs[i].end]), Strip(text[hs[i].end..bodyEnd]))
  }

  /** The (title, body) pair of every match, in order. */
  function SectionsOf(text: string, hs: seq<Header>): (secs: seq<(string, string)>)
    requires WellPlaced(text, hs)
    ensures |secs| == |hs| && forall i :: 0 <= i < |hs| ==> secs[i] == SectionAt(text, hs, i)
  {
    seq(|hs|, i requires 0 <= i < |hs| => SectionAt(text, hs, i))
  }

  /** The (title, body) pairs of the text, in the order of their headers. */
  function Sections(text: string): (secs: seq<(string, string)>)
  {
    HeadersWellPlaced(text, 0);
    SectionsOf(text, Headers(text, 0))
  }

  /** `_parse_markdown_sections`: one pair per header match, built in a loop. */
  method ParseMarkdownSections(userText: string) returns (sections: seq<(string, string)>)
    ensures sections == Sections(userText)
  {
    var matches := Headers(userText, 0);
    HeadersWellPlaced(userText, 0);
    if matches == [] {
      return [];
    }
    sections := [];
    var i := 0;
    while i < |matches|
      invariant 0 <= i <= |matches|
      invariant sections == SectionsOf(userText, matches)[..i]
    {
      var m := matches[i];
      var end := if i + 1 < |matches| then matches[i + 1].start else |userText|;
      SectionBounds(userText, matches, i);
      var title := Strip(userText[m.titleStart..m.end]);
      var start := m.end;
      var body := Strip(userText[start..end]);
      SectionStep(userText, matches, sections, i);
      sections := sections + [(title, body)];
      i := i + 1;
    }
  }

  /** The slices a section takes are inside the text. */
  lemma SectionBounds(text: string, hs: seq<Header>, i: nat)
    requires WellPlaced(text, hs) && i < |hs|
    ensures hs[i].titleStart <= hs[i].end <= (if i + 1 < |hs| then hs[i + 1].start else |text|) <= |text|
  {
    if i + 1 < |hs| {
      assert hs[i].end <= hs[i + 1].start;
    }
  }

  lemma SectionStep(text: string, hs: seq<Header>, secs: seq<(string, string)>, i: nat)
    requires WellPlaced(text, hs) && i < |hs|
    requires secs == SectionsOf(text, hs)[..i]
    ensures secs + [SectionAt(text, hs, i)] == SectionsOf(text, hs)[..i + 1]
  {
  }

  /** There are no sections exactly when no position of the text starts a header. */
  lemma SectionsEmptyIff(text: string)
    ensures Sections(text) == [] <==> forall p :: 0 <= p <= |text| ==> MatchAt(text, p).None?
  {
    HeadersEmptyIff(text, 0);
  }

  /**
   * Titles and bodies are stripped, and the body of a section is the text
   * between the end of its header line and the start of the next header.
   */
  lemma SectionsShape(text: string)
    ensures var hs := Headers(text, 0);
      |Sections(text)| == |hs| && WellPlaced(text, hs)
    ensures var hs := Headers(text, 0);
      forall i :: 0 <= i < |hs| ==>
        && MatchAt(text, hs[i].start) == Some(hs[i])
        && Sections(text)[i].0 == Strip(text[hs[i].titleStart..hs[i].end])
        && Sections(text)[i].1 == Strip(text[hs[i].end..if i + 1 < |hs| then hs[i + 1].start else |text|])
        && Strip(Sections(text)[i].0) == Sections(text)[i].0
        && Strip(Sections(text)[i].1) == Sections(text)[i].1
  {
    HeadersWellPlaced(text, 0);
    forall i | 0 <= i < |Headers(text, 0)| {
      SectionShape(text, i);
    }
  }

  /** Section `i` of the text: its header matches, and its title and body are the stripped slices. */
  lemma SectionShape(text: string, i: nat)
    requires i < |Headers(text, 0)|
    ensures var hs := Headers(text, 0);
      WellPlaced(text, hs) && |Sections(text)| == |hs|
      && MatchAt(text, hs[i].start) == Some(hs[i])
      && Sections(text)[i].0 == Strip(text[hs[i].titleStart..hs[i].end])
      && Sections(text)[i].1 == Strip(text[hs[i].end..if i + 1 < |hs| then hs[i + 1].start else |text|])
      && Strip(Sections(text)[i].0) == Sections(text)[i].0
      && Strip(Sections(text)[i].1) == Sections(text)[i].1
  {
    var hs := Headers(text, 0);
    HeadersWellPlaced(text, 0);
    assert Sections(text)[i] == SectionAt(text, hs, i);
    SectionAtStripped(text, hs, i);
  }

  /** Both halves of a section are already stripped. */
  lemma SectionAtStripped(text: string, hs: seq<Header>, i: nat)
    requires WellPlaced(text, hs) && i < |hs|
    ensures Strip(SectionAt(text, hs, i).0) == SectionAt(text, hs, i).0
    ensures Strip(SectionAt(text, hs, i).1) == SectionAt(text, hs, i).1
  {
    var bodyEnd := if i + 1 < |hs| then hs[i + 1].start else |text|;
    SectionBounds(text, hs, i);
    StripIdempotent(text[hs[i].titleStart..hs[i].end]);
    StripIdempotent(text[hs[i].end..bodyEnd]);
  }

  /** No space is needed after the hashes: `"#Title"` is a header with an empty body. */
  lemma NoSpaceNeededAfterHashes()
    ensures Sections("#Title") == [("Title", "")]
  {
    var text := "#Title";
    assert LeadEnd(text, 1) == 1;
    assert LineEnd(text, 1) == 6;
    var h := Header(0, 1, 6);
    assert MatchAt(text, 0) == Some(h);
    assert Headers(text, 0) == [h];
    StripUnchanged("Title");
    assert text[1..6] == "Title";
  }

  // ---------------------------------------------------------------------
  // `_compose_prompt_ready`.

  /** The keys shown in the Super-Prompt box, in display order. */
  const ComposeOrder: seq<string> := ["system", "audience", "purpose", "tone", "confidence", "depth", "task", "context", "format"]

  /** `parts.get(key)`. */
  function PartValue(parts: map<string, Option<string>>, key: string): Option<string>
  {
    if key in parts then parts[key] else None
  }

  /** A key is skipped when its value is None or strips to "". */
  predicate Blank(parts: map<string, Option<string>>, key: string)
  {
    PartValue(parts, key).None? || AllSpace(PartValue(parts, key).value)
  }

  /** The lines a key contributes: its upper-cased header, the stripped value and a blank line. */
  function Block(parts: map<string, Option<string>>, key: string): seq<string>
  {
    var v := PartValue(parts, key);
    if v.None? || Strip(v.value) == [] then [] else ["## " + ToUpper(key), Strip(v.value), ""]
  }

  /** A key contributes no lines exactly when it is blank. */
  lemma BlockEmptyIff(parts: map<string, Option<string>>, key: string)
    ensures Block(parts, key) == [] <==> Blank(parts, key)
  {
    if PartValue(parts, key).Some? {
      StripEmptyIff(PartValue(parts, key).value);
    }
  }

  function ComposeLines(parts: map<string, Option<string>>, keys: seq<string>): seq<string>
    decreases |keys|
  {
    if keys == [] then [] else Block(parts, keys[0]) + ComposeLines(parts, keys[1..])
  }

  /** The blocks of `keys` appended to `lines`, then everything joined by newlines and stripped. */
  function ComposeFrom(parts: map<string, Option<string>>, keys: seq<string>, lines: seq<string>): string
    decreases |keys|
  {
    if keys == [] then Strip(Join(lines, "\n")) else ComposeFrom(parts, keys[1..], lines + Block(parts, keys[0]))
  }

  /** The composed Super-Prompt text. */
  function ComposePromptReady(parts: map<string, Option<string>>): string
  {
    ComposeFrom(parts, ComposeOrder, [])
  }

  /** Composing is joining and stripping the lines of all blocks. */
  lemma {:induction false} ComposeFromLines(parts: map<string, Option<string>>, keys: seq<string>, lines: seq<string>)
    ensures ComposeFrom(parts, keys, lines) == Strip(Join(lines + ComposeLines(parts, keys), "\n"))
    decreases |keys|
  {
    if keys == [] {
      assert lines + [] == lines;
    } else {
      ComposeFromLines(parts, keys[1..], lines + Block(parts, keys[0]));
      AppendAssoc(lines, Block(parts, keys[0]), ComposeLines(parts, keys[1..]));
    }
  }

  /** `_compose_prompt_ready`: the lines collected over the display order, joined and stripped. */
  method BuildPromptReady(parts: map<string, Option<string>>) returns (r: string)
    ensures r == ComposePromptReady(parts)
  {
    var lines := CollectLines(parts, ComposeOrder);
    r := Strip(Join(lines, "\n"));
    ComposeFromLines(parts, ComposeOrder, []);
    assert [] + lines == lines;
  }

  /** The loop of `_compose_prompt_ready`: the block of each key in turn, skipping None and blank values. */
  method CollectLines(parts: map<string, Option<string>>, order: seq<string>) returns (lines: seq<string>)
    ensures lines == ComposeLines(parts, order)
  {
    lines := [];
    var i := 0;
    while i < |order|
      invariant 0 <= i <= |order|
      invariant lines + ComposeLines(parts, order[i..]) == ComposeLines(parts, order)
    {
      ghost var old_lines := lines;
      var key := order[i];
      var val := PartValue(parts, key);
      ComposeLinesStep(parts, order, i);
      ghost var block := Block(parts, key);
      if val.Some? {
        var txt := Strip(val.value);
        if txt != [] {
          lines := lines + ["## " + ToUpper(key), txt, ""];
        } else {
          assert block == [];
        }
      } else {
        assert block == [];
      }
      assert lines == old_lines + block;
      AppendAssoc(old_lines, block, ComposeLines(parts, order[i + 1..]));
      i := i + 1;
    }
    assert order[i..] == [];
  }

  lemma ComposeLinesStep(parts: map<string, Option<string>>, order: seq<string>, i: nat)
    requires i < |order|
    ensures ComposeLines(parts, order[i..]) == Block(parts, order[i]) + ComposeLines(parts, order[i + 1..])
  {
    assert order[i..][1..] == order[i + 1..];
  }

  /** Composing `a + b` puts the blocks of `a` before those of `b`. */
  lemma {:induction false} ComposeLinesAppend(parts: map<string, Option<string>>, a: seq<string>, b: seq<string>)
    ensures ComposeLines(parts, a + b) == ComposeLines(parts, a) + ComposeLines(parts, b)
    decreases |a|
  {
    if a != [] {
      assert (a + b)[0] == a[0] && (a + b)[1..] == a[1..] + b;
      ComposeLinesAppend(parts, a[1..], b);
      AppendAssoc(Block(parts, a[0]), ComposeLines(parts, a[1..]), ComposeLines(parts, b));
    } else {
      assert a + b == b;
    }
  }

  /**
   * The blocks follow the display order: the block of the key at position
   * `i` comes after those of the keys before it and before those after it.
   */
  lemma ComposeLinesOrder(parts: map<string, Option<string>>, keys: seq<string>, i: nat)
    requires i < |keys|
    ensures ComposeLines(parts, keys) ==
      ComposeLines(parts, keys[..i]) + Block(parts, keys[i]) + ComposeLines(parts, keys[i + 1..])
  {
    var rest := keys[i..];
    assert keys == keys[..i] + rest;
    ComposeLinesAppend(parts, keys[..i], rest);
    assert rest[0] == keys[i] && rest[1..] == keys[i + 1..];
    assert ComposeLines(parts, rest) == Block(parts, keys[i]) + ComposeLines(parts, keys[i + 1..]);
    AppendAssoc(ComposeLines(parts, keys[..i]), Block(parts, keys[i]), ComposeLines(parts, keys[i + 1..]));
  }

  /** No line is produced exactly when every key is blank; otherwise the first line is a header. */
  lemma {:induction false} ComposeLinesEmptyIff(parts: map<string, Option<string>>, keys: seq<string>)
    ensures ComposeLines(parts, keys) == [] <==> forall k :: k in keys ==> Blank(parts, k)
    ensures ComposeLines(parts, keys) != [] ==> ComposeLines(parts, keys)[0] != [] && ComposeLines(parts, keys)[0][0] == '#'
    decreases |keys|
  {
    if keys != [] {
      BlockEmptyIff(parts, keys[0]);
      ComposeLinesEmptyIff(parts, keys[1..]);
      assert forall k :: k in keys <==> k == keys[0] || k in keys[1..];
    }
  }

  /** The first character of a join is the first character of its first piece. */
  lemma JoinHead(ws: seq<string>, sep: string)
    requires ws != [] && ws[0] != []
    ensures Join(ws, sep) != [] && Join(ws, sep)[0] == ws[0][0]
  {
  }

  /**
   * The composed text is "" exactly when every displayed key is None or
   * blank, and it never has whitespace at either end.
   */
  lemma ComposeEmptyIff(parts: map<string, Option<string>>)
    ensures ComposePromptReady(parts) == [] <==> forall k :: k in ComposeOrder ==> Blank(parts, k)
    ensures Strip(ComposePromptReady(parts)) == ComposePromptReady(parts)
  {
    var lines := ComposeLines(parts, ComposeOrder);
    ComposeFromLines(parts, ComposeOrder, []);
    assert [] + lines == lines;
    ComposeLinesEmptyIff(parts, ComposeOrder);
    JoinedHeaders(lines);
  }

  /** Lines that start with a header line join and strip to "" only when there are none. */
  lemma JoinedHeaders(lines: seq<string>)
    requires lines != [] ==> lines[0] != [] && lines[0][0] == '#'
    ensures Strip(Join(lines, "\n")) == [] <==> lines == []
    ensures Strip(Strip(Join(lines, "\n"))) == Strip(Join(lines, "\n"))
  {
    StripEmptyIff(Join(lines, "\n"));
    if lines != [] {
      JoinHead(lines, "\n");
      assert !IsSpace(Join(lines, "\n")[0]);
    }
    StripIdempotent(Join(lines, "\n"));
  }

  /**
   * Only the displayed keys matter: parts that agree on them compose to the
   * same text, so composing `sp.body` itself is composing the dict of
   * `sp.body.get(k)` that `preprocess` and A2 hand over.
   */
  lemma {:induction false} ComposeLinesAgree(parts: map<string, Option<string>>, parts': map<string, Option<string>>, keys: seq<string>)
    requires forall k :: k in keys ==> PartValue(parts, k) == PartValue(parts', k)
    ensures ComposeLines(parts, keys) == ComposeLines(parts', keys)
    decreases |keys|
  {
    if keys != [] {
      assert keys[0] in keys;
      ComposeLinesAgree(parts, parts', keys[1..]);
    }
  }

  // ---------------------------------------------------------------------
  // `preprocess`.

  /** The canonical key `NameMatcher.resolve` gives a header, None when unknown. */
  function ResolvedKey(schema: Schema, raw: string): Option<string>
  {
    Resolve(schema, raw).0
  }

  /** Step 3: the sections folded into `mapped`; unknown headers are skipped and a later section overwrites an earlier one. */
  function MapSections(schema: Schema, secs: seq<(string, string)>, mapped: map<string, string>): map<string, string>
    decreases |secs|
  {
    if secs == [] then mapped
    else
      var key := ResolvedKey(schema, secs[0].0);
      MapSections(schema, secs[1..], if key.Some? then mapped[key.value := secs[0].1] else mapped)
  }

  /** Step 3 as `preprocess` runs it, one section at a time. */
  method MapHeaders(schema: Schema, sections: seq<(string, string)>) returns (mapped: map<string, string>)
    ensures mapped == MapSections(schema, sections, map[])
  {
    mapped := map[];
    var i := 0;
    while i < |sections|
      invariant 0 <= i <= |sections|
      invariant MapSections(schema, sections[i..], mapped) == MapSections(schema, sections, map[])
    {
      var (raw, body) := sections[i];
      var (canonicalKey, _) := Resolve(schema, raw);
      assert sections[i..][1..] == sections[i + 1..];
      if canonicalKey.Some? {
        mapped := mapped[canonicalKey.value := body];
      }
      i := i + 1;
    }
    assert sections[i..] == [];
  }

  /**
   * A key ends up mapped exactly when it was mapped before or some header
   * resolves to it, and without such a header the earlier value stays.
   */
  lemma {:induction false} MapSectionsKeys(schema: Schema, secs: seq<(string, string)>, mapped: map<string, string>, k: string)
    ensures k in MapSections(schema, secs, mapped) <==>
      (k in mapped || exists i :: 0 <= i < |secs| && ResolvedKey(schema, secs[i].0) == Some(k))
    ensures (forall i :: 0 <= i < |secs| ==> ResolvedKey(schema, secs[i].0) != Some(k)) && k in mapped ==>
      MapSections(schema, secs, mapped)[k] == mapped[k]
    decreases |secs|
  {
    if secs != [] {
      var key := ResolvedKey(schema, secs[0].0);
      var next := if key.Some? then mapped[key.value := secs[0].1] else mapped;
      MapSectionsKeys(schema, secs[1..], next, k);
      assert forall i :: 1 <= i < |secs| ==> secs[i] == secs[1..][i - 1];
      assert MapSections(schema, secs, mapped) == MapSections(schema, secs[1..], next);
    }
  }

  /** The last section whose header resolves to a key gives that key its text: later headers win. */
  lemma {:induction false} MapSectionsLastWins(schema: Schema, secs: seq<(string, string)>, mapped: map<string, string>,
                                               k: string, i: nat)
    requires i < |secs| && ResolvedKey(schema, secs[i].0) == Some(k)
    requires forall j :: i < j < |secs| ==> ResolvedKey(schema, secs[j].0) != Some(k)
    ensures k in MapSections(schema, secs, mapped) && MapSections(schema, secs, mapped)[k] == secs[i].1
    decreases |secs|
  {
    var key := ResolvedKey(schema, secs[0].0);
    var next := if key.Some? then mapped[key.value := secs[0].1] else mapped;
    var rest := secs[1..];
    assert MapSections(schema, secs, mapped) == MapSections(schema, rest, next);
    forall j | i <= j < |rest|
      ensures ResolvedKey(schema, rest[j].0) != Some(k)
    {
      assert rest[j] == secs[j + 1];
    }
    if i > 0 {
      assert rest[i - 1] == secs[i];
      MapSectionsLastWins(schema, rest, next, k, i - 1);
    } else {
      MapSectionsKeys(schema, rest, next, k);
    }
  }

  /**
   * Step 4, the task rule: a missing or blank task takes the stripped
   * context when that is not blank (the context is then emptied), and
   * otherwise the whole stripped prompt.
   */
  function TaskRule(mapped: map<string, string>, userText: string): map<string, string>
  {
    if "task" !in mapped || AllSpace(mapped["task"]) then
      var contextText := if "context" in mapped then Strip(mapped["context"]) else "";
      if contextText != [] then mapped["task" := contextText]["context" := ""]
      else mapped["task" := Strip(userText)]
    else mapped
  }

  /** A must key needs its default when it is missing or blank. */
  predicate NeedsDefault(m: map<string, string>, k: string)
  {
    k !in m || AllSpace(m[k])
  }

  /** Step 4 for one key: `default_for` it when it is a must key of `done` other than "task" that needs it. */
  function FillValue(schema: Schema, m: map<string, string>, done: set<string>, k: string): string
    requires k in m || (k in done && k != "task")
  {
    if k in done && k != "task" && NeedsDefault(m, k) then DefaultFor(schema, k) else m[k]
  }

  /** Step 4, the must defaults for the keys of `done`. */
  function FillMustOn(schema: Schema, m: map<string, string>, done: set<string>): map<string, string>
  {
    map k | k in m.Keys + (done - {"task"}) :: FillValue(schema, m, done, k)
  }

  /** `(mapped.get(k) or "").strip()` is not empty. */
  function KeepsText(mapped: map<string, string>, k: string): (b: bool)
    ensures b <==> !NeedsDefault(mapped, k)
  {
    StripEmptyIff(if k in mapped then mapped[k] else "");
    k in mapped && Strip(mapped[k]) != []
  }

  /** Step 4 over `must_keys` in whatever order the set yields them. */
  method FillMustDefaults(schema: Schema, mapped0: map<string, string>) returns (mapped: map<string, string>)
    ensures mapped == FillMustOn(schema, mapped0, schema.mustKeys)
  {
    mapped := mapped0;
    var todo := schema.mustKeys;
    FillNothing(schema, mapped0);
    assert schema.mustKeys - todo == {};
    while todo != {}
      invariant todo <= schema.mustKeys
      invariant mapped == FillMustOn(schema, mapped0, schema.mustKeys - todo)
      decreases |todo|
    {
      var mustKey :| mustKey in todo;
      ghost var before := mapped;
      var needsDefault := mustKey != "task" && !KeepsText(mapped, mustKey);
      if needsDefault {
        mapped := mapped[mustKey := DefaultFor(schema, mustKey)];
      }
      FillLoopStep(schema, mapped0, todo, mustKey, needsDefault, before, mapped);
      todo := todo - {mustKey};
    }
    assert schema.mustKeys - todo == schema.mustKeys;
  }

  lemma FillNothing(schema: Schema, m0: map<string, string>)
    ensures FillMustOn(schema, m0, {}) == m0
  {
  }

  lemma FillLoopStep(schema: Schema, m0: map<string, string>, todo: set<string>, k: string, needsDefault: bool,
                     before: map<string, string>, after: map<string, string>)
    requires k in todo && todo <= schema.mustKeys && before == FillMustOn(schema, m0, schema.mustKeys - todo)
    requires needsDefault == (k != "task" && !KeepsText(before, k))
    requires after == if needsDefault then before[k := DefaultFor(schema, k)] else before
    ensures after == FillMustOn(schema, m0, schema.mustKeys - (todo - {k}))
  {
    FillStep(schema, m0, schema.mustKeys - todo, k, before, after);
    assert schema.mustKeys - (todo - {k}) == (schema.mustKeys - todo) + {k};
  }

  lemma FillStep(schema: Schema, m0: map<string, string>, done: set<string>, k: string,
                 before: map<string, string>, after: map<string, string>)
    requires k !in done && before == FillMustOn(schema, m0, done)
    requires after == if k != "task" && NeedsDefault(before, k) then before[k := DefaultFor(schema, k)] else before
    ensures after == FillMustOn(schema, m0, done + {k})
  {
    FillAt(schema, m0, done, k);
    FillKeys(schema, m0, done, k);
    if k != "task" && NeedsDefault(before, k) {
      FillStepDefault(schema, m0, done, k, before);
    } else {
      FillStepKeep(schema, m0, done, k, before);
    }
  }

  lemma FillStepDefault(schema: Schema, m0: map<string, string>, done: set<string>, k: string, before: map<string, string>)
    requires k !in done && before == FillMustOn(schema, m0, done) && k != "task" && NeedsDefault(m0, k)
    requires FillMustOn(schema, m0, done + {k}).Keys == before.Keys + {k}
    ensures before[k := DefaultFor(schema, k)] == FillMustOn(schema, m0, done + {k})
  {
    var want := FillMustOn(schema, m0, done + {k});
    forall x | x in want
      ensures before[k := DefaultFor(schema, k)][x] == want[x]
    {
      if x != k {
        FillShift(schema, m0, done, k, x);
      } else {
        assert want[k] == FillValue(schema, m0, done + {k}, k);
      }
    }
  }

  lemma FillStepKeep(schema: Schema, m0: map<string, string>, done: set<string>, k: string, before: map<string, string>)
    requires k !in done && before == FillMustOn(schema, m0, done) && (k == "task" || !NeedsDefault(m0, k))
    requires (k in before <==> k in m0) && (k in m0 ==> before[k] == m0[k])
    requires FillMustOn(schema, m0, done + {k}).Keys == before.Keys + (if k != "task" then {k} else {})
    ensures before == FillMustOn(schema, m0, done + {k})
  {
    var want := FillMustOn(schema, m0, done + {k});
    assert want.Keys == before.Keys;
    forall x | x in want
      ensures before[x] == want[x]
    {
      if x != k {
        FillShift(schema, m0, done, k, x);
      } else {
        assert want[k] == FillValue(schema, m0, done + {k}, k);
      }
    }
  }

  /** Before key `k` is handled, it holds its mapped text (or is missing). */
  lemma FillAt(schema: Schema, m0: map<string, string>, done: set<string>, k: string)
    requires k !in done
    ensures var before := FillMustOn(schema, m0, done);
      (k in before <==> k in m0) && (k in m0 ==> before[k] == m0[k])
  {
  }

  /** Handling a key other than "task" adds it to the keys. */
  lemma FillKeys(schema: Schema, m0: map<string, string>, done: set<string>, k: string)
    ensures FillMustOn(schema, m0, done + {k}).Keys ==
      FillMustOn(schema, m0, done).Keys + (if k != "task" then {k} else {})
  {
  }

  /** Handling key `k` leaves every other key's value as it was. */
  lemma FillShift(schema: Schema, m0: map<string, string>, done: set<string>, k: string, x: string)
    requires x != k && x in FillMustOn(schema, m0, done + {k})
    ensures x in FillMustOn(schema, m0, done)
    ensures FillMustOn(schema, m0, done + {k})[x] == FillMustOn(schema, m0, done)[x]
  {
    assert FillMustOn(schema, m0, done + {k})[x] == FillValue(schema, m0, done + {k}, x);
    assert FillMustOn(schema, m0, done)[x] == FillValue(schema, m0, done, x);
  }

  /** The body writes: each listed key that is mapped gets its text. */
  function WriteKeys(body: map<string, Option<string>>, mapped: map<string, string>, keys: seq<string>)
    : map<string, Option<string>>
    decreases |keys|
  {
    if keys == [] then body
    else WriteKeys(if keys[0] in mapped then body[keys[0] := Some(mapped[keys[0]])] else body, mapped, keys[1..])
  }

  lemma {:induction false} WriteKeysAt(body: map<string, Option<string>>, mapped: map<string, string>, keys: seq<string>, k: string)
    ensures k in WriteKeys(body, mapped, keys) <==> k in body || (k in keys && k in mapped)
    ensures k in WriteKeys(body, mapped, keys) ==>
      WriteKeys(body, mapped, keys)[k] == if k in keys && k in mapped then Some(mapped[k]) else body[k]
    decreases |keys|
  {
    if keys != [] {
      var next := if keys[0] in mapped then body[keys[0] := Some(mapped[keys[0]])] else body;
      WriteKeysAt(next, mapped, keys[1..], k);
      assert k in keys <==> k == keys[0] || k in keys[1..];
    }
  }

  /** Steps 3 and 4: what `mapped` holds before the body is written. */
  function Mapped(schema: Schema, secs: seq<(string, string)>, userText: string): map<string, string>
  {
    FillMustOn(schema, TaskRule(MapSections(schema, secs, map[]), userText), schema.mustKeys)
  }

  /** The body after the header path: the mapped body keys written, and an emptied context made None. */
  function HeaderBody(body: map<string, Option<string>>, mapped: map<string, string>): map<string, Option<string>>
  {
    var written := WriteKeys(body, mapped, BodyKeys);
    if "context" in mapped && mapped["context"] == "" then written["context" := None] else written
  }

  /** The body `preprocess` leaves, given the sections of the prompt. */
  function BodyAfter(body: map<string, Option<string>>, userText: string, secs: seq<(string, string)>, schema: Schema)
    : map<string, Option<string>>
  {
    if secs == [] then body["task" := Some(Strip(userText))]
    else HeaderBody(body, Mapped(schema, secs, userText))
  }

  /** The body writes of `preprocess`: each listed key of `mapped` into `sp.body`, one key at a time. */
  method WriteBody(sp: SuperPrompt, mapped: map<string, string>, keys: seq<string>)
    modifies sp
    ensures sp.body == WriteKeys(old(sp.body), mapped, keys)
    ensures sp.Untouched() == old(sp.Untouched()) && sp.promptReady == old(sp.promptReady)
    ensures sp.historyOfStages == old(sp.historyOfStages) && sp.stage == old(sp.stage)
  {
    ghost var body0 := sp.body;
    var i := 0;
    while i < |keys|
      invariant 0 <= i <= |keys|
      invariant WriteKeys(sp.body, mapped, keys[i..]) == WriteKeys(body0, mapped, keys)
      invariant sp.Untouched() == old(sp.Untouched()) && sp.promptReady == old(sp.promptReady)
      invariant sp.historyOfStages == old(sp.historyOfStages) && sp.stage == old(sp.stage)
    {
      var k := keys[i];
      assert keys[i..][1..] == keys[i + 1..];
      if k in mapped {
        sp.body := sp.body[k := Some(mapped[k])];
      }
      i := i + 1;
    }
    assert keys[i..] == [];
  }

  /**
   * Step 5 of `preprocess`: the ten body keys written from `mapped`, and
   * an emptied context made None.
   */
  method ApplySections(sp: SuperPrompt, mapped: map<string, string>)
    modifies sp
    ensures sp.body == HeaderBody(old(sp.body), mapped)
    ensures sp.Untouched() == old(sp.Untouched()) && sp.promptReady == old(sp.promptReady)
    ensures sp.historyOfStages == old(sp.historyOfStages) && sp.stage == old(sp.stage)
  {
    WriteBody(sp, mapped, BodyKeys);
    if "context" in mapped && mapped["context"] == "" {
      sp.SetBody(sp.body["context" := None]);
    }
  }

  /** Steps 3 and 4 of `preprocess` on local values: the sections mapped, then the task rule, then the must defaults. */
  method BuildMapped(schema: Schema, sections: seq<(string, string)>, userText: string) returns (mapped: map<string, string>)
    ensures mapped == Mapped(schema, sections, userText)
  {
    mapped := MapHeaders(schema, sections);
    ghost var step3 := mapped;
    if !KeepsText(mapped, "task") {
      var contextText := if "context" in mapped then Strip(mapped["context"]) else "";
      if contextText != [] {
        mapped := mapped["task" := contextText]["context" := ""];
      } else {
        mapped := mapped["task" := Strip(userText)];
      }
    }
    assert mapped == TaskRule(step3, userText);
    mapped := FillMustDefaults(schema, mapped);
  }

  /** Step 6, shared with A2: `prompt_ready` recomposed from the body, and the stage recorded. */
  method FinishStage(sp: SuperPrompt, stage: string)
    modifies sp
    ensures sp.body == old(sp.body) && sp.promptReady == ComposePromptReady(old(sp.body))
    ensures sp.historyOfStages == old(sp.historyOfStages) + [stage] && sp.stage == stage
    ensures sp.Untouched() == old(sp.Untouched())
  {
    var ready := BuildPromptReady(sp.body);
    sp.CloseStage(ready, stage);
  }

  /**
   * `preprocess` with the must keys read from `must_keys`: with no header
   * the stripped prompt becomes the task; otherwise the header path runs.
   * Both paths recompose `prompt_ready` and record the stage.
   */
  method Preprocess(userText: string, sp: SuperPrompt, schema: Schema)
    modifies sp
    ensures sp.body == BodyAfter(old(sp.body), userText, Sections(userText), schema)
    ensures sp.promptReady == ComposePromptReady(sp.body)
    ensures sp.historyOfStages == old(sp.historyOfStages) + ["preprocessed"] && sp.stage == "preprocessed"
    ensures sp.Untouched() == old(sp.Untouched())
  {
    var sections := ParseMarkdownSections(userText);
    if sections == [] {
      sp.body := sp.body["task" := Some(Strip(userText))];
    } else {
      var mapped := BuildMapped(schema, sections, userText);
      ApplySections(sp, mapped);
    }
    FinishStage(sp, "preprocessed");
  }

  /**
   * `preprocess` as written: step 4 reads `schema.must`, an attribute
   * `PromptSchema` does not have, so every prompt with a header raises
   * AttributeError there; steps 3 and the task rule only touched local
   * values, so `sp` is as it was. Prompts without headers take the plain
   * path unharmed.
   */
  method PreprocessAsWritten(userText: string, sp: SuperPrompt, schema: Schema) returns (err: Option<Error>)
    modifies sp
    ensures Sections(userText) != [] ==>
      err == Some(AttributeError("'PromptSchema' object has no attribute 'must'"))
      && sp.body == old(sp.body) && sp.promptReady == old(sp.promptReady)
      && sp.historyOfStages == old(sp.historyOfStages) && sp.stage == old(sp.stage)
    ensures Sections(userText) == [] ==>
      err == None && sp.body == BodyAfter(old(sp.body), userText, Sections(userText), schema)
      && sp.promptReady == ComposePromptReady(sp.body)
      && sp.historyOfStages == old(sp.historyOfStages) + ["preprocessed"] && sp.stage == "preprocessed"
    ensures sp.Untouched() == old(sp.Untouched())
  {
    var sections := ParseMarkdownSections(userText);
    if sections == [] {
      sp.body := sp.body["task" := Some(Strip(userText))];
      FinishStage(sp, "preprocessed");
      return None;
    }
    return Some(AttributeError("'PromptSchema' object has no attribute 'must'"));
  }

  /** A prompt with a header never gets past step 4 as written: it always fails. */
  lemma PreprocessAsWrittenFailsOnHeaders(text: string)
    requires exists p :: 0 <= p <= |text| && MatchAt(text, p).Some?
    ensures Sections(text) != []
  {
    SectionsEmptyIff(text);
  }

  // ---------------------------------------------------------------------
  // Properties of `preprocess`.

  /**
   * A prompt in which no line starts a header becomes the stripped task,
   * and every other body key keeps its value.
   */
  lemma PlainPromptIsTask(body: map<string, Option<string>>, userText: string, schema: Schema)
    requires forall p :: 0 <= p <= |userText| ==> MatchAt(userText, p).None?
    ensures var b := BodyAfter(body, userText, Sections(userText), schema);
      b.Keys == body.Keys + {"task"} && b["task"] == Some(Strip(userText)) &&
      forall k :: k in body && k != "task" ==> b[k] == body[k]
  {
    SectionsEmptyIff(userText);
  }

  /**
   * Only the ten body keys are ever written: any other key (a
   * `confidence` header, say) neither appears in nor changes the body.
   */
  lemma OnlyBodyKeysWritten(body: map<string, Option<string>>, userText: string, secs: seq<(string, string)>,
                            schema: Schema, k: string)
    requires k !in BodyKeys
    ensures var b := BodyAfter(body, userText, secs, schema);
      (k in b <==> k in body) && (k in body ==> b[k] == body[k])
  {
    assert k != "context" && k != "task";
    if secs != [] {
      WriteKeysAt(body, Mapped(schema, secs, userText), BodyKeys, k);
    }
  }

  /**
   * The task after a prompt with headers: the mapped task when it is not
   * blank; else the stripped context when that is not blank, the context
   * then becoming None (unless it is itself a must key); else the whole
   * stripped prompt.
   */
  lemma TaskAndContextRule(body: map<string, Option<string>>, userText: string, secs: seq<(string, string)>, schema: Schema)
    requires secs != []
    ensures var m := MapSections(schema, secs, map[]);
      var b := BodyAfter(body, userText, secs, schema);
      && ("task" in m && !AllSpace(m["task"]) ==> PartValue(b, "task") == Some(m["task"]))
      && (("task" !in m || AllSpace(m["task"])) && "context" in m && !AllSpace(m["context"]) ==>
            PartValue(b, "task") == Some(Strip(m["context"])) &&
            ("context" !in schema.mustKeys ==> "context" in b && b["context"] == None))
      && (("task" !in m || AllSpace(m["task"])) && ("context" !in m || AllSpace(m["context"])) ==>
            PartValue(b, "task") == Some(Strip(userText)))
  {
    var m := MapSections(schema, secs, map[]);
    var t := TaskRule(m, userText);
    TaskRuleCases(m, userText);
    HeaderTaskContext(body, t, schema);
    assert BodyAfter(body, userText, secs, schema) == HeaderBody(body, FillMustOn(schema, t, schema.mustKeys));
  }

  /** The three cases of the task rule on the mapped sections. */
  lemma TaskRuleCases(m: map<string, string>, userText: string)
    ensures var t := TaskRule(m, userText);
      && "task" in t
      && ("task" in m && !AllSpace(m["task"]) ==> t["task"] == m["task"])
      && (("task" !in m || AllSpace(m["task"])) && "context" in m && !AllSpace(m["context"]) ==>
            t["task"] == Strip(m["context"]) && t["context"] == "")
      && (("task" !in m || AllSpace(m["task"])) && ("context" !in m || AllSpace(m["context"])) ==>
            t["task"] == Strip(userText))
  {
    if "context" in m {
      StripEmptyIff(m["context"]);
    }
  }

  /** The task reaches the body untouched by the must defaults, and an emptied context that is no must key becomes None. */
  lemma HeaderTaskContext(body: map<string, Option<string>>, t: map<string, string>, schema: Schema)
    requires "task" in t
    ensures var b := HeaderBody(body, FillMustOn(schema, t, schema.mustKeys));
      && PartValue(b, "task") == Some(t["task"])
      && ("context" in t && t["context"] == "" && "context" !in schema.mustKeys ==> "context" in b && b["context"] == None)
  {
    var mapped := FillMustOn(schema, t, schema.mustKeys);
    FillKeeps(schema, t, "task");
    var written := WriteKeys(body, mapped, BodyKeys);
    WriteKeysAt(body, mapped, BodyKeys, "task");
    assert "task" in written && written["task"] == Some(t["task"]);
    ContextOnlyChange(written, mapped, "task");
    if "context" in t && "context" !in schema.mustKeys {
      FillKeeps(schema, t, "context");
    }
  }

  /** The must defaults leave the task, and every key that is not a must key, as they were. */
  lemma FillKeeps(schema: Schema, t: map<string, string>, k: string)
    requires k in t && (k == "task" || k !in schema.mustKeys)
    ensures k in FillMustOn(schema, t, schema.mustKeys) && FillMustOn(schema, t, schema.mustKeys)[k] == t[k]
  {
    assert FillMustOn(schema, t, schema.mustKeys)[k] == FillValue(schema, t, schema.mustKeys, k);
  }

  /**
   * After a prompt with headers every must key other than "task" and
   * "context" is in the body: its text after the task rule when that is
   * not blank, and `default_for` it otherwise.
   */
  lemma MustKeysFilled(body: map<string, Option<string>>, userText: string, secs: seq<(string, string)>,
                       schema: Schema, k: string)
    requires secs != [] && k in schema.mustKeys && k in BodyKeys && k != "task" && k != "context"
    ensures var t := TaskRule(MapSections(schema, secs, map[]), userText);
      PartValue(BodyAfter(body, userText, secs, schema), k) ==
        Some(if NeedsDefault(t, k) then DefaultFor(schema, k) else t[k])
  {
    var t := TaskRule(MapSections(schema, secs, map[]), userText);
    HeaderMustKey(body, t, schema, k);
    assert Mapped(schema, secs, userText) == FillMustOn(schema, t, schema.mustKeys);
  }

  /** A must body key other than "task" and "context" is written with its filled value. */
  lemma HeaderMustKey(body: map<string, Option<string>>, t: map<string, string>, schema: Schema, k: string)
    requires k in schema.mustKeys && k in BodyKeys && k != "task" && k != "context"
    ensures PartValue(HeaderBody(body, FillMustOn(schema, t, schema.mustKeys)), k) ==
      Some(if NeedsDefault(t, k) then DefaultFor(schema, k) else t[k])
  {
    var mapped := FillMustOn(schema, t, schema.mustKeys);
    assert k in mapped && mapped[k] == FillValue(schema, t, schema.mustKeys, k);
    var written := WriteKeys(body, mapped, BodyKeys);
    WriteKeysAt(body, mapped, BodyKeys, k);
    assert k in written && written[k] == Some(mapped[k]);
    ContextOnlyChange(written, mapped, k);
  }

  /** The final context rule of `HeaderBody` changes nothing but the context. */
  lemma ContextOnlyChange(written: map<string, Option<string>>, mapped: map<string, string>, k: string)
    requires k != "context" && k in written
    ensures PartValue(if "context" in mapped && mapped["context"] == "" then written["context" := None] else written, k)
      == written[k]
  {
  }
}
