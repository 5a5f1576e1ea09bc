/*
 * `clean_and_window_384.py`: the raw A2 dataset rows are canonicalised
 * (keys mapped, texts normalised), items without input or labels and
 * repeated items are dropped, the rest is split, and each item's input is
 * cut into token windows that fit a fixed budget next to its label JSON,
 * which is never cut. The tokenizer, `json.dumps` and SHA-256 are
 * parameters; the shuffle before the split is not modelled.
 */
module CleanWindow {
  import opened Common
  import opened PyJson
  import opened StrOrder

  /** The total token budget of one training row (prompt, labels and EOS). */
  const TokenLimit: int := 384

  /** The four lines of the instruction every prompt starts with. */
  const InstructionLines: seq<string> := [
    "### Instruction",
    "You are A2 pass-1. Read the text below and output a STRICT JSON object",
    "with any of these keys if present: system, audience, purpose, tone, confidence, response_depth.",
    "Do not add extra keys. Do not add explanations."]

  /** `INSTRUCTION`: the four lines, one per line. */
  const Instruction: string := Join(InstructionLines, "\n")

  /** `KEY_MAP`: upper-case spellings and their canonical key. */
  const KeyMap: map<string, string> := map[
    "SYSTEM" := "system", "AUDIENCE" := "audience", "PURPOSE" := "purpose", "TONE" := "tone",
    "CONFIDENCE" := "confidence", "RESPONSE DEPTH" := "response_depth", "RESPONSE_DEPTH" := "response_depth",
    "TASK" := "task", "CONTEXT" := "context"]

  /** The six label keys, in the order `build_input_labels` visits them. */
  const LabelKeys: seq<string> := ["system", "audience", "purpose", "tone", "confidence", "response_depth"]

  /** The tokenizer: `tok(text)["input_ids"]`, `tok.decode` and `tok.eos_token_id`. */
  datatype Tokenizer = Tokenizer(encode: string -> seq<int>, decode: seq<int> -> string, eosId: Option<int>)

  /** The input half of an item. */
  datatype Input = Input(task: string, context: string)

  /** A base item: its input and its non-empty labels. */
  datatype Item = Item(input: Input, labels: map<string, string>)

  // ---------------------------------------------------------------------
  // Key and text normalisation.

  /** The spelling `canon_key` looks up: stripped, upper-cased, `_` turned into a space. */
  function LookupForm(k: string): string
  {
    ReplaceChar(ToUpper(Strip(k)), '_', ' ')
  }

  /** `canon_key`: "" stays "", a key-map spelling becomes its canonical key, anything else is stripped and lower-cased. */
  function CanonKey(k: string): string
  {
    if k == [] then []
    else if LookupForm(k) in KeyMap then KeyMap[LookupForm(k)]
    else ToLower(Strip(k))
  }

  /** A key spelled in mixed case with `_` for the space still canonicalises to its key. */
  lemma CanonKeySpelling()
    ensures CanonKey("Response_Depth") == "response_depth"
  {
    StripUnchanged("Response_Depth");
    assert LookupForm("Response_Depth") == "RESPONSE DEPTH";
  }

  /** Canonical keys are already canonical: `canon_key` applied twice is applied once. */
  lemma CanonKeyIdempotent(k: string)
    ensures CanonKey(CanonKey(k)) == CanonKey(k)
  {
    var r := CanonKey(k);
    if k == [] {
    } else if LookupForm(k) in KeyMap {
      CanonicalValues(LookupForm(k));
    } else {
      var s := Strip(k);
      StripIdempotent(k);
      LowerKeepsEnds(s);
      if r != [] {
        UpperOfLower(s);
        assert LookupForm(r) == LookupForm(k);
        LowerIdempotent(s);
      }
    }
  }

  /** Each canonical key of the key map maps to itself. */
  lemma CanonicalValues(u: string)
    requires u in KeyMap
    ensures CanonKey(KeyMap[u]) == KeyMap[u]
  {
    if u == "SYSTEM" || u == "AUDIENCE" || u == "PURPOSE" || u == "TONE" {
      CanonicalFirst(u);
    } else if u == "CONFIDENCE" || u == "TASK" || u == "CONTEXT" {
      CanonicalRest(u);
    } else {
      CanonFixed("response_depth", "RESPONSE DEPTH");
    }
  }

  lemma CanonicalFirst(u: string)
    requires u == "SYSTEM" || u == "AUDIENCE" || u == "PURPOSE" || u == "TONE"
    ensures u in KeyMap && CanonKey(KeyMap[u]) == KeyMap[u]
  {
    if u == "SYSTEM" {
      CanonFixed("system", u);
    } else if u == "AUDIENCE" {
      CanonFixed("audience", u);
    } else if u == "PURPOSE" {
      CanonFixed("purpose", u);
    } else {
      CanonFixed("tone", u);
    }
  }

  lemma CanonicalRest(u: string)
    requires u == "CONFIDENCE" || u == "TASK" || u == "CONTEXT"
    ensures u in KeyMap && CanonKey(KeyMap[u]) == KeyMap[u]
  {
    if u == "CONFIDENCE" {
      CanonFixed("confidence", u);
    } else if u == "TASK" {
      CanonFixed("task", u);
    } else {
      CanonFixed("context", u);
    }
  }

  /** A stripped key whose lookup spelling maps back to it is canonical. */
  lemma CanonFixed(v: string, u: string)
    requires v != [] && !IsSpace(v[0]) && !IsSpace(v[|v| - 1])
    requires ReplaceChar(ToUpper(v), '_', ' ') == u
    requires u in KeyMap && KeyMap[u] == v
    ensures CanonKey(v) == v
  {
    StripUnchanged(v);
  }

  /** Lower-casing neither adds nor removes whitespace, so a stripped text stays stripped. */
  lemma LowerKeepsEnds(s: string)
    requires Strip(s) == s
    ensures Strip(ToLower(s)) == ToLower(s)
  {
    var t := ToLower(s);
    if s != [] {
      var _, _ := StripIsSlice(s);
      assert !IsSpace(t[0]) && !IsSpace(t[|t| - 1]);
    }
    StripUnchanged(t);
  }

  lemma UpperOfLower(s: string)
    ensures ToUpper(ToLower(s)) == ToUpper(s)
  {
  }

  lemma LowerIdempotent(s: string)
    ensures ToLower(ToLower(s)) == ToLower(s)
  {
  }

  /** `str(s).replace("\r\n", "\n").strip()` on a text. */
  function NormStr(s: string): (r: string)
    ensures Strip(r) == r
    ensures AllSpace(ReplaceCrlf(s)) <==> r == []
  {
    StripIdempotent(ReplaceCrlf(s));
    StripEmptyIff(ReplaceCrlf(s));
    Strip(ReplaceCrlf(s))
  }

  /** `norm_text`: None gives "", any other value its `str()` normalised. */
  function NormText(v: Json): (r: string)
    ensures v.JNull? ==> r == []
    ensures Strip(r) == r
  {
    if v.JNull? then [] else NormStr(Str(v))
  }

  /** `d.get(key, "")` on a dict of texts. */
  function TextAt(d: map<string, string>, key: string): string
  {
    if key in d then d[key] else ""
  }

  // ---------------------------------------------------------------------
  // Rows to items.

  /** A map built entry by entry, a later entry overwriting an earlier one with the same key. */
  function LastMap<T>(xs: seq<T>, key: T -> string, val: T -> string): map<string, string>
    decreases |xs|
  {
    if xs == [] then map[]
    else LastMap(xs[..|xs| - 1], key, val)[key(xs[|xs| - 1]) := val(xs[|xs| - 1])]
  }

  /** The normalised value of a raw entry. */
  function EntryText(e: (string, Json)): string
  {
    NormText(e.1)
  }

  /** The canonical key of a raw entry. */
  function EntryKey(e: (string, Json)): string
  {
    CanonKey(e.0)
  }

  /** `canonize_row` on a dict's entries, in insertion order: a later entry with the same canonical key wins. */
  function CanonRow(entries: seq<(string, Json)>): map<string, string>
  {
    LastMap(entries, EntryKey, EntryText)
  }

  /** The index of the last element whose key is `k`, or -1 when there is none. */
  function LastIndex<T>(xs: seq<T>, key: T -> string, k: string): (r: int)
    ensures -1 <= r < |xs|
    decreases |xs|
  {
    if xs == [] then -1
    else if key(xs[|xs| - 1]) == k then |xs| - 1
    else LastIndex(xs[..|xs| - 1], key, k)
  }

  /** The index found has key `k` and no later element has it; -1 means no element has it. */
  lemma {:induction false} LastIndexSpec<T>(xs: seq<T>, key: T -> string, k: string)
    ensures var r := LastIndex(xs, key, k);
      && (r >= 0 ==> key(xs[r]) == k && forall j :: r < j < |xs| ==> key(xs[j]) != k)
      && (r < 0 ==> forall j :: 0 <= j < |xs| ==> key(xs[j]) != k)
    decreases |xs|
  {
    if xs != [] && key(xs[|xs| - 1]) != k {
      var init := xs[..|xs| - 1];
      LastIndexSpec(init, key, k);
      assert forall j :: 0 <= j < |init| ==> init[j] == xs[j];
    }
  }

  /** The index of the last entry whose key canonicalises to `k`, or -1 when there is none. */
  function LastWith(entries: seq<(string, Json)>, k: string): (r: int)
    ensures -1 <= r < |entries|
  {
    LastIndex(entries, EntryKey, k)
  }

  /** The entry found is the last one whose key canonicalises to `k`; -1 means none does. */
  lemma LastWithSpec(entries: seq<(string, Json)>, k: string)
    ensures var r := LastWith(entries, k);
      && (r >= 0 ==> CanonKey(entries[r].0) == k && forall j :: r < j < |entries| ==> CanonKey(entries[j].0) != k)
      && (r < 0 ==> forall j :: 0 <= j < |entries| ==> CanonKey(entries[j].0) != k)
  {
    LastIndexSpec(entries, EntryKey, k);
  }

  /**
   * A canonical key is present exactly when some entry canonicalises to
   * it, and it holds the normalised value of the last such entry.
   */
  lemma CanonRowAt(entries: seq<(string, Json)>, k: string)
    ensures k in CanonRow(entries) <==> LastWith(entries, k) >= 0
    ensures k in CanonRow(entries) ==> CanonRow(entries)[k] == NormText(entries[LastWith(entries, k)].1)
  {
    LastMapAt(entries, EntryKey, EntryText, k);
  }

  /** A key is in the map exactly when some element has it, and holds the value of the last such element. */
  lemma {:induction false} LastMapAt<T>(xs: seq<T>, key: T -> string, val: T -> string, k: string)
    ensures k in LastMap(xs, key, val) <==> LastIndex(xs, key, k) >= 0
    ensures k in LastMap(xs, key, val) ==> LastMap(xs, key, val)[k] == val(xs[LastIndex(xs, key, k)])
    decreases |xs|
  {
    if xs != [] {
      var n := |xs| - 1;
      var init := xs[..n];
      LastMapAt(init, key, val, k);
      if key(xs[n]) != k && LastIndex(init, key, k) >= 0 {
        assert init[LastIndex(init, key, k)] == xs[LastIndex(init, key, k)];
      }
    }
  }

  /** `canonize_row`, entry by entry. */
  method CanonizeRow(entries: seq<(string, Json)>) returns (out: map<string, string>)
    ensures out == CanonRow(entries)
  {
    out := map[];
    var i := 0;
    while i < |entries|
      invariant 0 <= i <= |entries|
      invariant out == CanonRow(entries[..i])
    {
      assert entries[..i + 1][..i] == entries[..i];
      out := out[CanonKey(entries[i].0) := NormText(entries[i].1)];
      i := i + 1;
    }
    assert entries[..i] == entries;
  }

  /** The labels of a canonical row: each of `keys` whose normalised value is not empty. */
  function Labels(canon: map<string, string>, keys: seq<string>): map<string, string>
    decreases |keys|
  {
    if keys == [] then map[]
    else
      var k := keys[|keys| - 1];
      var labels := Labels(canon, keys[..|keys| - 1]);
      if NormStr(TextAt(canon, k)) == [] then labels else labels[k := NormStr(TextAt(canon, k))]
  }

  /** A key is a label exactly when it is one of `keys` with a non-empty normalised value, which it then holds. */
  lemma {:induction false} LabelsAt(canon: map<string, string>, keys: seq<string>, k: string)
    ensures k in Labels(canon, keys) <==> k in keys && NormStr(TextAt(canon, k)) != []
    ensures k in Labels(canon, keys) ==> Labels(canon, keys)[k] == NormStr(TextAt(canon, k))
    decreases |keys|
  {
    if keys != [] {
      var init := keys[..|keys| - 1];
      LabelsAt(canon, init, k);
      assert keys == init + [keys[|keys| - 1]];
    }
  }

  /** The input of a canonical row: its task and context, normalised once more. */
  function InputOf(canon: map<string, string>): Input
  {
    Input(NormStr(TextAt(canon, "task")), NormStr(TextAt(canon, "context")))
  }

  /** `build_input_labels`: the input, and the label keys whose normalised value is not empty. */
  method BuildInputLabels(canon: map<string, string>) returns (input: Input, labels: map<string, string>)
    ensures input == InputOf(canon)
    ensures labels == Labels(canon, LabelKeys)
  {
    input := Input(NormStr(TextAt(canon, "task")), NormStr(TextAt(canon, "context")));
    labels := CollectLabels(canon, LabelKeys);
  }

  /** The label loop of `build_input_labels` over `keys`. */
  method CollectLabels(canon: map<string, string>, keys: seq<string>) returns (labels: map<string, string>)
    ensures labels == Labels(canon, keys)
  {
    labels := map[];
    var i := 0;
    while i < |keys|
      invariant 0 <= i <= |keys|
      invariant labels == Labels(canon, keys[..i])
    {
      var v := NormStr(TextAt(canon, keys[i]));
      LabelsStep(canon, keys, i);
      if v != [] {
        labels := labels[keys[i] := v];
      }
      i := i + 1;
    }
    assert keys[..i] == keys;
  }

  /** One more key: its normalised text is added when it is not empty. */
  lemma LabelsStep(canon: map<string, string>, keys: seq<string>, i: nat)
    requires i < |keys|
    ensures var v := NormStr(TextAt(canon, keys[i]));
      Labels(canon, keys[..i + 1]) == if v == [] then Labels(canon, keys[..i]) else Labels(canon, keys[..i])[keys[i] := v]
  {
    assert keys[..i + 1][..i] == keys[..i];
  }

  /** The text `record_fingerprint` hashes. */
  function FingerprintText(input: Input, labels: map<string, string>): string
  {
    Join(["TASK:", input.task, "CONTEXT:", input.context, "LABELS:",
          TextAt(labels, "system"), TextAt(labels, "audience"), TextAt(labels, "purpose"),
          TextAt(labels, "tone"), TextAt(labels, "confidence"), TextAt(labels, "response_depth")], "\n")
  }

  /** `record_fingerprint`: the SHA-256 hex digest of the fingerprint text. */
  function Fingerprint(sha256: string -> string, item: Item): string
  {
    sha256(FingerprintText(item.input, item.labels))
  }

  /**
   * The item a raw row yields, if any: a non-dict row, a row with neither
   * task nor context, and (when `needLabels`) a row without labels yield none.
   */
  function Candidate(row: Json, needLabels: bool): Option<Item>
  {
    if !row.JObj? then None
    else
      var canon := CanonRow(row.entries);
      var input := InputOf(canon);
      var labels := Labels(canon, LabelKeys);
      if input.task == [] && input.context == [] then None
      else if needLabels && labels == map[] then None
      else Some(Item(input, labels))
  }

  /** The item each row yields, row by row. */
  function Candidates(rows: seq<Json>, needLabels: bool): (r: seq<Option<Item>>)
    ensures |r| == |rows| && forall i :: 0 <= i < |rows| ==> r[i] == Candidate(rows[i], needLabels)
  {
    seq(|rows|, i requires 0 <= i < |rows| => Candidate(rows[i], needLabels))
  }

  /** `record_fingerprint` as a key function. */
  function FingerprintOf(sha256: string -> string): Item -> string
  {
    it => Fingerprint(sha256, it)
  }

  /**
   * The dedupe loop over the rows' items from `cands` on, with the keys
   * `seen` so far: an item whose key was seen is dropped, so the first item
   * of each key is kept.
   */
  function Uniq(cands: seq<Option<Item>>, key: Item -> string, seen: set<string>): seq<Item>
    decreases |cands|
  {
    if cands == [] then []
    else if cands[0].None? || key(cands[0].value) in seen then Uniq(cands[1..], key, seen)
    else [cands[0].value] + Uniq(cands[1..], key, seen + {key(cands[0].value)})
  }

  /** The keys of some items, in order. */
  function KeysOf(key: Item -> string, items: seq<Item>): (r: seq<string>)
    ensures |r| == |items| && forall i :: 0 <= i < |items| ==> r[i] == key(items[i])
  {
    seq(|items|, i requires 0 <= i < |items| => key(items[i]))
  }

  /** An item a row yields has a task or a context, and labels when they are required. */
  lemma CandidateShape(row: Json, needLabels: bool)
    requires Candidate(row, needLabels).Some?
    ensures var it := Candidate(row, needLabels).value;
      (it.input.task != [] || it.input.context != []) && (needLabels ==> it.labels != map[])
  {
  }

  /** Every kept item is the item of some row. */
  lemma {:induction false} UniqFromRows(cands: seq<Option<Item>>, key: Item -> string, seen: set<string>)
    ensures forall it :: it in Uniq(cands, key, seen) ==> Some(it) in cands
    decreases |cands|
  {
    if cands != [] {
      if cands[0].None? || key(cands[0].value) in seen {
        UniqFromRows(cands[1..], key, seen);
      } else {
        UniqFromRows(cands[1..], key, seen + {key(cands[0].value)});
      }
    }
  }

  /** The kept keys are pairwise different and none of them was seen before. */
  lemma {:induction false} UniqFresh(cands: seq<Option<Item>>, key: Item -> string, seen: set<string>)
    ensures var ks := KeysOf(key, Uniq(cands, key, seen));
      Distinct(ks) && forall f :: f in ks ==> f !in seen
    decreases |cands|
  {
    if cands != [] {
      if cands[0].None? || key(cands[0].value) in seen {
        UniqFresh(cands[1..], key, seen);
      } else {
        var k := key(cands[0].value);
        UniqFresh(cands[1..], key, seen + {k});
        var tail := Uniq(cands[1..], key, seen + {k});
        assert KeysOf(key, [cands[0].value] + tail) == [k] + KeysOf(key, tail);
        DistinctCons(k, KeysOf(key, tail));
      }
    }
  }

  lemma DistinctCons<T>(x: T, s: seq<T>)
    requires Distinct(s) && x !in s
    ensures Distinct([x] + s)
  {
    forall i, j | 0 <= i < j < |[x] + s|
      ensures ([x] + s)[i] != ([x] + s)[j]
    {
      if i == 0 {
        assert ([x] + s)[j] == s[j - 1];
      } else {
        assert ([x] + s)[i] == s[i - 1] && ([x] + s)[j] == s[j - 1];
      }
    }
  }

  /** No item is lost but for a repeated key: every row's item has its key seen or kept. */
  lemma {:induction false} UniqComplete(cands: seq<Option<Item>>, key: Item -> string, seen: set<string>, r: nat)
    requires r < |cands| && cands[r].Some?
    ensures key(cands[r].value) in seen || key(cands[r].value) in KeysOf(key, Uniq(cands, key, seen))
    decreases |cands|
  {
    var rest := cands[1..];
    if cands[0].None? || key(cands[0].value) in seen {
      if r > 0 {
        assert rest[r - 1] == cands[r];
        UniqComplete(rest, key, seen, r - 1);
      }
    } else {
      var k0 := key(cands[0].value);
      var tail := Uniq(rest, key, seen + {k0});
      assert KeysOf(key, [cands[0].value] + tail) == [k0] + KeysOf(key, tail);
      if r > 0 {
        assert rest[r - 1] == cands[r];
        UniqComplete(rest, key, seen + {k0}, r - 1);
      }
    }
  }

  /** Step 1 of `main`: canonicalise every row and keep the first item of each fingerprint. */
  method DedupeRows(rows: seq<Json>, sha256: string -> string) returns (items: seq<Item>)
    ensures items == Uniq(Candidates(rows, true), FingerprintOf(sha256), {})
  {
    ghost var cands := Candidates(rows, true);
    ghost var key := FingerprintOf(sha256);
    items := [];
    var seen: set<string> := {};
    var i := 0;
    while i < |rows|
      invariant 0 <= i <= |rows|
      invariant items + Uniq(cands[i..], key, seen) == Uniq(cands, key, {})
    {
      assert cands[i..][1..] == cands[i + 1..];
      var row := rows[i];
      i := i + 1;
      if !row.JObj? {
        continue;
      }
      var canon := CanonizeRow(row.entries);
      var input, labels := BuildInputLabels(canon);
      if input.task == [] && input.context == [] {
        continue;
      }
      if labels == map[] {
        continue;
      }
      var fp := sha256(FingerprintText(input, labels));
      assert cands[i - 1] == Some(Item(input, labels)) && key(Item(input, labels)) == fp;
      if fp in seen {
        continue;
      }
      AppendAssoc(items, [Item(input, labels)], Uniq(cands[i..], key, seen + {fp}));
      seen := seen + {fp};
      items := items + [Item(input, labels)];
    }
    assert cands[i..] == [];
  }

  /** `read_raw`: the raw file must hold a JSON list. */
  function ReadRaw(data: Json): (r: Result<seq<Json>>)
    ensures r.Ok? <==> data.JList?
    ensures r.Ok? ==> r.value == data.items
    ensures r.Err? ==> r.error == ValueError("Raw dataset must be a JSON list of dicts.")
  {
    if data.JList? then Ok(data.items) else Err(ValueError("Raw dataset must be a JSON list of dicts."))
  }

  // ---------------------------------------------------------------------
  // The split.

  function Min(a: int, b: int): int { if a <= b then a else b }

  /**
   * `items[:a]`, `items[a:a+b]`, `items[a+b:]` for split sizes `a` and `b`
   * (Python slices clamp at the end): three consecutive slices that
   * partition the items.
   */
  function Split<T>(items: seq<T>, nTrain: nat, nVal: nat): (r: (seq<T>, seq<T>, seq<T>))
    ensures r.0 + r.1 + r.2 == items
    ensures |r.0| == Min(nTrain, |items|) && |r.0| + |r.1| == Min(nTrain + nVal, |items|)
  {
    var a := Min(nTrain, |items|);
    var b := Min(nTrain + nVal, |items|);
    assert items[..a] + items[a..b] + items[b..] == items;
    (items[..a], items[a..b], items[b..])
  }

  // ---------------------------------------------------------------------
  // Prompt and target texts.

  /** The TASK and CONTEXT sections `make_prompt_text` adds, for the parts that are not empty. */
  function Sections(task: string, context: string): seq<string>
  {
    (if task != [] then ["\n### TASK", task] else []) + (if context != [] then ["\n### CONTEXT", context] else [])
  }

  /** `make_prompt_text`: the instruction and the sections, one per line, stripped. */
  function MakePromptText(task: string, context: string): string
  {
    Strip(Join([Instruction] + Sections(task, context), "\n"))
  }

  /** The instruction starts with `#` and ends with `.`, so stripping never cuts it. */
  lemma InstructionEnds()
    ensures Instruction != [] && Instruction[0] == '#' && Instruction[|Instruction| - 1] == '.'
  {
    var ls := InstructionLines;
    assert Instruction == ls[0] + "\n" + (ls[1] + "\n" + (ls[2] + "\n" + ls[3]));
  }

  /** What a section adds after the instruction: a newline, its header and, on the next line, the part. */
  function SectionText(header: string, part: string): string
  {
    if part != [] then "\n" + header + "\n" + part else []
  }

  /**
   * For stripped task and context texts, the prompt is the instruction
   * followed by the TASK section and then the CONTEXT section, each present
   * only when its part is not empty; so the prompt begins with the
   * instruction.
   */
  lemma PromptTextShape(task: string, context: string)
    requires Strip(task) == task && Strip(context) == context
    ensures MakePromptText(task, context) ==
      Instruction + SectionText("\n### TASK", task) + SectionText("\n### CONTEXT", context)
  {
    InstructionEnds();
    JoinedSections(Instruction, "\n### TASK", task, "\n### CONTEXT", context);
    assert [Instruction] + Sections(task, context) ==
      [Instruction] + (if task != [] then ["\n### TASK", task] else []) + (if context != [] then ["\n### CONTEXT", context] else []);
  }

  /** The join of an instruction and its sections, and its strip, for any header texts. */
  lemma JoinedSections(instr: string, hTask: string, task: string, hContext: string, context: string)
    requires instr != [] && !IsSpace(instr[0]) && !IsSpace(instr[|instr| - 1])
    requires Strip(task) == task && Strip(context) == context
    ensures var parts := [instr] + (if task != [] then [hTask, task] else []) + (if context != [] then [hContext, context] else []);
      Strip(Join(parts, "\n")) == instr + SectionText(hTask, task) + SectionText(hContext, context)
  {
    var parts := [instr] + (if task != [] then [hTask, task] else []) + (if context != [] then [hContext, context] else []);
    var full := instr + SectionText(hTask, task) + SectionText(hContext, context);
    assert Join(parts, "\n") == full by {
      JoinedParts(instr, hTask, task, hContext, context);
    }
    SectionsStripped(instr, hTask, task, hContext, context);
  }

  lemma JoinedParts(instr: string, hTask: string, task: string, hContext: string, context: string)
    ensures var parts := [instr] + (if task != [] then [hTask, task] else []) + (if context != [] then [hContext, context] else []);
      Join(parts, "\n") == instr + SectionText(hTask, task) + SectionText(hContext, context)
  {
    var parts := [instr] + (if task != [] then [hTask, task] else []) + (if context != [] then [hContext, context] else []);
    var full := instr + SectionText(hTask, task) + SectionText(hContext, context);
    if task != [] && context != [] {
      assert parts == [instr, hTask, task, hContext, context];
      JoinFive(instr, hTask, task, hContext, context, "\n");
    } else if task != [] {
      assert parts == [instr, hTask, task];
      JoinThree(instr, hTask, task, "\n");
      assert full == instr + SectionText(hTask, task);
    } else if context != [] {
      assert parts == [instr, hContext, context];
      JoinThree(instr, hContext, context, "\n");
      assert full == instr + SectionText(hContext, context);
    } else {
      assert parts == [instr] && full == instr;
    }
  }

  lemma SectionsStripped(instr: string, hTask: string, task: string, hContext: string, context: string)
    requires instr != [] && !IsSpace(instr[0]) && !IsSpace(instr[|instr| - 1])
    requires Strip(task) == task && Strip(context) == context
    ensures var full := instr + SectionText(hTask, task) + SectionText(hContext, context);
      Strip(full) == full
  {
    var full := instr + SectionText(hTask, task) + SectionText(hContext, context);
    if task != [] {
      var _, _ := StripIsSlice(task);
    }
    if context != [] {
      var _, _ := StripIsSlice(context);
    }
    assert !IsSpace(full[0]) && !IsSpace(full[|full| - 1]);
    StripUnchanged(full);
  }

  lemma Join2(a: string, b: string, sep: string)
    ensures Join([a, b], sep) == a + sep + b
  {
    assert [a, b][1..] == [b];
  }

  lemma JoinThree(a: string, b: string, c: string, sep: string)
    ensures Join([a, b, c], sep) == a + (sep + b + sep + c)
  {
    Join2(b, c, sep);
    assert [a, b, c][1..] == [b, c];
    assert Join([a, b, c], sep) == a + sep + (b + sep + c);
  }

  lemma JoinFive(a: string, b: string, c: string, d: string, e: string, sep: string)
    ensures Join([a, b, c, d, e], sep) == a + (sep + b + sep + c) + (sep + d + sep + e)
  {
    Join2(d, e, sep);
    assert [c, d, e][1..] == [d, e];
    assert [b, c, d, e][1..] == [c, d, e];
    assert [a, b, c, d, e][1..] == [b, c, d, e];
    assert Join([c, d, e], sep) == c + sep + (d + sep + e);
    assert Join([b, c, d, e], sep) == b + sep + (c + sep + (d + sep + e));
    assert Join([a, b, c, d, e], sep) == a + sep + (b + sep + (c + sep + (d + sep + e)));
  }

  /** `make_target_json(labels, keys)`: the pairs of `keys` that have a label, in the order of `keys`. */
  function TargetPairs(labels: map<string, string>, keys: seq<string>): (r: seq<(string, string)>)
    ensures forall k, v :: (k, v) in r <==> k in keys && k in labels && v == labels[k]
  {
    if keys == [] then []
    else (if keys[0] in labels then [(keys[0], labels[keys[0]])] else []) + TargetPairs(labels, keys[1..])
  }

  /**
   * `make_target_json`: the compact JSON text of those pairs (`json.dumps`
   * is the parameter `dumps`). Leaving out `keys` means the sorted label
   * keys, which callers pass explicitly here.
   */
  function MakeTargetJson(dumps: seq<(string, string)> -> string, labels: map<string, string>, keys: seq<string>): string
  {
    dumps(TargetPairs(labels, keys))
  }

  // ---------------------------------------------------------------------
  // Windowing.

  /** The token counts of one row (`meta`). */
  datatype Meta = Meta(promptTokens: int, targetTokens: int, totalTokens: int, windowIndex: int, windowsTotal: int)

  /** One result of `window_inputs_with_fixed_labels`: the decoded prompt window, the label JSON and its counts. */
  datatype Window = Window(prompt: string, target: string, meta: Meta)

  /** `full_ids[len(instr_ids):]`: the prompt tokens after the instruction's (empty when the instruction is longer). */
  function ContentIds(instr: seq<int>, full: seq<int>): seq<int>
  {
    if |instr| <= |full| then full[|instr|..] else []
  }

  /** The label tokens followed by EOS when the tokenizer has one. */
  function TargetTail(target: seq<int>, eos: Option<int>): seq<int>
  {
    target + (if eos.Some? then [eos.value] else [])
  }

  /** `S = max(1, stride)` where `strideOf(W)` is `int(round(W * (1.0 - overlap)))`. */
  function Stride(strideOf: int -> int, w: nat): (s: nat)
    ensures s >= 1
  {
    if strideOf(w) >= 1 then strideOf(w) else 1
  }

  /** `[content[i:i+w] for i in range(start, len(content) - w + 1, s)]`. */
  function Strided(content: seq<int>, w: nat, s: nat, start: nat): (r: seq<seq<int>>)
    requires s >= 1
    ensures forall x :: x in r ==> |x| == w
    decreases |content| - start
  {
    if start + w > |content| then [] else [content[start..start + w]] + Strided(content, w, s, start + s)
  }

  /** The `j`-th strided window starts `j` strides after the first. */
  lemma {:induction false} StridedAt(content: seq<int>, w: nat, s: nat, start: nat, j: nat)
    requires s >= 1 && start + j * s + w <= |content|
    ensures j < |Strided(content, w, s, start)|
    ensures Strided(content, w, s, start)[j] == content[start + j * s .. start + j * s + w]
    decreases j
  {
    if j > 0 {
      assert (start + s) + (j - 1) * s == start + j * s;
      StridedAt(content, w, s, start + s, j - 1);
    }
  }

  /**
   * The content windows for width `w` and stride `s`: one empty window when
   * there is no room, the whole content when it fits, and otherwise the
   * strided windows followed by the final `w` tokens unless the last
   * strided window already equals them.
   */
  function Windows(content: seq<int>, w: nat, s: nat): (ws: seq<seq<int>>)
    requires s >= 1
    ensures ws != []
    ensures forall x :: x in ws ==> |x| <= w
  {
    if w == 0 then [[]]
    else if |content| <= w then [content]
    else
      var strided := Strided(content, w, s, 0);
      var tail := content[|content| - w..];
      if strided[|strided| - 1] != tail then strided + [tail] else strided
  }

  /** The last window is always the final `w` tokens of the content. */
  lemma WindowsEnd(content: seq<int>, w: nat, s: nat)
    requires 0 < w < |content| && s >= 1
    ensures var ws := Windows(content, w, s); ws[|ws| - 1] == content[|content| - w..]
  {
  }

  /**
   * The windows cover the whole content: a token at position `p` lies in
   * strided window `p / s` when that window is complete, and otherwise in
   * the last window, which holds the final `w` tokens.
   */
  lemma WindowsCover(content: seq<int>, w: nat, s: nat, p: nat)
    requires 0 < w < |content| && 1 <= s <= w && p < |content|
    ensures 0 <= p / s * s <= p < p / s * s + s
    ensures var ws := Windows(content, w, s);
      (p / s * s + w <= |content| ==>
         p / s < |ws| && ws[p / s] == content[p / s * s .. p / s * s + w] && p < p / s * s + w) &&
      (p / s * s + w > |content| ==> |content| - w <= p && ws[|ws| - 1] == content[|content| - w..])
  {
    var q := p / s;
    DivBounds(p, s);
    if q * s + w <= |content| {
      StridedAt(content, w, s, 0, q);
      WindowsStrided(content, w, s);
    } else {
      WindowsEnd(content, w, s);
    }
  }

  /** The strided windows come first. */
  lemma WindowsStrided(content: seq<int>, w: nat, s: nat)
    requires 0 < w < |content| && s >= 1
    ensures var st := Strided(content, w, s, 0);
      |st| <= |Windows(content, w, s)| && Windows(content, w, s)[..|st|] == st
  {
  }

  lemma DivBounds(p: nat, s: nat)
    requires s >= 1
    ensures 0 <= p / s * s <= p < p / s * s + s
  {
  }

  /**
   * The prompt tokens for one window, or None when the window is skipped:
   * a window over the budget loses its last `overflow` tokens when it has
   * that many, and is skipped when it still does not fit.
   */
  function Placed(instr: seq<int>, win: seq<int>, tailLen: nat, maxLen: int): (r: Option<seq<int>>)
    ensures r.Some? ==> |instr| <= |r.value| <= |instr| + |win| && r.value == instr + win[..|r.value| - |instr|]
    ensures r.Some? ==> |r.value| + tailLen <= maxLen
    ensures |instr| + |win| + tailLen <= maxLen ==> r == Some(instr + win)
  {
    var total := |instr| + |win| + tailLen;
    if total <= maxLen then
      assert win[..|win|] == win;
      Some(instr + win)
    else
      var overflow := total - maxLen;
      if |win| >= overflow then
        var clipped := instr + win[..|win| - overflow];
        if |clipped| + tailLen > maxLen then None else Some(clipped)
      else None
  }

  /** One window's placement: clip its last `overflow` tokens when over the budget; skip it when it still does not fit. */
  method Place(instr: seq<int>, win: seq<int>, tailLen: nat, maxLen: int) returns (r: Option<seq<int>>)
    ensures r == Placed(instr, win, tailLen, maxLen)
  {
    var promptIds := instr + win;
    var total := |promptIds| + tailLen;
    if total > maxLen {
      var overflow := total - maxLen;
      if overflow > 0 && |win| >= overflow {
        promptIds := instr + win[..|win| - overflow];
        total := |promptIds| + tailLen;
      }
      if total > maxLen {
        return None;
      }
    }
    return Some(promptIds);
  }

  /** The rows for windows `i` onwards: each placed window with its counts and its 1-based index. */
  function Emitted(ws: seq<seq<int>>, instr: seq<int>, tailLen: nat, maxLen: int, i: nat): seq<(seq<int>, Meta)>
    requires i <= |ws|
    decreases |ws| - i
  {
    if i == |ws| then []
    else
      var rest := Emitted(ws, instr, tailLen, maxLen, i + 1);
      match Placed(instr, ws[i], tailLen, maxLen)
      case None => rest
      case Some(p) => [(p, Meta(|p|, tailLen, |p| + tailLen, i + 1, |ws|))] + rest
  }

  /** One step of `Emitted`: window `i`'s row, if placed, then the rest. */
  lemma EmittedStep(ws: seq<seq<int>>, instr: seq<int>, tailLen: nat, maxLen: int, i: nat)
    requires i < |ws|
    ensures Placed(instr, ws[i], tailLen, maxLen).None? ==>
      Emitted(ws, instr, tailLen, maxLen, i) == Emitted(ws, instr, tailLen, maxLen, i + 1)
    ensures Placed(instr, ws[i], tailLen, maxLen).Some? ==>
      var p := Placed(instr, ws[i], tailLen, maxLen).value;
      Emitted(ws, instr, tailLen, maxLen, i) == [(p, Meta(|p|, tailLen, |p| + tailLen, i + 1, |ws|))] + Emitted(ws, instr, tailLen, maxLen, i + 1)
  {
  }

  /**
   * Every emitted row fits the budget, starts with the instruction, counts
   * its prompt and target tokens, and carries an index between `i + 1` and
   * the number of windows; the indices ascend.
   */
  lemma {:induction false} EmittedShape(ws: seq<seq<int>>, instr: seq<int>, tailLen: nat, maxLen: int, i: nat)
    requires i <= |ws|
    ensures var rows := Emitted(ws, instr, tailLen, maxLen, i);
      forall k :: 0 <= k < |rows| ==>
        |instr| <= |rows[k].0| && rows[k].0[..|instr|] == instr &&
        rows[k].1.promptTokens == |rows[k].0| && rows[k].1.targetTokens == tailLen &&
        rows[k].1.totalTokens == |rows[k].0| + tailLen <= maxLen &&
        i + 1 <= rows[k].1.windowIndex <= rows[k].1.windowsTotal == |ws|
    ensures var rows := Emitted(ws, instr, tailLen, maxLen, i);
      forall k, l :: 0 <= k < l < |rows| ==> rows[k].1.windowIndex < rows[l].1.windowIndex
    decreases |ws| - i
  {
    if i < |ws| {
      EmittedShape(ws, instr, tailLen, maxLen, i + 1);
      EmittedStep(ws, instr, tailLen, maxLen, i);
      var rest := Emitted(ws, instr, tailLen, maxLen, i + 1);
      if Placed(instr, ws[i], tailLen, maxLen).Some? {
        var p := Placed(instr, ws[i], tailLen, maxLen).value;
        var rows := [(p, Meta(|p|, tailLen, |p| + tailLen, i + 1, |ws|))] + rest;
        assert p[..|instr|] == instr;
        assert forall k :: 0 < k < |rows| ==> rows[k] == rest[k - 1];
      }
    }
  }

  /** When every window fits, each is emitted whole, in order, with its own index. */
  lemma {:induction false} EmittedAll(ws: seq<seq<int>>, instr: seq<int>, tailLen: nat, maxLen: int, i: nat)
    requires i <= |ws|
    requires forall x :: x in ws ==> |instr| + |x| + tailLen <= maxLen
    ensures var rows := Emitted(ws, instr, tailLen, maxLen, i);
      |rows| == |ws| - i &&
      forall k :: 0 <= k < |rows| ==>
        rows[k] == (instr + ws[i + k], Meta(|instr| + |ws[i + k]|, tailLen, |instr| + |ws[i + k]| + tailLen, i + k + 1, |ws|))
    decreases |ws| - i
  {
    if i < |ws| {
      EmittedAll(ws, instr, tailLen, maxLen, i + 1);
      assert ws[i] in ws;
      EmittedStep(ws, instr, tailLen, maxLen, i);
    }
  }

  /** The content window width: what the budget leaves after the label tail and the instruction, at least 0. */
  function WindowWidth(instrLen: nat, tailLen: nat, maxLen: int): nat
  {
    if maxLen - tailLen - instrLen > 0 then maxLen - tailLen - instrLen else 0
  }

  /**
   * `window_inputs_with_fixed_labels` on token ids, as written: no rows
   * when the label tail alone fills the budget; otherwise the emitted
   * windows, or the instruction alone with the labels when no window was
   * emitted.
   */
  function WindowIds(instr: seq<int>, full: seq<int>, tail: seq<int>, maxLen: int, strideOf: int -> int): (r: seq<(seq<int>, Meta)>)
    ensures r == [] <==> |tail| >= maxLen
  {
    if |tail| >= maxLen then []
    else
      var w := WindowWidth(|instr|, |tail|, maxLen);
      var ws := Windows(ContentIds(instr, full), w, Stride(strideOf, w));
      var out := Emitted(ws, instr, |tail|, maxLen, 0);
      if out != [] then out else [(instr, Meta(|instr|, |tail|, |instr| + |tail|, 1, 1))]
  }

  /**
   * Every row counts its tokens and starts with the instruction; it fits
   * the budget unless it is the lone instruction-only fallback row.
   */
  lemma WindowIdsShape(instr: seq<int>, full: seq<int>, tail: seq<int>, maxLen: int, strideOf: int -> int)
    ensures var rows := WindowIds(instr, full, tail, maxLen, strideOf);
      forall k :: 0 <= k < |rows| ==>
        |instr| <= |rows[k].0| && rows[k].0[..|instr|] == instr &&
        rows[k].1.promptTokens == |rows[k].0| && rows[k].1.targetTokens == |tail| &&
        rows[k].1.totalTokens == |rows[k].0| + |tail| &&
        1 <= rows[k].1.windowIndex <= rows[k].1.windowsTotal &&
        (rows[k].1.totalTokens <= maxLen || rows == [(instr, Meta(|instr|, |tail|, |instr| + |tail|, 1, 1))])
  {
    if |tail| < maxLen {
      var w := WindowWidth(|instr|, |tail|, maxLen);
      var ws := Windows(ContentIds(instr, full), w, Stride(strideOf, w));
      EmittedShape(ws, instr, |tail|, maxLen, 0);
      assert instr[..|instr|] == instr;
      if Emitted(ws, instr, |tail|, maxLen, 0) == [] {
        assert WindowIds(instr, full, tail, maxLen, strideOf) == [(instr, Meta(|instr|, |tail|, |instr| + |tail|, 1, 1))];
      } else {
        assert WindowIds(instr, full, tail, maxLen, strideOf) == Emitted(ws, instr, |tail|, maxLen, 0);
      }
    }
  }

  /**
   * As written, the fallback row breaks the budget: with a 3-token
   * instruction, a 1-token label and a budget of 3, the only row has 4
   * tokens.
   */
  lemma FallbackOverBudget(strideOf: int -> int)
    ensures WindowIds([1, 2, 3], [1, 2, 3], [4], 3, strideOf) == [([1, 2, 3], Meta(3, 1, 4, 1, 1))]
  {
    var ws := Windows([], 0, Stride(strideOf, 0));
    assert ws == [[]];
    assert Placed([1, 2, 3], [], 1, 3) == None;
    assert Emitted(ws, [1, 2, 3], 1, 3, 0) == [];
  }

  /**
   * The windowing with the fallback kept within the budget: no rows when
   * even the instruction and the labels do not fit, so that the caller
   * turns to single-label targets.
   */
  function WindowIdsCapped(instr: seq<int>, full: seq<int>, tail: seq<int>, maxLen: int, strideOf: int -> int): (r: seq<(seq<int>, Meta)>)
  {
    var rows := WindowIds(instr, full, tail, maxLen, strideOf);
    if rows != [] && rows[0].1.totalTokens > maxLen then [] else rows
  }

  /**
   * With the cap every row fits the budget; there are rows exactly when the
   * instruction and the label tail fit together, and then every content
   * window is emitted whole, none clipped or skipped.
   */
  lemma WindowIdsCappedFits(instr: seq<int>, full: seq<int>, tail: seq<int>, maxLen: int, strideOf: int -> int)
    ensures var rows := WindowIdsCapped(instr, full, tail, maxLen, strideOf);
      (forall k :: 0 <= k < |rows| ==> rows[k].1.totalTokens <= maxLen) &&
      (rows == [] <==> |instr| + |tail| > maxLen || |tail| >= maxLen)
    ensures |tail| < maxLen && |instr| + |tail| <= maxLen ==>
      var w := WindowWidth(|instr|, |tail|, maxLen);
      var ws := Windows(ContentIds(instr, full), w, Stride(strideOf, w));
      WindowIdsCapped(instr, full, tail, maxLen, strideOf) == Emitted(ws, instr, |tail|, maxLen, 0) &&
      |Emitted(ws, instr, |tail|, maxLen, 0)| == |ws|
  {
    WindowIdsShape(instr, full, tail, maxLen, strideOf);
    if |tail| < maxLen {
      var w := WindowWidth(|instr|, |tail|, maxLen);
      var ws := Windows(ContentIds(instr, full), w, Stride(strideOf, w));
      if |instr| + |tail| <= maxLen {
        EmittedAll(ws, instr, |tail|, maxLen, 0);
        EmittedShape(ws, instr, |tail|, maxLen, 0);
      } else {
        assert ws == [[]];
        assert Placed(instr, [], |tail|, maxLen) == None;
      }
    }
  }

  /** The decoded rows, each carrying the whole label JSON. */
  function Decoded(tok: Tokenizer, rows: seq<(seq<int>, Meta)>, labelJson: string): (r: seq<Window>)
    ensures |r| == |rows|
    ensures forall k :: 0 <= k < |r| ==> r[k] == Window(tok.decode(rows[k].0), labelJson, rows[k].1)
  {
    seq(|rows|, k requires 0 <= k < |rows| => Window(tok.decode(rows[k].0), labelJson, rows[k].1))
  }

  /** The emission loop: each window placed, or skipped, in order. */
  method EmitRows(ws: seq<seq<int>>, instr: seq<int>, tailLen: nat, maxLen: int) returns (rows: seq<(seq<int>, Meta)>)
    ensures rows == Emitted(ws, instr, tailLen, maxLen, 0)
  {
    ghost var all := Emitted(ws, instr, tailLen, maxLen, 0);
    rows := [];
    var i := 0;
    while i < |ws|
      invariant 0 <= i <= |ws|
      invariant rows + Emitted(ws, instr, tailLen, maxLen, i) == all
    {
      var placed := Place(instr, ws[i], tailLen, maxLen);
      EmittedStep(ws, instr, tailLen, maxLen, i);
      ghost var here := Emitted(ws, instr, tailLen, maxLen, i);
      ghost var rest := Emitted(ws, instr, tailLen, maxLen, i + 1);
      i := i + 1;
      if placed.None? {
        assert here == rest;
        continue;
      }
      var promptIds := placed.value;
      var row := (promptIds, Meta(|promptIds|, tailLen, |promptIds| + tailLen, i, |ws|));
      assert here == [row] + rest;
      AppendAssoc(rows, [row], rest);
      rows := rows + [row];
    }
  }

  /** `window_inputs_with_fixed_labels`: tokenise, cut the content into windows, place each within the budget. */
  method WindowInputs(tok: Tokenizer, fullPromptText: string, instrText: string, labelJson: string, maxLen: int, strideOf: int -> int)
    returns (out: seq<Window>)
    ensures out == Decoded(tok, WindowIds(tok.encode(instrText), tok.encode(fullPromptText),
                                          TargetTail(tok.encode(labelJson), tok.eosId), maxLen, strideOf), labelJson)
  {
    var instrIds := tok.encode(instrText);
    var fullIds := tok.encode(fullPromptText);
    var contentIds := ContentIds(instrIds, fullIds);
    var tail := TargetTail(tok.encode(labelJson), tok.eosId);
    if |tail| >= maxLen {
      return [];
    }
    var w := WindowWidth(|instrIds|, |tail|, maxLen);
    var windows := Windows(contentIds, w, Stride(strideOf, w));
    var rows := EmitRows(windows, instrIds, |tail|, maxLen);
    if rows == [] {
      rows := [(instrIds, Meta(|instrIds|, |tail|, |instrIds| + |tail|, 1, 1))];
    }
    out := Decoded(tok, rows, labelJson);
  }

  /** The windowing with the budget kept by the fallback row as well. */
  method WindowInputsCapped(tok: Tokenizer, fullPromptText: string, instrText: string, labelJson: string, maxLen: int, strideOf: int -> int)
    returns (out: seq<Window>)
    ensures out == Decoded(tok, WindowIdsCapped(tok.encode(instrText), tok.encode(fullPromptText),
                                                 TargetTail(tok.encode(labelJson), tok.eosId), maxLen, strideOf), labelJson)
  {
    out := WindowInputs(tok, fullPromptText, instrText, labelJson, maxLen, strideOf);
    if out != [] && out[0].meta.totalTokens > maxLen {
      out := [];
    }
  }

  // ---------------------------------------------------------------------
  // The windowed rows of one split.

  /** One output row: its id, prompt window, label JSON and counts. */
  datatype Row = Row(id: string, prompt: string, target: string, meta: Meta)

  /** The windows of a prompt and a target at the 384-token budget (the fallback kept within it). */
  function Fitted(tok: Tokenizer, prompt: string, target: string, strideOf: int -> int): seq<Window>
  {
    Decoded(tok, WindowIdsCapped(tok.encode(Instruction), tok.encode(prompt), TargetTail(tok.encode(target), tok.eosId),
                                 TokenLimit, strideOf), target)
  }

  /** Every window carries the whole target, fits the budget and counts its tokens consistently. */
  lemma FittedShape(tok: Tokenizer, prompt: string, target: string, strideOf: int -> int)
    ensures forall x :: x in Fitted(tok, prompt, target, strideOf) ==>
      x.target == target && x.meta.totalTokens <= TokenLimit &&
      x.meta.promptTokens + x.meta.targetTokens == x.meta.totalTokens &&
      1 <= x.meta.windowIndex <= x.meta.windowsTotal
  {
    var instr := tok.encode(Instruction);
    var full := tok.encode(prompt);
    var tail := TargetTail(tok.encode(target), tok.eosId);
    WindowIdsShape(instr, full, tail, TokenLimit, strideOf);
    WindowIdsCappedFits(instr, full, tail, TokenLimit, strideOf);
  }

  /** `Prepend(a, r)`: `a` put in front of the windows of `r`, if any. */
  function Prepend(a: seq<Window>, r: Option<seq<Window>>): Option<seq<Window>>
  {
    match r
    case None => None
    case Some(ws) => Some(a + ws)
  }

  /**
   * The single-label fallback over `keys`: None as soon as one key's
   * windows are empty, and otherwise the windows of every key, in order.
   */
  function PerKey(tok: Tokenizer, prompt: string, labels: map<string, string>, keys: seq<string>,
                  dumps: seq<(string, string)> -> string, strideOf: int -> int): Option<seq<Window>>
    decreases |keys|
  {
    if keys == [] then Some([])
    else
      var w := Fitted(tok, prompt, MakeTargetJson(dumps, labels, [keys[0]]), strideOf);
      if w == [] then None else Prepend(w, PerKey(tok, prompt, labels, keys[1..], dumps, strideOf))
  }

  /** Every fallback window carries the whole JSON of one of the keys, and fits. */
  lemma {:induction false} PerKeyShape(tok: Tokenizer, prompt: string, labels: map<string, string>, keys: seq<string>,
                                       dumps: seq<(string, string)> -> string, strideOf: int -> int)
    requires PerKey(tok, prompt, labels, keys, dumps, strideOf).Some?
    ensures forall x :: x in PerKey(tok, prompt, labels, keys, dumps, strideOf).value ==>
      (exists k :: k in keys && x.target == MakeTargetJson(dumps, labels, [k])) &&
      x.meta.totalTokens <= TokenLimit && x.meta.promptTokens + x.meta.targetTokens == x.meta.totalTokens
    decreases |keys|
  {
    if keys != [] {
      var t := MakeTargetJson(dumps, labels, [keys[0]]);
      FittedShape(tok, prompt, t, strideOf);
      PerKeyShape(tok, prompt, labels, keys[1..], dumps, strideOf);
      forall x | x in PerKey(tok, prompt, labels, keys, dumps, strideOf).value
        ensures exists k :: k in keys && x.target == MakeTargetJson(dumps, labels, [k])
      {
        if x in Fitted(tok, prompt, t, strideOf) {
          assert keys[0] in keys && x.target == MakeTargetJson(dumps, labels, [keys[0]]);
        } else {
          var k :| k in keys[1..] && x.target == MakeTargetJson(dumps, labels, [k]);
          assert k in keys;
        }
      }
    }
  }

  /**
   * One item's windows and their id tag: all labels in one target
   * ("tgtALL"); failing that, one target per label ("tgtSPLIT"); None when
   * even one label alone does not fit.
   */
  ghost function ItemWindows(tok: Tokenizer, item: Item, dumps: seq<(string, string)> -> string, strideOf: int -> int)
    : Option<(seq<Window>, string)>
  {
    var prompt := MakePromptText(item.input.task, item.input.context);
    var keys := SortedOf(item.labels.Keys);
    var all := Fitted(tok, prompt, MakeTargetJson(dumps, item.labels, keys), strideOf);
    if all != [] then Some((all, "tgtALL"))
    else
      match PerKey(tok, prompt, item.labels, keys, dumps, strideOf)
      case None => None
      case Some(ws) => if ws == [] then None else Some((ws, "tgtSPLIT"))
  }

  /**
   * An item's windows fit the budget, and each carries either the JSON of
   * all its labels under their sorted keys or the JSON of one of its labels:
   * labels are never cut.
   */
  lemma ItemWindowsShape(tok: Tokenizer, item: Item, dumps: seq<(string, string)> -> string, strideOf: int -> int)
    requires ItemWindows(tok, item, dumps, strideOf).Some?
    ensures var (ws, variant) := ItemWindows(tok, item, dumps, strideOf).value;
      ws != [] &&
      forall x :: x in ws ==>
        x.meta.totalTokens <= TokenLimit && x.meta.promptTokens + x.meta.targetTokens == x.meta.totalTokens &&
        (variant == "tgtALL" ==> x.target == MakeTargetJson(dumps, item.labels, SortedOf(item.labels.Keys))) &&
        (variant != "tgtALL" ==> exists k :: k in item.labels && x.target == MakeTargetJson(dumps, item.labels, [k]))
  {
    var prompt := MakePromptText(item.input.task, item.input.context);
    var keys := SortedOf(item.labels.Keys);
    var t := MakeTargetJson(dumps, item.labels, keys);
    FittedShape(tok, prompt, t, strideOf);
    if Fitted(tok, prompt, t, strideOf) == [] {
      PerKeyShape(tok, prompt, item.labels, keys, dumps, strideOf);
    }
  }

  /** The item's windows, computed as `build_split` does. */
  method WindowItem(tok: Tokenizer, item: Item, dumps: seq<(string, string)> -> string, strideOf: int -> int)
    returns (r: Option<(seq<Window>, string)>)
    ensures r == ItemWindows(tok, item, dumps, strideOf)
  {
    var prompt := MakePromptText(item.input.task, item.input.context);
    var keys := SortKeys(item.labels.Keys);
    var all := WindowInputsCapped(tok, prompt, Instruction, MakeTargetJson(dumps, item.labels, keys), TokenLimit, strideOf);
    if all != [] {
      return Some((all, "tgtALL"));
    }
    var per := PerKeyWindows(tok, prompt, item.labels, keys, dumps, strideOf);
    if per == [] {
      return None;
    }
    return Some((per, "tgtSPLIT"));
  }

  /** The single-label loop: stop with no windows as soon as one label does not fit. */
  method PerKeyWindows(tok: Tokenizer, prompt: string, labels: map<string, string>, keys: seq<string>,
                       dumps: seq<(string, string)> -> string, strideOf: int -> int) returns (per: seq<Window>)
    ensures per == (match PerKey(tok, prompt, labels, keys, dumps, strideOf) case None => [] case Some(ws) => ws)
  {
    per := [];
    var failed := false;
    var i := 0;
    assert keys[i..] == keys;
    ghost var whole := PerKey(tok, prompt, labels, keys, dumps, strideOf);
    assert whole.Some? ==> [] + whole.value == whole.value;
    while i < |keys|
      invariant 0 <= i <= |keys|
      invariant !failed ==> PerKey(tok, prompt, labels, keys, dumps, strideOf) == Prepend(per, PerKey(tok, prompt, labels, keys[i..], dumps, strideOf))
      invariant failed ==> per == [] && PerKey(tok, prompt, labels, keys, dumps, strideOf).None?
    {
      var w := WindowInputsCapped(tok, prompt, Instruction, MakeTargetJson(dumps, labels, [keys[i]]), TokenLimit, strideOf);
      assert w == Fitted(tok, prompt, MakeTargetJson(dumps, labels, [keys[i]]), strideOf);
      PerKeyStep(tok, prompt, labels, keys[i..], dumps, strideOf);
      assert keys[i..][0] == keys[i] && keys[i..][1..] == keys[i + 1..];
      if w == [] {
        per := [];
        failed := true;
        break;
      }
      PrependTwice(per, w, PerKey(tok, prompt, labels, keys[i + 1..], dumps, strideOf));
      per := per + w;
      i := i + 1;
    }
    if !failed {
      assert keys[i..] == [];
      assert per + [] == per;
    }
  }

  /** One step of `PerKey`. */
  lemma PerKeyStep(tok: Tokenizer, prompt: string, labels: map<string, string>, keys: seq<string>,
                   dumps: seq<(string, string)> -> string, strideOf: int -> int)
    requires keys != []
    ensures var w := Fitted(tok, prompt, MakeTargetJson(dumps, labels, [keys[0]]), strideOf);
      PerKey(tok, prompt, labels, keys, dumps, strideOf) ==
        if w == [] then None else Prepend(w, PerKey(tok, prompt, labels, keys[1..], dumps, strideOf))
  {
  }

  lemma PrependTwice(a: seq<Window>, b: seq<Window>, r: Option<seq<Window>>)
    ensures Prepend(a, Prepend(b, r)) == Prepend(a + b, r)
  {
    if r.Some? {
      AppendAssoc(a, b, r.value);
    }
  }

  /** `f"{split}_{n:06d}_w{w:02d}_{variant}"`. */
  function RowId(split: string, n: nat, w: nat, variant: string): string
  {
    split + "_" + ZeroPad(n, 6) + "_w" + ZeroPad(w, 2) + "_" + variant
  }

  /** The rows of item number `n`: one per window, numbered from 1. */
  function ItemRows(split: string, n: nat, ws: seq<Window>, variant: string): (r: seq<Row>)
    ensures |r| == |ws|
    ensures forall j :: 0 <= j < |ws| ==> r[j] == Row(RowId(split, n, j + 1, variant), ws[j].prompt, ws[j].target, ws[j].meta)
  {
    seq(|ws|, j requires 0 <= j < |ws| => Row(RowId(split, n, j + 1, variant), ws[j].prompt, ws[j].target, ws[j].meta))
  }

  /** The windows `build_split` finds for each item. */
  ghost function WindowsOf(tok: Tokenizer, dumps: seq<(string, string)> -> string, strideOf: int -> int)
    : Item -> Option<(seq<Window>, string)>
  {
    it => ItemWindows(tok, it, dumps, strideOf)
  }

  /**
   * `build_split` from item number `n` on, given each item's windows: an
   * item without windows is skipped and does not use up a number.
   */
  function SplitRows(recs: seq<Item>, split: string, n: nat, windowsOf: Item -> Option<(seq<Window>, string)>): seq<Row>
    decreases |recs|
  {
    if recs == [] then []
    else
      match windowsOf(recs[0])
      case None => SplitRows(recs[1..], split, n, windowsOf)
      case Some(wv) => ItemRows(split, n, wv.0, wv.1) + SplitRows(recs[1..], split, n + 1, windowsOf)
  }

  /** One step of `SplitRows`. */
  lemma SplitRowsStep(recs: seq<Item>, split: string, n: nat, windowsOf: Item -> Option<(seq<Window>, string)>)
    requires recs != []
    ensures windowsOf(recs[0]).None? ==> SplitRows(recs, split, n, windowsOf) == SplitRows(recs[1..], split, n, windowsOf)
    ensures windowsOf(recs[0]).Some? ==>
      var wv := windowsOf(recs[0]).value;
      SplitRows(recs, split, n, windowsOf) == ItemRows(split, n, wv.0, wv.1) + SplitRows(recs[1..], split, n + 1, windowsOf)
  {
  }

  /** A row's counts add up and stay within the budget. */
  predicate RowFits(row: Row)
  {
    row.meta.totalTokens <= TokenLimit && row.meta.promptTokens + row.meta.targetTokens == row.meta.totalTokens
  }

  /** A window fits the budget and carries the whole JSON of the labels or of one label. */
  ghost predicate WindowOk(dumps: seq<(string, string)> -> string, labels: map<string, string>, x: Window)
  {
    x.meta.totalTokens <= TokenLimit && x.meta.promptTokens + x.meta.targetTokens == x.meta.totalTokens &&
    TargetOf(dumps, labels, x.target)
  }

  /** The target is the JSON of all the labels under sorted keys, or of one label. */
  ghost predicate TargetOf(dumps: seq<(string, string)> -> string, labels: map<string, string>, target: string)
  {
    target == MakeTargetJson(dumps, labels, SortedOf(labels.Keys)) ||
    exists k :: k in labels && target == MakeTargetJson(dumps, labels, [k])
  }

  /**
   * When every item's windows are good, so is every row of the split: it
   * fits and its target is the whole label JSON of one of the items.
   */
  lemma {:induction false} SplitRowsOk(recs: seq<Item>, split: string, n: nat, windowsOf: Item -> Option<(seq<Window>, string)>,
                                       dumps: seq<(string, string)> -> string)
    requires forall i :: 0 <= i < |recs| && windowsOf(recs[i]).Some? ==>
      forall x :: x in windowsOf(recs[i]).value.0 ==> WindowOk(dumps, recs[i].labels, x)
    ensures var rows := SplitRows(recs, split, n, windowsOf);
      forall k :: 0 <= k < |rows| ==> RowFits(rows[k]) && exists i :: 0 <= i < |recs| && TargetOf(dumps, recs[i].labels, rows[k].target)
    decreases |recs|
  {
    if recs != [] {
      SplitRowsStep(recs, split, n, windowsOf);
      var m := if windowsOf(recs[0]).Some? then n + 1 else n;
      var rest := SplitRows(recs[1..], split, m, windowsOf);
      assert forall i :: 0 <= i < |recs[1..]| ==> recs[1..][i] == recs[i + 1];
      SplitRowsOk(recs[1..], split, m, windowsOf, dumps);
      ShiftTargets(dumps, recs, rest);
      if windowsOf(recs[0]).Some? {
        var wv := windowsOf(recs[0]).value;
        var head := ItemRows(split, n, wv.0, wv.1);
        forall k | 0 <= k < |head|
          ensures RowFits(head[k]) && TargetOf(dumps, recs[0].labels, head[k].target)
        {
          assert wv.0[k] in wv.0;
        }
        ConcatRowsFit(dumps, recs, head, rest);
      }
    }
  }

  lemma ConcatRowsFit(dumps: seq<(string, string)> -> string, recs: seq<Item>, head: seq<Row>, rest: seq<Row>)
    requires recs != []
    requires forall k :: 0 <= k < |head| ==> RowFits(head[k]) && TargetOf(dumps, recs[0].labels, head[k].target)
    requires forall k :: 0 <= k < |rest| ==> RowFits(rest[k]) && exists i :: 0 <= i < |recs| && TargetOf(dumps, recs[i].labels, rest[k].target)
    ensures forall k :: 0 <= k < |head + rest| ==>
      RowFits((head + rest)[k]) && exists i :: 0 <= i < |recs| && TargetOf(dumps, recs[i].labels, (head + rest)[k].target)
  {
    forall k | 0 <= k < |head + rest|
      ensures RowFits((head + rest)[k]) && exists i :: 0 <= i < |recs| && TargetOf(dumps, recs[i].labels, (head + rest)[k].target)
    {
      if k < |head| {
        assert (head + rest)[k] == head[k];
      } else {
        assert (head + rest)[k] == rest[k - |head|];
      }
    }
  }

  /** Targets that come from the later items come from the items. */
  lemma ShiftTargets(dumps: seq<(string, string)> -> string, recs: seq<Item>, rows: seq<Row>)
    requires recs != []
    requires forall k :: 0 <= k < |rows| ==> exists i :: 0 <= i < |recs[1..]| && TargetOf(dumps, recs[1..][i].labels, rows[k].target)
    ensures forall k :: 0 <= k < |rows| ==> exists i :: 0 <= i < |recs| && TargetOf(dumps, recs[i].labels, rows[k].target)
  {
    forall k | 0 <= k < |rows|
      ensures exists i :: 0 <= i < |recs| && TargetOf(dumps, recs[i].labels, rows[k].target)
    {
      var i :| 0 <= i < |recs[1..]| && TargetOf(dumps, recs[1..][i].labels, rows[k].target);
      assert recs[1..][i] == recs[i + 1];
    }
  }

  /**
   * Every row `build_split` writes fits the 384-token budget, and its
   * target is the whole label JSON of one of the split's items (all labels
   * under sorted keys, or a single label): labels are never cut.
   */
  lemma BuildSplitFits(tok: Tokenizer, recs: seq<Item>, split: string, dumps: seq<(string, string)> -> string, strideOf: int -> int)
    ensures var rows := SplitRows(recs, split, 1, WindowsOf(tok, dumps, strideOf));
      forall k :: 0 <= k < |rows| ==> RowFits(rows[k]) && exists i :: 0 <= i < |recs| && TargetOf(dumps, recs[i].labels, rows[k].target)
  {
    var windowsOf := WindowsOf(tok, dumps, strideOf);
    forall i | 0 <= i < |recs| && windowsOf(recs[i]).Some?
      ensures forall x :: x in windowsOf(recs[i]).value.0 ==> WindowOk(dumps, recs[i].labels, x)
    {
      ItemWindowsShape(tok, recs[i], dumps, strideOf);
    }
    SplitRowsOk(recs, split, 1, windowsOf, dumps);
  }

  /** One item's rows, emitted in window order. */
  method EmitItemRows(split: string, n: nat, ws: seq<Window>, variant: string) returns (out: seq<Row>)
    ensures out == ItemRows(split, n, ws, variant)
  {
    out := [];
    var j := 0;
    while j < |ws|
      invariant 0 <= j <= |ws| && |out| == j
      invariant forall t :: 0 <= t < j ==> out[t] == Row(RowId(split, n, t + 1, variant), ws[t].prompt, ws[t].target, ws[t].meta)
    {
      out := out + [Row(RowId(split, n, j + 1, variant), ws[j].prompt, ws[j].target, ws[j].meta)];
      j := j + 1;
    }
  }

  /** `build_split`: number the items that yield windows from 1 and emit one row per window. */
  method BuildSplit(tok: Tokenizer, recs: seq<Item>, split: string, dumps: seq<(string, string)> -> string, strideOf: int -> int)
    returns (rows: seq<Row>)
    ensures rows == SplitRows(recs, split, 1, WindowsOf(tok, dumps, strideOf))
  {
    ghost var windowsOf := WindowsOf(tok, dumps, strideOf);
    rows := [];
    var nextId := 1;
    var i := 0;
    while i < |recs|
      invariant 0 <= i <= |recs| && nextId >= 1
      invariant rows + SplitRows(recs[i..], split, nextId, windowsOf) == SplitRows(recs, split, 1, windowsOf)
    {
      var r := WindowItem(tok, recs[i], dumps, strideOf);
      SplitRowsStep(recs[i..], split, nextId, windowsOf);
      assert recs[i..][0] == recs[i] && recs[i..][1..] == recs[i + 1..];
      assert r == windowsOf(recs[i]);
      i := i + 1;
      if r.None? {
        continue;
      }
      var out := EmitItemRows(split, nextId, r.value.0, r.value.1);
      AppendAssoc(rows, out, SplitRows(recs[i..], split, nextId + 1, windowsOf));
      rows := rows + out;
      nextId := nextId + 1;
    }
  }

  /**
   * `main` without the file I/O and the shuffle: read the raw list, keep
   * the first item of each fingerprint, split with the given sizes and
   * window each split.
   */
  method BuildDataset(data: Json, sha256: string -> string, nTrain: nat, nVal: nat, tok: Tokenizer,
                      dumps: seq<(string, string)> -> string, strideOf: int -> int)
    returns (r: Result<(seq<Row>, seq<Row>, seq<Row>)>)
    ensures r.Err? <==> !data.JList?
    ensures r.Err? ==> r.error == ValueError("Raw dataset must be a JSON list of dicts.")
    ensures r.Ok? ==>
      var parts := Split(Uniq(Candidates(data.items, true), FingerprintOf(sha256), {}), nTrain, nVal);
      var windowsOf := WindowsOf(tok, dumps, strideOf);
      r.value == (SplitRows(parts.0, "train", 1, windowsOf), SplitRows(parts.1, "val", 1, windowsOf),
                  SplitRows(parts.2, "test", 1, windowsOf))
  {
    var raw := ReadRaw(data);
    if raw.Err? {
      return Err(raw.error);
    }
    var items := DedupeRows(raw.value, sha256);
    var parts := Split(items, nTrain, nVal);
    var train := BuildSplit(tok, parts.0, "train", dumps, strideOf);
    var val := BuildSplit(tok, parts.1, "val", dumps, strideOf);
    var test := BuildSplit(tok, parts.2, "test", dumps, strideOf);
    return Ok((train, val, test));
  }
}
