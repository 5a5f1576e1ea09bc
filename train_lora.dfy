/*
 * The data side of the LoRA trainer: turning a dataset row into a prompt
 * and a target text, encoding the pair into one token sequence whose
 * prompt part is masked out of the loss, and padding a batch of encoded
 * rows to one common length. The torch training and evaluation loop is not
 * part of this model.
 */
module TrainLora {
  import opened Common
  import opened PyJson
  import opened StrOrder
  import CleanWindow

  /** `{"prompt": ..., "target": ...}`; the windowed format passes its values through as they are. */
  datatype PromptTarget = PromptTarget(prompt: Json, target: Json)

  // ---------------------------------------------------------------------
  // `build_prompt_and_target`.

  /** `sub in s` on strings. */
  predicate HasSubstring(s: string, sub: string)
  {
    exists i :: 0 <= i <= |s| && OccursAt(s, sub, i)
  }

  predicate OccursAt(s: string, sub: string, i: nat)
  {
    i + |sub| <= |s| && s[i..i + |sub|] == sub
  }

  /** `key in v`: dict keys, list items, substrings; other values are not iterable. */
  function In(key: string, v: Json): (r: Result<bool>)
    ensures v.JObj? ==> r == Ok(key in Keys(v.entries))
    ensures r.Err? <==> v.JNull? || v.JBool? || v.JInt?
  {
    match v
    case JObj(entries) => Ok(key in Keys(entries))
    case JList(items) => Ok(JStr(key) in items)
    case JStr(s) => Ok(HasSubstring(s, key))
    case _ => Err(TypeError("argument of type '" + TypeName(v) + "' is not iterable"))
  }

  /** `v[key]` with a str key on a value that has both keys. */
  function Subscript(v: Json, key: string): (r: Result<Json>)
    ensures v.JObj? && key in Keys(v.entries) ==> r == Ok(Lookup(v.entries, key).value)
  {
    match v
    case JObj(entries) =>
      (match Lookup(entries, key) case Some(x) => Ok(x) case None => Err(KeyError(key)))
    case JList(_) => Err(TypeError("list indices must be integers or slices, not str"))
    case _ => Err(TypeError("string indices must be integers, not 'str'"))
  }

  /** `v.strip()`: only a str has it. */
  function StripValue(v: Json): (r: Result<string>)
    ensures r.Ok? <==> v.JStr?
    ensures v.JStr? ==> r == Ok(Strip(v.s))
  {
    if v.JStr? then Ok(Strip(v.s)) else Err(AttributeError("'" + TypeName(v) + "' object has no attribute 'strip'"))
  }

  /** The four instruction lines the trainer writes before the sections. */
  const InstructionLines: seq<string> := [
    "### Instruction",
    "You are A2 pass-1. Read the text below and output a STRICT JSON object",
    "with any of these keys if present: system, audience, purpose, tone, confidence, response_depth.",
    "Do not add extra keys. Do not add explanations."]

  /** The TASK and CONTEXT sections, each only when its text is non-empty. */
  function Sections(task: string, context: string): seq<string>
  {
    (if task != [] then ["\n### TASK", task] else []) + (if context != [] then ["\n### CONTEXT", context] else [])
  }

  /** The old-format prompt: the lines joined by newlines, stripped. */
  function PromptText(task: string, context: string): string
  {
    Strip(Join(InstructionLines + Sections(task, context), "\n"))
  }

  /**
   * The trainer's fallback prompt is the same text the windowing script
   * builds from the same task and context, so rows in either format train
   * on identical prompts.
   */
  lemma PromptMatchesWindowing(task: string, context: string)
    ensures PromptText(task, context) == CleanWindow.MakePromptText(task, context)
  {
    assert InstructionLines == CleanWindow.InstructionLines;
    var s := Sections(task, context);
    assert s == CleanWindow.Sections(task, context);
    if s == [] {
      assert InstructionLines + s == InstructionLines;
      assert [CleanWindow.Instruction] + s == [CleanWindow.Instruction];
    } else {
      JoinAppend(InstructionLines, s, "\n");
      JoinAppend([CleanWindow.Instruction], s, "\n");
    }
  }

  /** `{k: labels[k] for k in sorted(labels.keys())}`. */
  function Ordered(entries: seq<(string, Json)>): (r: seq<(string, Json)>)
    ensures Keys(r) == SortedSet(Keys(entries))
    ensures forall i :: 0 <= i < |r| ==> r[i].0 in Keys(entries) && Lookup(entries, r[i].0) == Some(r[i].1)
  {
    var ks := SortedSet(Keys(entries));
    seq(|ks|, i requires 0 <= i < |ks| => (ks[i], Lookup(entries, ks[i]).value))
  }

  /**
   * The ordered labels are the dict's own bindings: the keys ascending,
   * each once, every key of the dict present, each with its value.
   */
  lemma OrderedShape(entries: seq<(string, Json)>)
    ensures var r := Ordered(entries);
            StrictlySorted(Keys(r)) && (forall k :: k in Keys(r) <==> k in Keys(entries))
            && forall i :: 0 <= i < |r| ==> Lookup(entries, r[i].0) == Some(r[i].1)
  {
  }

  /** `item.get(key) or {}`. */
  function GetOrEmpty(item: Json, key: string): (r: Result<Json>)
    ensures r.Err? <==> !item.JObj?
  {
    match Get(item, key, JNull)
    case Err(e) => Err(e)
    case Ok(v) => Ok(Or(v, JObj([])))
  }

  /** `(item.get("input") or {}).get(key, "").strip()`. */
  function InputField(item: Json, key: string): (r: Result<string>)
  {
    match GetOrEmpty(item, "input")
    case Err(e) => Err(e)
    case Ok(inp) =>
      match Get(inp, key, JStr(""))
      case Err(e) => Err(e)
      case Ok(v) => StripValue(v)
  }

  /** The old-format fallback: prompt from the input's task and context, target from the sorted labels. */
  function FromInput(item: Json, dumps: Json -> string): Result<PromptTarget>
  {
    match InputField(item, "task")
    case Err(e) => Err(e)
    case Ok(task) =>
      match InputField(item, "context")
      case Err(e) => Err(e)
      case Ok(context) =>
        match GetOrEmpty(item, "labels")
        case Err(e) => Err(e)
        case Ok(labels) =>
          if !labels.JObj? then Err(AttributeError("'" + TypeName(labels) + "' object has no attribute 'keys'"))
          else Ok(PromptTarget(JStr(PromptText(task, context)), JStr(dumps(JObj(Ordered(labels.entries))))))
  }

  /** `build_prompt_and_target(item)`. */
  function BuildPromptAndTarget(item: Json, dumps: Json -> string): Result<PromptTarget>
  {
    match In("prompt", item)
    case Err(e) => Err(e)
    case Ok(hasPrompt) =>
      if hasPrompt && In("target", item) == Ok(true) then
        match Subscript(item, "prompt")
        case Err(e) => Err(e)
        case Ok(p) =>
          match Subscript(item, "target")
          case Err(e) => Err(e)
          case Ok(t) => Ok(PromptTarget(p, t))
      else FromInput(item, dumps)
  }

  /** A windowed row, one with both "prompt" and "target", is passed through unchanged. */
  lemma PassThrough(entries: seq<(string, Json)>, dumps: Json -> string)
    requires "prompt" in Keys(entries) && "target" in Keys(entries)
    ensures BuildPromptAndTarget(JObj(entries), dumps)
            == Ok(PromptTarget(Lookup(entries, "prompt").value, Lookup(entries, "target").value))
  {
  }

  /** A present or absent str field of a non-empty input dict reads as its stripped text. */
  lemma InputFieldOf(entries: seq<(string, Json)>, inp: seq<(string, Json)>, key: string, text: string)
    requires Lookup(entries, "input") == Some(JObj(inp)) && inp != []
    requires Get(JObj(inp), key, JStr("")) == Ok(JStr(text))
    ensures InputField(JObj(entries), key) == Ok(Strip(text))
  {
    assert GetOrEmpty(JObj(entries), "input") == Ok(JObj(inp));
  }

  /** The labels dict, empty or not, is what the fallback sorts. */
  lemma LabelsOf(entries: seq<(string, Json)>, labels: seq<(string, Json)>)
    requires Lookup(entries, "labels") == Some(JObj(labels))
    ensures GetOrEmpty(JObj(entries), "labels") == Ok(JObj(labels))
  {
  }

  /**
   * An old-format row (a dict lacking "prompt" or "target", whose input is
   * a dict where task and context are str or absent, with a dict of labels)
   * gets the windowing script's prompt for the stripped task and context,
   * and the encoding of its labels with the keys sorted.
   */
  lemma OldFormat(entries: seq<(string, Json)>, inp: seq<(string, Json)>, task: string, context: string,
                  labels: seq<(string, Json)>, dumps: Json -> string)
    requires !("prompt" in Keys(entries) && "target" in Keys(entries))
    requires Lookup(entries, "input") == Some(JObj(inp)) && inp != []
    requires Get(JObj(inp), "task", JStr("")) == Ok(JStr(task))
    requires Get(JObj(inp), "context", JStr("")) == Ok(JStr(context))
    requires Lookup(entries, "labels") == Some(JObj(labels))
    ensures BuildPromptAndTarget(JObj(entries), dumps)
            == Ok(PromptTarget(JStr(CleanWindow.MakePromptText(Strip(task), Strip(context))), JStr(dumps(JObj(Ordered(labels))))))
  {
    InputFieldOf(entries, inp, "task", task);
    InputFieldOf(entries, inp, "context", context);
    LabelsOf(entries, labels);
    assert BuildPromptAndTarget(JObj(entries), dumps) == FromInput(JObj(entries), dumps);
    PromptMatchesWindowing(Strip(task), Strip(context));
  }

  /** A row that is not a dict raises: TypeError, or AttributeError from `get`. */
  lemma NotADict(item: Json, dumps: Json -> string)
    requires !item.JObj?
    ensures BuildPromptAndTarget(item, dumps).Err?
  {
    if In("prompt", item).Ok? && !(In("prompt", item).value && In("target", item) == Ok(true)) {
      assert GetOrEmpty(item, "input").Err?;
    }
  }

  // ---------------------------------------------------------------------
  // Encoding one row.

  /** One encoded sample: token ids, loss labels and attention mask. */
  datatype Encoded = Encoded(inputIds: seq<int>, labels: seq<int>, attentionMask: seq<int>)

  /** The label value the loss ignores. */
  const IgnoreIndex: int := -100

  /** `s[:m]` with Python's reading of a negative bound. */
  function SliceTo(s: seq<int>, m: int): (r: seq<int>)
    ensures |r| <= |s| && r == s[..|r|]
    ensures m >= 0 ==> |r| == (if m < |s| then m else |s|)
    ensures m < 0 ==> |r| == (if |s| + m > 0 then |s| + m else 0)
  {
    if m >= 0 then (if m < |s| then s[..m] else s)
    else if |s| + m > 0 then s[..|s| + m] else []
  }

  /** The end-of-sequence token, when the tokenizer defines one. */
  function EosTail(eos: Option<int>): seq<int>
  {
    if eos.Some? then [eos.value] else []
  }

  /** `full_ids`: prompt, target and EOS tokens, truncated to `max_length`. */
  function FullIds(promptIds: seq<int>, targetIds: seq<int>, eos: Option<int>, maxLength: int): seq<int>
  {
    SliceTo(promptIds + targetIds + EosTail(eos), maxLength)
  }

  /** Copies `full` into a fresh buffer and overwrites its first `promptLen` slots with the ignore label. */
  method MaskPrompt(full: seq<int>, promptLen: nat) returns (labels: seq<int>)
    ensures |labels| == |full|
    ensures forall i :: 0 <= i < |full| ==> labels[i] == (if i < promptLen then IgnoreIndex else full[i])
  {
    var a := new int[|full|](i requires 0 <= i < |full| => full[i]);
    var n := if promptLen < |full| then promptLen else |full|;
    for i := 0 to n
      invariant forall k :: 0 <= k < |full| ==> a[k] == (if k < i then IgnoreIndex else full[k])
    {
      a[i] := IgnoreIndex;
    }
    labels := a[..];
  }

  /** The encoding of one prompt/target pair. */
  method Encode(promptIds: seq<int>, targetIds: seq<int>, eos: Option<int>, maxLength: int) returns (e: Encoded)
    ensures e == Encoding(promptIds, targetIds, eos, maxLength)
  {
    var full := FullIds(promptIds, targetIds, eos, maxLength);
    var labels := MaskPrompt(full, |promptIds|);
    e := Encoded(full, labels, seq(|full|, _ => 1));
  }

  /** The specification of `Encode`. */
  function Encoding(promptIds: seq<int>, targetIds: seq<int>, eos: Option<int>, maxLength: int): Encoded
  {
    var full := FullIds(promptIds, targetIds, eos, maxLength);
    Encoded(full, seq(|full|, i requires 0 <= i < |full| => if i < |promptIds| then IgnoreIndex else full[i]),
            seq(|full|, _ => 1))
  }

  /**
   * The encoded sample is a prefix of prompt, target and EOS, no longer
   * than `max_length` when that is non-negative; its three parts have one
   * length; attention covers every token; and the loss sees exactly the
   * tokens after the prompt — each of which is the matching target (or
   * EOS) token.
   */
  lemma EncodingShape(promptIds: seq<int>, targetIds: seq<int>, eos: Option<int>, maxLength: int)
    ensures var e := Encoding(promptIds, targetIds, eos, maxLength);
            var all := promptIds + targetIds + EosTail(eos);
            |e.inputIds| <= |all| && e.inputIds == all[..|e.inputIds|]
            && (maxLength >= 0 ==> |e.inputIds| == (if maxLength < |all| then maxLength else |all|))
            && |e.labels| == |e.inputIds| && |e.attentionMask| == |e.inputIds|
            && (forall i :: 0 <= i < |e.attentionMask| ==> e.attentionMask[i] == 1)
            && (forall i :: 0 <= i < |e.labels| && i < |promptIds| ==> e.labels[i] == IgnoreIndex)
            && (forall i :: |promptIds| <= i < |e.labels| ==> e.labels[i] == (targetIds + EosTail(eos))[i - |promptIds|])
  {
    var all := promptIds + targetIds + EosTail(eos);
    assert all == promptIds + (targetIds + EosTail(eos));
  }

  /** The pair a row becomes, tokenized and encoded; the tokenizer may reject a value that is not a str. */
  function EncodeRow(row: Json, tok: Json -> Result<seq<int>>, eos: Option<int>, maxLength: int,
                     dumps: Json -> string): Result<Encoded>
  {
    match BuildPromptAndTarget(row, dumps)
    case Err(e) => Err(e)
    case Ok(pair) =>
      match tok(pair.prompt)
      case Err(e) => Err(e)
      case Ok(promptIds) =>
        match tok(pair.target)
        case Err(e) => Err(e)
        case Ok(targetIds) => Ok(Encoding(promptIds, targetIds, eos, maxLength))
  }

  /** `EncodeRow` with the tokenizer and settings fixed. */
  function RowEncoder(tok: Json -> Result<seq<int>>, eos: Option<int>, maxLength: int, dumps: Json -> string)
    : Json -> Result<Encoded>
  {
    row => EncodeRow(row, tok, eos, maxLength, dumps)
  }

  // ---------------------------------------------------------------------
  // `A2JsonlDataset`.

  class A2JsonlDataset {
    var rows: seq<Json>
    var maxLength: int
    var encoded: seq<Encoded>

    /** The fields as the constructor sets them before encoding. */
    constructor(rows: seq<Json>, maxLength: int)
      ensures this.rows == rows && this.maxLength == maxLength && encoded == []
    {
      this.rows := rows;
      this.maxLength := maxLength;
      encoded := [];
    }

    /**
     * The constructor's loop: encodes every row in order, appending to
     * `encoded`; the first row that raises stops it.
     */
    method EncodeRows(tok: Json -> Result<seq<int>>, eos: Option<int>, dumps: Json -> string)
        returns (err: Option<Error>)
      requires encoded == []
      modifies this
      ensures rows == old(rows) && maxLength == old(maxLength)
      ensures var r := TryMap(rows, RowEncoder(tok, eos, maxLength, dumps));
              (r.Ok? ==> err == None && encoded == r.value) && (r.Err? ==> err == Some(r.error))
    {
      var i := 0;
      ghost var spec := RowEncoder(tok, eos, maxLength, dumps);
      assert rows[0..] == rows;
      ThenNothing(TryMap(rows, spec));
      while i < |rows|
        invariant 0 <= i <= |rows|
        invariant rows == old(rows) && maxLength == old(maxLength)
        invariant Then(encoded, TryMap(rows[i..], spec)) == TryMap(rows, spec)
      {
        TryMapStep(rows, i, spec);
        var one := EncodeOne(rows[i], tok, eos, maxLength, dumps);
        if one.Err? {
          return Some(one.error);
        }
        ThenAssoc(encoded, [one.value], TryMap(rows[i + 1..], spec));
        encoded := encoded + [one.value];
        i := i + 1;
      }
      assert rows[i..] == [];
      assert encoded + [] == encoded;
      err := None;
    }

    /** `len(dataset)`. */
    function Length(): (n: nat)
      reads this
      ensures n == |encoded|
    {
      |encoded|
    }

    /** `dataset[idx]`, with Python's negative indices and IndexError outside. */
    function GetItem(idx: int): (r: Result<Encoded>)
      reads this
      ensures r.Ok? <==> -|encoded| <= idx < |encoded|
      ensures r.Ok? ==> r.value == encoded[if idx < 0 then idx + |encoded| else idx]
    {
      if 0 <= idx < |encoded| then Ok(encoded[idx])
      else if -|encoded| <= idx < 0 then Ok(encoded[idx + |encoded|])
      else Err(IndexError("list index out of range"))
    }
  }

  /** One pass of the constructor's loop body. */
  method EncodeOne(row: Json, tok: Json -> Result<seq<int>>, eos: Option<int>, maxLength: int, dumps: Json -> string)
      returns (r: Result<Encoded>)
    ensures r == RowEncoder(tok, eos, maxLength, dumps)(row)
  {
    var pair := BuildPromptAndTarget(row, dumps);
    if pair.Err? {
      return Err(pair.error);
    }
    var promptIds := tok(pair.value.prompt);
    if promptIds.Err? {
      return Err(promptIds.error);
    }
    var targetIds := tok(pair.value.target);
    if targetIds.Err? {
      return Err(targetIds.error);
    }
    var e := Encode(promptIds.value, targetIds.value, eos, maxLength);
    r := Ok(e);
  }

  /** `A2JsonlDataset(rows, tokenizer, max_length)`: the dataset, or the exception its constructor raises. */
  method NewDataset(rows: seq<Json>, tok: Json -> Result<seq<int>>, eos: Option<int>, maxLength: int,
                    dumps: Json -> string) returns (r: Result<A2JsonlDataset>)
    ensures var spec := TryMap(rows, RowEncoder(tok, eos, maxLength, dumps));
            (r.Ok? <==> spec.Ok?) && (r.Err? ==> r.error == spec.error)
            && (r.Ok? ==> fresh(r.value) && r.value.rows == rows && r.value.encoded == spec.value)
  {
    var ds := new A2JsonlDataset(rows, maxLength);
    var err := ds.EncodeRows(tok, eos, dumps);
    if err.Some? {
      return Err(err.value);
    }
    r := Ok(ds);
  }

  /**
   * Every sample of a dataset built without error comes from its row: one
   * sample per row, in order, each the encoding of that row's pair.
   */
  lemma DatasetRows(rows: seq<Json>, tok: Json -> Result<seq<int>>, eos: Option<int>, maxLength: int,
                    dumps: Json -> string)
    ensures var r := TryMap(rows, RowEncoder(tok, eos, maxLength, dumps));
            r.Ok? ==> |r.value| == |rows|
                      && forall k :: 0 <= k < |rows| ==> Ok(r.value[k]) == EncodeRow(rows[k], tok, eos, maxLength, dumps)
  {
    var f := RowEncoder(tok, eos, maxLength, dumps);
    TryMapOk(rows, f);
    assert forall k :: 0 <= k < |rows| ==> f(rows[k]) == EncodeRow(rows[k], tok, eos, maxLength, dumps);
  }

  // ---------------------------------------------------------------------
  // `collate_batch`.

  /** Python's `a // b` (rounding toward negative infinity). */
  function FloorDiv(a: int, b: int): int
    requires b != 0
  {
    if b > 0 then a / b else (-a) / (-b)
  }

  /** Python's `a % b` (the sign of `b`). */
  function FloorMod(a: int, b: int): int
    requires b != 0
  {
    a - b * FloorDiv(a, b)
  }

  /** The longest `input_ids`. */
  function MaxLen(features: seq<Encoded>): (m: nat)
    requires features != []
    ensures forall k :: 0 <= k < |features| ==> |features[k].inputIds| <= m
    ensures exists k :: 0 <= k < |features| && |features[k].inputIds| == m
  {
    if |features| == 1 then |features[0].inputIds|
    else
      var rest := MaxLen(features[1..]);
      assert forall k :: 1 <= k < |features| ==> features[k] == features[1..][k - 1];
      if |features[0].inputIds| > rest then |features[0].inputIds| else rest
  }

  /** The batch length: the longest row, rounded up to a multiple of `padToMultipleOf` when that is non-zero. */
  function BatchLength(longest: int, padToMultipleOf: int): int
  {
    if padToMultipleOf != 0 && FloorMod(longest, padToMultipleOf) != 0
    then (FloorDiv(longest, padToMultipleOf) + 1) * padToMultipleOf
    else longest
  }

  lemma MulAtLeast(p: int, d: int)
    requires p > 0 && d >= 1
    ensures p * d >= p
  {
    if d > 1 {
      MulAtLeast(p, d - 1);
      assert p * d == p * (d - 1) + p;
    }
  }

  /** Quotient and remainder are the only ones with `a == q * p + r` and `0 <= r < p`. */
  lemma DivModUnique(a: int, p: int, q: int, r: int)
    requires p > 0 && a == q * p + r && 0 <= r < p
    ensures a / p == q && a % p == r
  {
    var d := a / p - q;
    assert a == p * (a / p) + a % p;
    assert p * (a / p) == p * q + p * d;
    if d > 0 {
      MulAtLeast(p, d);
    } else if d < 0 {
      MulAtLeast(p, -d);
    }
  }

  /** For a positive multiple the batch length is the least multiple at or above the longest row. */
  lemma BatchLengthRoundsUp(longest: nat, p: int)
    requires p > 0
    ensures var n := BatchLength(longest, p);
            longest <= n < longest + p && n % p == 0 && (longest % p == 0 ==> n == longest)
  {
    var q := longest / p;
    var rm := longest % p;
    assert longest == p * q + rm;
    assert FloorMod(longest, p) == rm;
    if rm != 0 {
      var n := (q + 1) * p;
      assert n == q * p + p;
      DivModUnique(n, p, q + 1, 0);
    }
  }

  /** `n` copies of `x`. */
  function Fill(n: nat, x: int): (r: seq<int>)
    ensures |r| == n && forall i :: 0 <= i < n ==> r[i] == x
  {
    seq(n, _ => x)
  }

  /** One row padded to `width`: ids with `padId`, labels with the ignore label, attention with 0. */
  function PadRow(f: Encoded, width: int, padId: int): (r: Result<Encoded>)
    ensures r.Err? <==> width < |f.inputIds|
  {
    var padN := width - |f.inputIds|;
    if padN < 0 then Err(RuntimeError("Trying to create tensor with negative dimension " + IntToString(padN)
                                      + ": [" + IntToString(padN) + "]"))
    else Ok(Encoded(f.inputIds + Fill(padN, padId), f.labels + Fill(padN, IgnoreIndex), f.attentionMask + Fill(padN, 0)))
  }

  /** `PadRow` with the width and pad id fixed. */
  function Padder(width: int, padId: int): Encoded -> Result<Encoded>
  {
    f => PadRow(f, width, padId)
  }

  /** The three stacked tensors of a batch, one row per sample. */
  datatype Batch = Batch(inputIds: seq<seq<int>>, labels: seq<seq<int>>, attentionMask: seq<seq<int>>)

  /**
   * `torch.stack` of the padded rows, one tensor per part. PyTorch raises
   * when the rows differ in length; this function does not model that
   * error, which samples whose three parts are aligned never reach.
   */
  function Stack(rows: seq<Encoded>): (b: Batch)
    ensures |b.inputIds| == |rows| && |b.labels| == |rows| && |b.attentionMask| == |rows|
    ensures forall k :: 0 <= k < |rows| ==>
              b.inputIds[k] == rows[k].inputIds && b.labels[k] == rows[k].labels && b.attentionMask[k] == rows[k].attentionMask
  {
    Batch(seq(|rows|, k requires 0 <= k < |rows| => rows[k].inputIds),
          seq(|rows|, k requires 0 <= k < |rows| => rows[k].labels),
          seq(|rows|, k requires 0 <= k < |rows| => rows[k].attentionMask))
  }

  /** The specification of `collate_batch`: `max` of an empty batch raises, as does a negative pad count. */
  function Collated(features: seq<Encoded>, padId: int, padToMultipleOf: int): Result<Batch>
  {
    if features == [] then Err(ValueError("max() arg is an empty sequence"))
    else
      match TryMap(features, Padder(BatchLength(MaxLen(features), padToMultipleOf), padId))
      case Err(e) => Err(e)
      case Ok(rows) => Ok(Stack(rows))
  }

  /** A sample as the dataset makes it: its three parts have one length. */
  predicate Aligned(f: Encoded)
  {
    |f.labels| == |f.inputIds| && |f.attentionMask| == |f.inputIds|
  }

  /**
   * With a non-negative multiple, a non-empty batch of aligned samples
   * collates: every row has the batch length, which is at least each
   * sample's length (and a multiple of a positive `padToMultipleOf`); each
   * row keeps its sample as a prefix and is filled after it with the pad
   * id, the ignore label and zero attention.
   */
  lemma CollatedShape(features: seq<Encoded>, padId: int, p: int)
    requires features != [] && p >= 0
    requires forall k :: 0 <= k < |features| ==> Aligned(features[k])
    ensures var r := Collated(features, padId, p);
            var n := BatchLength(MaxLen(features), p);
            r.Ok? && |r.value.inputIds| == |features|
            && (p > 0 ==> n % p == 0)
            && forall k :: 0 <= k < |features| ==>
                 var f := features[k];
                 |f.inputIds| <= n
                 && r.value.inputIds[k] == f.inputIds + Fill(n - |f.inputIds|, padId)
                 && r.value.labels[k] == f.labels + Fill(n - |f.inputIds|, IgnoreIndex)
                 && r.value.attentionMask[k] == f.attentionMask + Fill(n - |f.inputIds|, 0)
                 && |r.value.inputIds[k]| == n && |r.value.labels[k]| == n && |r.value.attentionMask[k]| == n
  {
    var m := MaxLen(features);
    var n := BatchLength(m, p);
    if p > 0 {
      BatchLengthRoundsUp(m, p);
    }
    var pad := Padder(n, padId);
    assert forall k :: 0 <= k < |features| ==> pad(features[k]) == PadRow(features[k], n, padId);
    TryMapOk(features, pad);
  }

  /** `collate_batch(features, pad_id, pad_to_multiple_of)`. */
  method CollateBatch(features: seq<Encoded>, padId: int, padToMultipleOf: int) returns (r: Result<Batch>)
    ensures r == Collated(features, padId, padToMultipleOf)
  {
    if features == [] {
      return Err(ValueError("max() arg is an empty sequence"));
    }
    var maxLen := Longest(features);
    if padToMultipleOf != 0 && FloorMod(maxLen, padToMultipleOf) != 0 {
      maxLen := (FloorDiv(maxLen, padToMultipleOf) + 1) * padToMultipleOf;
    }
    var rows := PadRows(features, maxLen, padId);
    if rows.Err? {
      return Err(rows.error);
    }
    r := Ok(Stack(rows.value));
  }

  /** `max(len(f["input_ids"]) for f in features)`. */
  method Longest(features: seq<Encoded>) returns (m: nat)
    requires features != []
    ensures m == MaxLen(features)
  {
    m := |features[0].inputIds|;
    for k := 1 to |features|
      invariant m == MaxLen(features[..k])
    {
      MaxLenStep(features, k);
      if |features[k].inputIds| > m {
        m := |features[k].inputIds|;
      }
    }
    assert features[..|features|] == features;
  }

  /** The padding loop of `collate_batch`. */
  method PadRows(features: seq<Encoded>, width: int, padId: int) returns (r: Result<seq<Encoded>>)
    ensures r == TryMap(features, Padder(width, padId))
  {
    ghost var spec := Padder(width, padId);
    var rows: seq<Encoded> := [];
    assert features[0..] == features;
    ThenNothing(TryMap(features, spec));
    var i := 0;
    while i < |features|
      invariant 0 <= i <= |features|
      invariant Then(rows, TryMap(features[i..], spec)) == TryMap(features, spec)
    {
      TryMapStep(features, i, spec);
      var row := PadRow(features[i], width, padId);
      assert row == spec(features[i]);
      if row.Err? {
        return Err(row.error);
      }
      ThenAssoc(rows, [row.value], TryMap(features[i + 1..], spec));
      rows := rows + [row.value];
      i := i + 1;
    }
    assert features[i..] == [];
    assert rows + [] == rows;
    r := Ok(rows);
  }

  lemma MaxLenStep(features: seq<Encoded>, k: nat)
    requires 1 <= k < |features|
    ensures MaxLen(features[..k + 1]) == if |features[k].inputIds| > MaxLen(features[..k]) then |features[k].inputIds| else MaxLen(features[..k])
  {
    var a := MaxLen(features[..k]);
    var b := MaxLen(features[..k + 1]);
    assert features[..k + 1][..k] == features[..k];
    var j :| 0 <= j < k + 1 && |features[..k + 1][j].inputIds| == b;
    var i :| 0 <= i < k && |features[..k][i].inputIds| == a;
    assert features[..k + 1][k] == features[k];
    assert features[..k + 1][i] == features[..k][i];
    if j < k {
      assert features[..k + 1][j] == features[..k][j];
    }
  }
}
