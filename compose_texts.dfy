/*
 * The SYSTEM and USER message texts of a chooser agent. Both builders
 * collect lines and join them with "\n".
 */
module ComposeTexts {
  import opened Common
  import opened PyJson

  const NeverAnswer := "You never answer the user's question directly. You ONLY choose configuration values as instructed."
  const JsonOnly := "You MUST respond with a single JSON object and nothing else (no prose, no comments)."
  const StateHeader := "Current SuperPrompt state:"
  const Instruction := "Based on this, choose values for the following configuration fields. For each field, you MUST choose only from the allowed option ids."
  const ManyType := "  - Type: array of one or more option ids (strings) from the list below."
  const OneType := "  - Type: single option id (string) from the list below."
  const KeysHeader := "Return ONLY a JSON object with keys:"
  const Closing := "Do NOT add explanations, comments or extra keys. JSON only."
  /** The separator between label and description, kept exactly as the source file spells it. */
  const Dash := " \U{00E2}\U{20AC}\U{201D} "

  /** The "Agent id" line. */
  function IdLine(agentName: Json, version: string): string
  {
    "Agent id: " + Str(agentName) + " v" + version
  }

  /** `v.strip()` of a truthy value; only a str has `strip`. */
  function StripValue(v: Json): (r: Result<string>)
    ensures r.Ok? <==> v.JStr?
    ensures r.Ok? ==> r.value == Strip(v.s)
  {
    if v.JStr? then Ok(Strip(v.s)) else Err(AttributeError("'" + TypeName(v) + "' object has no attribute 'strip'"))
  }

  /**
   * The opening lines of the SYSTEM message: the stripped system text when
   * there is one, then a blank line and the purpose line when there is a
   * purpose. Only a truthy value that is not a str fails.
   */
  function SystemHead(systemText: Json, purposeText: Json): (r: Result<seq<string>>)
    ensures r.Err? <==> (Truthy(systemText) && !systemText.JStr?) || (Truthy(purposeText) && !purposeText.JStr?)
  {
    var head := if Truthy(systemText) then StripValue(systemText) else Ok("");
    var purpose := if Truthy(purposeText) then StripValue(purposeText) else Ok("");
    if head.Err? then Err(head.error)
    else if purpose.Err? then Err(purpose.error)
    else
      var role := if Truthy(systemText) then [head.value] else [];
      Ok(if Truthy(purposeText) then role + ["", "Agent purpose: " + purpose.value] else role)
  }

  /** All lines of the SYSTEM message: the opening lines, a blank line, the id line and the two fixed rules. */
  function SystemLines(systemText: Json, purposeText: Json, agentName: Json, version: string): (r: Result<seq<string>>)
  {
    var head := SystemHead(systemText, purposeText);
    if head.Err? then Err(head.error)
    else Ok(head.value + ["", IdLine(agentName, version), NeverAnswer, JsonOnly])
  }

  /**
   * The opening lines: the stripped role when there is one, a blank line
   * and the purpose line when there is a purpose.
   */
  lemma SystemHeadShape(systemText: Json, purposeText: Json)
    requires SystemHead(systemText, purposeText).Ok?
    ensures var ls := SystemHead(systemText, purposeText).value;
      && |ls| == (if Truthy(systemText) then 1 else 0) + (if Truthy(purposeText) then 2 else 0)
      && (Truthy(systemText) ==> ls[0] == Strip(systemText.s))
      && (Truthy(purposeText) ==> ls[|ls| - 2..] == ["", "Agent purpose: " + Strip(purposeText.s)])
  {
  }

  /** The first part of `build_system_text`: the role and purpose lines. */
  method CollectSystemHead(systemText: Json, purposeText: Json) returns (r: Result<seq<string>>)
    ensures r == SystemHead(systemText, purposeText)
  {
    var lines: seq<string> := [];
    if Truthy(systemText) {
      var s := StripValue(systemText);
      if s.Err? {
        return Err(s.error);
      }
      lines := lines + [s.value];
    }
    ghost var role := lines;
    assert role == if Truthy(systemText) then [Strip(systemText.s)] else [];
    if Truthy(purposeText) {
      var p := StripValue(purposeText);
      if p.Err? {
        return Err(p.error);
      }
      lines := lines + [""];
      lines := lines + ["Agent purpose: " + p.value];
      assert lines == role + ["", "Agent purpose: " + Strip(purposeText.s)];
    }
    return Ok(lines);
  }

  /** `build_system_text(system_text, purpose_text, agent_name, version)`. */
  method BuildSystemText(systemText: Json, purposeText: Json, agentName: Json, version: string) returns (r: Result<string>)
    ensures r.Ok? <==> SystemHead(systemText, purposeText).Ok?
    ensures r.Ok? ==> r.value == Join(SystemLines(systemText, purposeText, agentName, version).value, "\n")
    ensures r.Err? ==> r.error.AttributeError?
  {
    var head := CollectSystemHead(systemText, purposeText);
    if head.Err? {
      return Err(head.error);
    }
    var lines := AppendClosing(head.value, IdLine(agentName, version), NeverAnswer, JsonOnly);
    return Ok(Join(lines, "\n"));
  }

  /** The closing lines: a blank line, the id line and the two rules. */
  method AppendClosing(lines: seq<string>, idLine: string, rule1: string, rule2: string) returns (out: seq<string>)
    ensures out == lines + ["", idLine, rule1, rule2]
  {
    out := lines + [""];
    out := out + [idLine];
    out := out + [rule1];
    out := out + [rule2];
  }

  /**
   * Whatever the system and purpose texts, the SYSTEM message ends with a
   * line break, the id line and the two fixed instruction lines.
   */
  lemma SystemTextEnding(systemText: Json, purposeText: Json, agentName: Json, version: string)
    requires SystemHead(systemText, purposeText).Ok?
    ensures EndsWith(Join(SystemLines(systemText, purposeText, agentName, version).value, "\n"),
      "\n" + IdLine(agentName, version) + "\n" + NeverAnswer + "\n" + JsonOnly)
  {
    JoinEndsWith(SystemHead(systemText, purposeText).value, IdLine(agentName, version), NeverAnswer, JsonOnly);
  }

  /** `text.endswith(tail)`. */
  predicate EndsWith(text: string, tail: string)
  {
    |tail| <= |text| && text[|text| - |tail|..] == tail
  }

  /** Joining lines that end with a blank line and three more ends with those three. */
  lemma JoinEndsWith(pre: seq<string>, a: string, b: string, c: string)
    ensures EndsWith(Join(pre + ["", a, b, c], "\n"), "\n" + a + "\n" + b + "\n" + c)
  {
    var last := ["", a, b, c];
    var tail := "\n" + a + "\n" + b + "\n" + c;
    assert Join(last[2..], "\n") == b + "\n" + c by {
      assert last[2..][1..] == [c];
    }
    assert Join(last[1..], "\n") == a + "\n" + b + "\n" + c by {
      assert last[1..][1..] == last[2..];
    }
    assert Join(last, "\n") == tail;
    if pre == [] {
      assert pre + last == last;
    } else {
      JoinAppend(pre, last, "\n");
      assert Join(pre + last, "\n") == (Join(pre, "\n") + "\n") + tail;
    }
  }

  // ---------------------------------------------------------------------
  // The USER message of a chooser.

  /** The line showing one payload entry. */
  function PayloadLine(key: string, value: Json): string
  {
    "- " + key + ": " + Repr(value)
  }

  /** The `- key: repr(value)` lines of the first `n` payload entries. */
  function PayloadLines(payload: seq<(string, Json)>, n: nat): (ls: seq<string>)
    requires n <= |payload|
    ensures |ls| == n
  {
    if n == 0 then [] else PayloadLines(payload, n - 1) + [PayloadLine(payload[n - 1].0, payload[n - 1].1)]
  }

  /** One option line: label and description, label only, description only, or the bare id. */
  function OptionLine(optId: string, optLabel: Json, desc: Json): string
  {
    var bullet := "    * " + optId;
    if Truthy(optLabel) && Truthy(desc) then bullet + ": " + Str(optLabel) + Dash + Str(desc)
    else if Truthy(optLabel) then bullet + ": " + Str(optLabel)
    else if Truthy(desc) then bullet + ": " + Str(desc)
    else bullet
  }

  /** `d.get(k)` on a str-keyed dict: the value, or None. */
  function GetOr(d: map<string, Json>, k: string, dflt: Json): Json
  {
    if k in d then d[k] else dflt
  }

  /** The option lines of the first `n` allowed ids. */
  function OptionLines(allowed: seq<string>, labels: map<string, Json>, descs: map<string, Json>, n: nat): (ls: seq<string>)
    requires n <= |allowed|
    ensures |ls| == n
  {
    if n == 0 then []
    else
      OptionLines(allowed, labels, descs, n - 1)
        + [OptionLine(allowed[n - 1], GetOr(labels, allowed[n - 1], JNull), GetOr(descs, allowed[n - 1], JNull))]
  }

  /**
   * What an option line shows: always the bullet and the id; then label and
   * description, label only, description only, or nothing more, depending on
   * which of the two are truthy.
   */
  lemma OptionLineCases(optId: string, optLabel: Json, desc: Json)
    ensures var line := OptionLine(optId, optLabel, desc);
      && |line| >= 6 + |optId| && line[..6 + |optId|] == "    * " + optId
      && (line == "    * " + optId <==> !Truthy(optLabel) && !Truthy(desc))
      && (Truthy(optLabel) && Truthy(desc) ==> line == "    * " + optId + ": " + Str(optLabel) + Dash + Str(desc))
      && (Truthy(optLabel) && !Truthy(desc) ==> line == "    * " + optId + ": " + Str(optLabel))
      && (!Truthy(optLabel) && Truthy(desc) ==> line == "    * " + optId + ": " + Str(desc))
  {
    var line := OptionLine(optId, optLabel, desc);
    var bullet := "    * " + optId;
    if Truthy(optLabel) || Truthy(desc) {
      assert |line| > |bullet|;
    }
  }

  /** Line `k` of the option listing belongs to the `k`-th allowed id. */
  lemma {:induction false} OptionLinesAt(allowed: seq<string>, labels: map<string, Json>, descs: map<string, Json>, n: nat, k: nat)
    requires k < n <= |allowed|
    ensures OptionLines(allowed, labels, descs, n)[k]
         == OptionLine(allowed[k], GetOr(labels, allowed[k], JNull), GetOr(descs, allowed[k], JNull))
  {
    if k < n - 1 {
      OptionLinesAt(allowed, labels, descs, n - 1, k);
    }
  }

  /** The tables `build_user_text_for_chooser` reads, per field id. */
  datatype Tables = Tables(
    enums: map<string, seq<string>>,
    cardinality: map<string, Json>,
    optionDescriptions: map<string, map<string, Json>>,
    optionLabels: map<string, map<string, Json>>,
    resultKeys: map<string, Json>)

  function Allowed(t: Tables, fid: string): seq<string>
  {
    if fid in t.enums then t.enums[fid] else []
  }

  /** `result_keys.get(field_id, field_id)`. */
  function ResultKey(t: Tables, fid: string): Json
  {
    GetOr(t.resultKeys, fid, JStr(fid))
  }

  /** Whether `cardinality.get(field_id, "one") == "many"`. */
  predicate IsMany(t: Tables, fid: string)
  {
    GetOr(t.cardinality, fid, JStr("one")) == JStr("many")
  }

  function FieldHeader(t: Tables, fid: string): string
  {
    "Field '" + fid + "' (JSON key: '" + Str(ResultKey(t, fid)) + "'):"
  }

  /** The listing of one active field. */
  function FieldBlock(t: Tables, fid: string): seq<string>
  {
    var allowed := Allowed(t, fid);
    if allowed == [] then []
    else
      var labels := if fid in t.optionLabels then t.optionLabels[fid] else map[];
      var descs := if fid in t.optionDescriptions then t.optionDescriptions[fid] else map[];
      [FieldHeader(t, fid), if IsMany(t, fid) then ManyType else OneType]
        + OptionLines(allowed, labels, descs, |allowed|) + [""]
  }

  /**
   * The listing of one active field is empty exactly when the field has no
   * allowed ids; otherwise it is its header, the wording of its cardinality,
   * one line per allowed id and a blank line.
   */
  lemma FieldBlockShape(t: Tables, fid: string)
    ensures var ls := FieldBlock(t, fid);
      && (ls == [] <==> Allowed(t, fid) == [])
      && (ls != [] ==>
        && |ls| == 3 + |Allowed(t, fid)|
        && ls[0] == FieldHeader(t, fid)
        && ls[1] == (if IsMany(t, fid) then ManyType else OneType)
        && ls[|ls| - 1] == "")
  {
  }

  /** The listings of the first `n` active fields. */
  function FieldBlocks(t: Tables, active: seq<string>, n: nat): seq<string>
    requires n <= |active|
  {
    if n == 0 then [] else FieldBlocks(t, active, n - 1) + FieldBlock(t, active[n - 1])
  }

  /** The line of the "Return ONLY" list for one field. */
  function KeyLine(t: Tables, fid: string): string
  {
    var key := Str(ResultKey(t, fid));
    if IsMany(t, fid) then "- '" + key + "': array of option ids (strings)."
    else "- '" + key + "': single option id (string)."
  }

  /** The "Return ONLY" lines of the first `n` active fields: one per field, skipped or not. */
  function KeyLines(t: Tables, active: seq<string>, n: nat): (ls: seq<string>)
    requires n <= |active|
    ensures |ls| == n
  {
    if n == 0 then [] else KeyLines(t, active, n - 1) + [KeyLine(t, active[n - 1])]
  }

  /** Line `k` of the payload listing shows the `k`-th entry. */
  lemma {:induction false} PayloadLinesAt(payload: seq<(string, Json)>, n: nat, k: nat)
    requires k < n <= |payload|
    ensures PayloadLines(payload, n)[k] == PayloadLine(payload[k].0, payload[k].1)
  {
    if k < n - 1 {
      PayloadLinesAt(payload, n - 1, k);
    }
  }

  /** Line `k` of the "Return ONLY" list names the `k`-th active field. */
  lemma {:induction false} KeyLinesAt(t: Tables, active: seq<string>, n: nat, k: nat)
    requires k < n <= |active|
    ensures KeyLines(t, active, n)[k] == KeyLine(t, active[k])
  {
    if k < n - 1 {
      KeyLinesAt(t, active, n - 1, k);
    }
  }

  /** All lines of the USER message. */
  function UserLines(payload: seq<(string, Json)>, t: Tables, active: seq<string>): seq<string>
  {
    [StateHeader] + PayloadLines(payload, |payload|) + ["", Instruction, ""] + FieldBlocks(t, active, |active|)
      + [KeysHeader] + KeyLines(t, active, |active|) + ["", Closing]
  }

  /** Appending the USER message line by line and loop by loop gives `UserLines`. */
  lemma UserLinesStepwise(a: string, p: seq<string>, b: string, f: seq<string>, c: string, k: seq<string>, d: string)
    ensures [] + [a] + p + [""] + [b] + [""] + f + [c] + k + [""] + [d]
         == [a] + p + ["", b, ""] + f + [c] + k + ["", d]
  {
  }

  /**
   * The USER message opens with the state header and the payload lines and
   * closes with the "Return ONLY" lines, a blank line and the closing rule.
   */
  lemma UserLinesShape(payload: seq<(string, Json)>, t: Tables, active: seq<string>)
    ensures var ls := UserLines(payload, t, active);
      && |ls| >= 7 + |payload| + |active|
      && ls[0] == StateHeader && ls[|ls| - 1] == Closing
      && ls[1..1 + |payload|] == PayloadLines(payload, |payload|)
      && ls[|ls| - 2 - |active|..|ls| - 2] == KeyLines(t, active, |active|)
  {
    var head := [StateHeader] + PayloadLines(payload, |payload|);
    var keys := KeyLines(t, active, |active|);
    var ls := UserLines(payload, t, active);
    assert ls[1..1 + |payload|] == head[1..];
    assert ls[|ls| - 2 - |active|..|ls| - 2] == keys;
  }

  /** The inner `for opt_id in allowed` loop. */
  method AppendOptionLines(lines: seq<string>, allowed: seq<string>, labels: map<string, Json>, descs: map<string, Json>)
    returns (out: seq<string>)
    ensures out == lines + OptionLines(allowed, labels, descs, |allowed|)
  {
    out := lines;
    var j := 0;
    while j < |allowed|
      invariant 0 <= j <= |allowed|
      invariant out == lines + OptionLines(allowed, labels, descs, j)
    {
      var optId := allowed[j];
      var optLabel := GetOr(labels, optId, JNull);
      var desc := GetOr(descs, optId, JNull);
      out := out + [OptionLine(optId, optLabel, desc)];
      j := j + 1;
    }
  }

  /** One pass of the listing loop: the block of one active field. */
  method AppendFieldBlock(lines: seq<string>, t: Tables, fieldId: string) returns (out: seq<string>)
    ensures out == lines + FieldBlock(t, fieldId)
  {
    out := lines;
    var allowed := Allowed(t, fieldId);
    if allowed == [] {
      return;
    }
    out := out + [FieldHeader(t, fieldId)];
    var typeLine := if IsMany(t, fieldId) then ManyType else OneType;
    out := out + [typeLine];
    var labels := if fieldId in t.optionLabels then t.optionLabels[fieldId] else map[];
    var descs := if fieldId in t.optionDescriptions then t.optionDescriptions[fieldId] else map[];
    var before := out;
    out := AppendOptionLines(out, allowed, labels, descs);
    out := out + [""];
    assert out == lines + ([FieldHeader(t, fieldId), typeLine] + OptionLines(allowed, labels, descs, |allowed|) + [""]);
  }

  /** Appending the lines of one more step to what was appended so far. */
  lemma ExtendLines(lines: seq<string>, done: seq<string>, more: seq<string>)
    ensures lines + done + more == lines + (done + more)
  {
  }

  lemma FieldBlocksStep(t: Tables, active: seq<string>, i: nat)
    requires i < |active|
    ensures FieldBlocks(t, active, i + 1) == FieldBlocks(t, active, i) + FieldBlock(t, active[i])
  {
  }

  /** The `for field_id in active_fields` listing loop. */
  method AppendFieldBlocks(lines: seq<string>, t: Tables, active: seq<string>) returns (out: seq<string>)
    ensures out == lines + FieldBlocks(t, active, |active|)
  {
    out := lines;
    var i := 0;
    while i < |active|
      invariant 0 <= i <= |active|
      invariant out == lines + FieldBlocks(t, active, i)
    {
      ghost var done := FieldBlocks(t, active, i);
      out := AppendFieldBlock(out, t, active[i]);
      ExtendLines(lines, done, FieldBlock(t, active[i]));
      FieldBlocksStep(t, active, i);
      i := i + 1;
    }
  }

  /** The `for key, value in input_payload.items()` loop. */
  method AppendPayload(lines: seq<string>, payload: seq<(string, Json)>) returns (out: seq<string>)
    ensures out == lines + PayloadLines(payload, |payload|)
  {
    out := lines;
    var i := 0;
    while i < |payload|
      invariant 0 <= i <= |payload|
      invariant out == lines + PayloadLines(payload, i)
    {
      var (key, value) := payload[i];
      out := out + [PayloadLine(key, value)];
      i := i + 1;
    }
  }

  /** The "Return ONLY" loop. */
  method AppendKeyLines(lines: seq<string>, t: Tables, active: seq<string>) returns (out: seq<string>)
    ensures out == lines + KeyLines(t, active, |active|)
  {
    out := lines;
    var i := 0;
    while i < |active|
      invariant 0 <= i <= |active|
      invariant out == lines + KeyLines(t, active, i)
    {
      out := out + [KeyLine(t, active[i])];
      i := i + 1;
    }
  }

  /**
   * `build_user_text_for_chooser(input_payload, enums, cardinality,
   * option_descriptions, option_labels, result_keys, active_fields)`.
   */
  method BuildUserTextForChooser(payload: seq<(string, Json)>, t: Tables, active: seq<string>) returns (text: string)
    ensures text == Join(UserLines(payload, t, active), "\n")
  {
    var lines: seq<string> := [];
    lines := lines + [StateHeader];
    lines := AppendPayload(lines, payload);
    lines := lines + [""];
    lines := lines + [Instruction];
    lines := lines + [""];
    lines := AppendFieldBlocks(lines, t, active);
    lines := lines + [KeysHeader];
    lines := AppendKeyLines(lines, t, active);
    lines := lines + [""];
    lines := lines + [Closing];
    UserLinesStepwise(StateHeader, PayloadLines(payload, |payload|), Instruction, FieldBlocks(t, active, |active|),
      KeysHeader, KeyLines(t, active, |active|), Closing);
    text := Join(lines, "\n");
  }

  // ---------------------------------------------------------------------
  // Reading the USER message back line by line.

  /**
   * When no line holds a line break, splitting the USER message on "\n"
   * gives its lines back.
   */
  lemma UserTextLines(payload: seq<(string, Json)>, t: Tables, active: seq<string>)
    requires forall k :: 0 <= k < |UserLines(payload, t, active)| ==> '\n' !in UserLines(payload, t, active)[k]
    ensures SplitOn(Join(UserLines(payload, t, active), "\n"), '\n') == UserLines(payload, t, active)
  {
    var ls := UserLines(payload, t, active);
    assert |ls| > 0 by { UserLinesShape(payload, t, active); }
    SplitOfJoin(ls, '\n');
  }

  /**
   * The payload entries sit on lines 1.., in payload order, and the
   * "Return ONLY" list names every active field, in order, on the lines just
   * before the closing blank line and instruction.
   */
  lemma UserLinesPlaces(payload: seq<(string, Json)>, t: Tables, active: seq<string>)
    ensures var ls := UserLines(payload, t, active);
      && |ls| >= 7 + |payload| + |active|
      && (forall k :: 0 <= k < |payload| ==> ls[1 + k] == PayloadLine(payload[k].0, payload[k].1))
      && (forall k :: 0 <= k < |active| ==> ls[|ls| - 2 - |active| + k] == KeyLine(t, active[k]))
  {
    var ls := UserLines(payload, t, active);
    UserLinesShape(payload, t, active);
    forall k | 0 <= k < |payload|
      ensures ls[1 + k] == PayloadLine(payload[k].0, payload[k].1)
    {
      UserLinePayloadAt(payload, t, active, k);
    }
    forall k | 0 <= k < |active|
      ensures ls[|ls| - 2 - |active| + k] == KeyLine(t, active[k])
    {
      UserLineKeyAt(payload, t, active, k);
    }
  }

  lemma UserLinePayloadAt(payload: seq<(string, Json)>, t: Tables, active: seq<string>, k: nat)
    requires k < |payload|
    ensures var ls := UserLines(payload, t, active);
      |ls| > 1 + k && ls[1 + k] == PayloadLine(payload[k].0, payload[k].1)
  {
    var ls := UserLines(payload, t, active);
    UserLinesShape(payload, t, active);
    assert ls[1 + k] == ls[1..1 + |payload|][k];
    PayloadLinesAt(payload, |payload|, k);
  }

  lemma UserLineKeyAt(payload: seq<(string, Json)>, t: Tables, active: seq<string>, k: nat)
    requires k < |active|
    ensures var ls := UserLines(payload, t, active);
      |ls| >= 2 + |active| && ls[|ls| - 2 - |active| + k] == KeyLine(t, active[k])
  {
    var ls := UserLines(payload, t, active);
    UserLinesShape(payload, t, active);
    assert ls[|ls| - 2 - |active| + k] == ls[|ls| - 2 - |active|..|ls| - 2][k];
    KeyLinesAt(t, active, |active|, k);
  }

  /** A payload line stays on one line when its key does: `repr` never breaks a line. */
  lemma PayloadLineSingle(key: string, value: Json)
    requires SingleLine(key)
    ensures SingleLine(PayloadLine(key, value))
  {
    ReprSingleLine(value);
    SingleLineConcat("- ", key);
    SingleLineConcat("- " + key, ": ");
    SingleLineConcat("- " + key + ": ", Repr(value));
  }

  /**
   * A field with no allowed ids adds nothing to the option listing, while
   * its "Return ONLY" line is still there.
   */
  lemma SkippedFieldStillListed(t: Tables, active: seq<string>, k: nat)
    requires k < |active| && Allowed(t, active[k]) == []
    ensures FieldBlocks(t, active[..k + 1], k + 1) == FieldBlocks(t, active[..k], k)
    ensures KeyLines(t, active, |active|)[k] == KeyLine(t, active[k])
  {
    KeyLinesAt(t, active, |active|, k);
    FieldBlocksPrefix(t, active[..k + 1], active[..k], k);
  }

  /** The listing of the first `n` fields only depends on those fields. */
  lemma {:induction false} FieldBlocksPrefix(t: Tables, a: seq<string>, b: seq<string>, n: nat)
    requires n <= |a| && n <= |b| && a[..n] == b[..n]
    ensures FieldBlocks(t, a, n) == FieldBlocks(t, b, n)
  {
    if n > 0 {
      assert a[..n - 1] == b[..n - 1] by {
        assert a[..n - 1] == a[..n][..n - 1];
        assert b[..n - 1] == b[..n][..n - 1];
      }
      assert a[n - 1] == a[..n][n - 1] == b[..n][n - 1] == b[n - 1];
      FieldBlocksPrefix(t, a, b, n - 1);
    }
  }
}
