/*
 * The converter from the raw A2 dataset (a JSON array, or JSON Lines) to
 * the chat-format fine-tuning files: one `{"messages": [user, assistant]}`
 * example per record, the user turn holding the labelled TASK / PURPOSE /
 * CONTEXT lines and the assistant turn holding the five target labels as
 * a JSON string, then a validation split taken from the front.
 */
module A2Convert {
  import opened Common
  import opened PyJson

  datatype Message = Message(role: string, content: string)

  /** `{"messages": [...]}`. */
  datatype Example = Example(messages: seq<Message>)

  // ---------------------------------------------------------------------
  // Loading: a JSON array, or one JSON value per line.

  /** The characters `str.splitlines()` breaks at. */
  predicate IsLineBreak(c: char)
  {
    c == '\n' || c == '\r' || c == '\U{0B}' || c == '\U{0C}' || ('\U{1C}' <= c <= '\U{1E}')
    || c == '\U{85}' || c == '\U{2028}' || c == '\U{2029}'
  }

  predicate NoLineBreak(s: string)
  {
    forall i :: 0 <= i < |s| ==> !IsLineBreak(s[i])
  }

  /**
   * The pieces between line-break characters. `str.splitlines()` differs
   * only by empty pieces (it reads `\r\n` as one break and drops the piece
   * after a final break), and the loader skips empty pieces, so both give
   * the same items.
   */
  function Lines(s: string): (r: seq<string>)
    ensures r != []
    ensures forall k :: 0 <= k < |r| ==> NoLineBreak(r[k])
  {
    if s == [] then [[]]
    else
      var rest := Lines(s[1..]);
      if IsLineBreak(s[0]) then [[]] + rest else [[s[0]] + rest[0]] + rest[1..]
  }

  /** What one line contributes: nothing when it is blank or does not parse, else its value. */
  function LineItem(line: string, loads: string -> Option<Json>): (r: seq<Json>)
    ensures |r| <= 1
  {
    var t := Strip(line);
    if t == [] then [] else match loads(t) case None => [] case Some(v) => [v]
  }

  /** The values of the non-blank lines that parse, in order; the others are reported and skipped. */
  function JsonlItems(lines: seq<string>, loads: string -> Option<Json>): (r: seq<Json>)
    ensures |r| <= |lines|
  {
    if lines == [] then [] else LineItem(lines[0], loads) + JsonlItems(lines[1..], loads)
  }

  lemma JsonlStep(lines: seq<string>, i: nat, loads: string -> Option<Json>)
    requires i < |lines|
    ensures JsonlItems(lines[i..], loads) == LineItem(lines[i], loads) + JsonlItems(lines[i + 1..], loads)
  {
    assert lines[i..][1..] == lines[i + 1..];
  }

  /**
   * What `load_items` returns: None where it exits with status 1 (a text
   * starting with `[` that does not parse), the parsed value for an array
   * text, and the list of line values otherwise.
   */
  function Loaded(text: string, loads: string -> Option<Json>): (r: Option<Json>)
  {
    var t := LStrip(text);
    if t != [] && t[0] == '[' then loads(t)
    else Some(JList(JsonlItems(Lines(t), loads)))
  }

  /** The per-line loop of `load_items`. */
  method ParseLines(lines: seq<string>, loads: string -> Option<Json>) returns (items: seq<Json>)
    ensures items == JsonlItems(lines, loads)
  {
    items := [];
    var i := 0;
    while i < |lines|
      invariant 0 <= i <= |lines|
      invariant items + JsonlItems(lines[i..], loads) == JsonlItems(lines, loads)
    {
      ghost var rest := JsonlItems(lines[i + 1..], loads);
      ghost var before := items;
      JsonlStep(lines, i, loads);
      var line := Strip(lines[i]);
      if line != [] {
        var parsed := loads(line);
        if parsed.Some? {
          items := items + [parsed.value];
        }
      }
      assert items == before + LineItem(lines[i], loads);
      AppendAssoc(before, LineItem(lines[i], loads), rest);
      i := i + 1;
    }
    assert lines[i..] == [];
    assert items + [] == items;
  }

  method LoadItems(text: string, loads: string -> Option<Json>) returns (r: Option<Json>)
    ensures r == Loaded(text, loads)
  {
    var t := LStrip(text);
    if t != [] && t[0] == '[' {
      r := loads(t);
    } else {
      var items := ParseLines(Lines(t), loads);
      r := Some(JList(items));
    }
  }

  lemma {:induction false} LinesPiece(w: string, rest: string)
    requires NoLineBreak(w)
    ensures Lines(w + "\n" + rest) == [w] + Lines(rest)
  {
    if w == [] {
      assert w + "\n" + rest == "\n" + rest;
      assert ("\n" + rest)[1..] == rest;
    } else {
      assert (w + "\n" + rest)[1..] == w[1..] + "\n" + rest;
      LinesPiece(w[1..], rest);
      assert [w[0]] + w[1..] == w;
    }
  }

  lemma {:induction false} LinesWhole(w: string)
    requires NoLineBreak(w)
    ensures Lines(w) == [w]
  {
    if w != [] {
      LinesWhole(w[1..]);
      assert [w[0]] + w[1..] == w;
    }
  }

  /** Splitting newline-joined break-free lines gives the lines back. */
  lemma {:induction false} LinesOfJoin(ls: seq<string>)
    requires ls != []
    requires forall k :: 0 <= k < |ls| ==> NoLineBreak(ls[k])
    ensures Lines(Join(ls, "\n")) == ls
  {
    if |ls| == 1 {
      LinesWhole(ls[0]);
    } else {
      LinesOfJoin(ls[1..]);
      LinesPiece(ls[0], Join(ls[1..], "\n"));
    }
  }

  /** The lines of a well-formed JSON Lines file: non-empty, no whitespace at either end. */
  predicate CleanLine(l: string)
  {
    l != [] && NoLineBreak(l) && !IsSpace(l[0]) && !IsSpace(l[|l| - 1])
  }

  lemma {:induction false} JsonlItemsClean(ls: seq<string>, vs: seq<Json>, loads: string -> Option<Json>)
    requires |ls| == |vs|
    requires forall k :: 0 <= k < |ls| ==> CleanLine(ls[k]) && loads(ls[k]) == Some(vs[k])
    ensures JsonlItems(ls, loads) == vs
  {
    if ls != [] {
      StripUnchanged(ls[0]);
      JsonlItemsClean(ls[1..], vs[1..], loads);
      assert [vs[0]] + vs[1..] == vs;
    }
  }

  /**
   * Round trip: a JSON Lines text whose lines are the encodings of `vs`
   * (each decoding back to its value, the first not starting with `[`)
   * loads as the list `vs`.
   */
  lemma JsonlRoundTrip(ls: seq<string>, vs: seq<Json>, loads: string -> Option<Json>)
    requires |ls| == |vs|
    requires forall k :: 0 <= k < |ls| ==> CleanLine(ls[k]) && loads(ls[k]) == Some(vs[k])
    requires ls != [] && ls[0] != [] ==> ls[0][0] != '['
    ensures Loaded(Join(ls, "\n"), loads) == Some(JList(vs))
  {
    var text := Join(ls, "\n");
    if ls == [] {
      assert LStrip(text) == [];
    } else {
      assert CleanLine(ls[0]);
      JoinStart(ls, "\n");
      assert text[0] == ls[0][0];
      LoadedLines(text, loads);
      LinesOfJoin(ls);
      JsonlItemsClean(ls, vs, loads);
    }
  }

  /** A text that starts with neither whitespace nor `[` is read line by line. */
  lemma LoadedLines(text: string, loads: string -> Option<Json>)
    requires text != [] && !IsSpace(text[0]) && text[0] != '['
    ensures Loaded(text, loads) == Some(JList(JsonlItems(Lines(text), loads)))
  {
    LStripFixed(text);
  }

  /** A join starts with its first piece. */
  lemma JoinStart(ls: seq<string>, sep: string)
    requires ls != []
    ensures |ls[0]| <= |Join(ls, sep)| && Join(ls, sep)[..|ls[0]|] == ls[0]
  {
    if |ls| > 1 {
      assert Join(ls, sep) == ls[0] + (sep + Join(ls[1..], sep));
    }
  }

  // ---------------------------------------------------------------------
  // One example per record.

  /** `clean(s)`: "" for None, otherwise `str(s).strip()`. */
  function Clean(v: Json): (r: string)
    ensures Strip(r) == r
    ensures v.JStr? ==> r == Strip(v.s)
  {
    if v.JNull? then [] else StripIdempotent(Str(v)); Strip(Str(v))
  }

  /** The three labelled lines of the user turn. */
  function UserLines(t: string, p: string, c: string): seq<string>
  {
    ["TASK: " + t, "PURPOSE: " + p, "CONTEXT: " + c]
  }

  /** `to_user_content(task, purpose, context)`. */
  function ToUserContent(task: Json, purpose: Json, context: Json): string
  {
    Join(UserLines(Clean(task), Clean(purpose), Clean(context)), "\n")
  }

  /** Three single-line values joined under their labels split back into the three labelled lines. */
  lemma LabelledLines(t: string, p: string, c: string)
    requires '\n' !in t && '\n' !in p && '\n' !in c
    ensures SplitOn(Join(UserLines(t, p, c), "\n"), '\n') == ["TASK: " + t, "PURPOSE: " + p, "CONTEXT: " + c]
  {
    var ls := UserLines(t, p, c);
    assert '\n' !in ls[0] && '\n' !in ls[1] && '\n' !in ls[2];
    SplitOfJoin(ls, '\n');
  }

  /**
   * The user turn is exactly three labelled lines whenever the cleaned
   * values are single lines, so each value can be read back after its label.
   */
  lemma UserContentLines(task: Json, purpose: Json, context: Json)
    requires '\n' !in Clean(task) && '\n' !in Clean(purpose) && '\n' !in Clean(context)
    ensures var ls := SplitOn(ToUserContent(task, purpose, context), '\n');
            |ls| == 3 && ls[0] == "TASK: " + Clean(task) && ls[1] == "PURPOSE: " + Clean(purpose)
            && ls[2] == "CONTEXT: " + Clean(context)
  {
    LabelledLines(Clean(task), Clean(purpose), Clean(context));
  }

  /** `rec.get(key, "")` on a dict. */
  function Field(entries: seq<(string, Json)>, key: string): Json
  {
    match Lookup(entries, key)
    case Some(v) => v
    case None => JStr("")
  }

  /** The depth label: "RESPONSE DEPTH" when present, else "RESPONSE_DEPTH", else "". */
  function Depth(entries: seq<(string, Json)>): Json
  {
    match Lookup(entries, "RESPONSE DEPTH")
    case Some(v) => v
    case None => Field(entries, "RESPONSE_DEPTH")
  }

  /** The five lower-case keys of the assistant object, in order. */
  const AssistantKeys: seq<string> := ["system", "audience", "tone", "response_depth", "confidence"]

  function AssistantObject(entries: seq<(string, Json)>): seq<(string, Json)>
  {
    [("system", Field(entries, "SYSTEM")), ("audience", Field(entries, "AUDIENCE")),
     ("tone", Field(entries, "TONE")), ("response_depth", Depth(entries)),
     ("confidence", Field(entries, "CONFIDENCE"))]
  }

  /** `make_assistant_json(rec)`: the target object; a record that is not a dict has no `get`. */
  function MakeAssistantJson(rec: Json): (r: Result<Json>)
    ensures r.Err? <==> !rec.JObj?
    ensures r.Err? ==> r.error == AttributeError("'" + TypeName(rec) + "' object has no attribute 'get'")
  {
    if rec.JObj? then Ok(JObj(AssistantObject(rec.entries)))
    else Err(Get(rec, "SYSTEM", JStr("")).error)
  }

  /**
   * The target object has exactly the five keys, in order; each keeps the
   * record's value for the upper-case label as written ("" when absent),
   * and the depth comes from "RESPONSE DEPTH" in preference to
   * "RESPONSE_DEPTH".
   */
  lemma AssistantJsonShape(entries: seq<(string, Json)>)
    ensures var r := MakeAssistantJson(JObj(entries));
            r.Ok? && r.value.JObj? && Keys(r.value.entries) == AssistantKeys
            && |r.value.entries| == 5
            && r.value.entries[0].1 == (if "SYSTEM" in Keys(entries) then Lookup(entries, "SYSTEM").value else JStr(""))
            && r.value.entries[1].1 == (if "AUDIENCE" in Keys(entries) then Lookup(entries, "AUDIENCE").value else JStr(""))
            && r.value.entries[2].1 == (if "TONE" in Keys(entries) then Lookup(entries, "TONE").value else JStr(""))
            && r.value.entries[3].1 == (if "RESPONSE DEPTH" in Keys(entries) then Lookup(entries, "RESPONSE DEPTH").value
                                         else if "RESPONSE_DEPTH" in Keys(entries) then Lookup(entries, "RESPONSE_DEPTH").value
                                         else JStr(""))
            && r.value.entries[4].1 == (if "CONFIDENCE" in Keys(entries) then Lookup(entries, "CONFIDENCE").value else JStr(""))
  {
    var obj := AssistantObject(entries);
    assert Keys(obj) == AssistantKeys;
  }

  /** The example built from a dict record. */
  function ExampleOf(entries: seq<(string, Json)>, dumps: Json -> string): Example
  {
    Example([
      Message("user", ToUserContent(Field(entries, "TASK"), Field(entries, "PURPOSE"), Field(entries, "CONTEXT"))),
      Message("assistant", dumps(JObj(AssistantObject(entries))))])
  }

  /** The loop body of `convert`: the first `obj.get` fails on a record that is not a dict. */
  function ConvertOne(obj: Json, dumps: Json -> string): (r: Result<Example>)
    ensures r.Err? <==> !obj.JObj?
    ensures r.Err? ==> r.error == AttributeError("'" + TypeName(obj) + "' object has no attribute 'get'")
    ensures r.Ok? ==> r.value == ExampleOf(obj.entries, dumps)
  {
    if obj.JObj? then Ok(ExampleOf(obj.entries, dumps))
    else Err(Get(obj, "TASK", JStr("")).error)
  }

  /** `ConvertOne` with the encoder fixed, as one value the loop specification can take. */
  function Converter(dumps: Json -> string): Json -> Result<Example>
  {
    obj => ConvertOne(obj, dumps)
  }

  /**
   * `convert` succeeds exactly when every record is a dict, and then yields
   * one example per record, in order: the user turn with the record's TASK,
   * PURPOSE and CONTEXT lines and the assistant turn with its encoded target
   * object. Otherwise it raises the AttributeError of the first record that
   * is not a dict.
   */
  lemma ConvertShape(items: seq<Json>, dumps: Json -> string)
    ensures var r := TryMap(items, Converter(dumps));
            (r.Ok? <==> forall k :: 0 <= k < |items| ==> items[k].JObj?)
            && (r.Ok? ==> |r.value| == |items| && forall k :: 0 <= k < |items| ==> r.value[k] == ExampleOf(items[k].entries, dumps))
            && (r.Err? ==>
                  exists k :: 0 <= k < |items| && !items[k].JObj? && (forall j :: 0 <= j < k ==> items[j].JObj?)
                              && r.error == AttributeError("'" + TypeName(items[k]) + "' object has no attribute 'get'"))
  {
    var one := Converter(dumps);
    assert forall x :: one(x) == ConvertOne(x, dumps);
    TryMapOk(items, one);
    TryMapErr(items, one);
  }

  /** The loop of `convert`. */
  method Convert(items: seq<Json>, dumps: Json -> string) returns (r: Result<seq<Example>>)
    ensures r == TryMap(items, Converter(dumps))
  {
    var examples: seq<Example> := [];
    var i := 0;
    assert items[0..] == items;
    ThenNothing(TryMap(items, Converter(dumps)));
    while i < |items|
      invariant 0 <= i <= |items|
      invariant Then(examples, TryMap(items[i..], Converter(dumps))) == TryMap(items, Converter(dumps))
    {
      TryMapStep(items, i, Converter(dumps));
      var one := ConvertOne(items[i], dumps);
      assert one == Converter(dumps)(items[i]);
      if one.Err? {
        return Err(one.error);
      }
      ThenAssoc(examples, [one.value], TryMap(items[i + 1..], Converter(dumps)));
      examples := examples + [one.value];
      i := i + 1;
    }
    assert items[i..] == [];
    assert examples + [] == examples;
    r := Ok(examples);
  }

  // ---------------------------------------------------------------------
  // The command: load, convert, shuffle, split, write, echo.

  /** The validation part is the first `max(1, round(fraction * n))` examples, the training part the rest. */
  function SplitVal(examples: seq<Example>, rounded: int): (r: (seq<Example>, seq<Example>))
    ensures r.0 + r.1 == examples
    ensures |r.0| == (if rounded > 1 then (if rounded < |examples| then rounded else |examples|) else (if examples == [] then 0 else 1))
  {
    var nVal := if rounded > 1 then rounded else 1;
    var cut := if nVal < |examples| then nVal else |examples|;
    assert examples[..cut] + examples[cut..] == examples;
    (examples[..cut], examples[cut..])
  }

  datatype Outcome =
    | Exit(status: int)
    | Raised(error: Error)
    /** Both files written; `echo` is the training example printed afterwards, or the error printing it raised. */
    | Wrote(train: seq<Example>, val: seq<Example>, echo: Result<Example>)

  /**
   * The run of the command. The existence check, the unparsable array, no
   * items, a non-iterable top-level value and a record that is not a dict
   * end it before anything is written; otherwise both files are written and
   * the first training example is echoed.
   */
  function RunOutcome(inputExists: bool, text: string, loads: string -> Option<Json>, dumps: Json -> string,
                      shuffle: seq<Example> -> seq<Example>, rounded: nat -> int): Outcome
  {
    if !inputExists then Exit(1)
    else
      match Loaded(text, loads)
      case None => Exit(1)
      case Some(items) =>
        if !Truthy(items) then Exit(1)
        else
          match Iter(items)
          case Err(e) => Raised(e)
          case Ok(records) =>
            match TryMap(records, Converter(dumps))
            case Err(e) => Raised(e)
            case Ok(examples) =>
              var shuffled := shuffle(examples);
              var parts := SplitVal(shuffled, rounded(|shuffled|));
              Wrote(parts.1, parts.0, if parts.1 == [] then Err(IndexError("list index out of range")) else Ok(parts.1[0]))
  }

  /**
   * Whatever is written, the validation file is non-empty, the two files
   * together are the shuffled examples, and the echo fails exactly when the
   * training part is empty.
   */
  lemma RunOutcomeShape(inputExists: bool, text: string, loads: string -> Option<Json>, dumps: Json -> string,
                        shuffle: seq<Example> -> seq<Example>, rounded: nat -> int)
    requires forall xs :: |shuffle(xs)| == |xs|
    ensures var o := RunOutcome(inputExists, text, loads, dumps, shuffle, rounded);
            o.Wrote? ==> o.val != [] && o.val + o.train == shuffle(TryMap(Iter(Loaded(text, loads).value).value, Converter(dumps)).value)
                         && (o.echo.Err? <==> o.train == []) && (o.echo.Ok? ==> o.echo.value == o.train[0])
  {
    var o := RunOutcome(inputExists, text, loads, dumps, shuffle, rounded);
    if o.Wrote? {
      var records := Iter(Loaded(text, loads).value).value;
      TryMapOk(records, Converter(dumps));
      assert records != [];
    }
  }

  /**
   * A one-record input is converted and written, all of it to the
   * validation file, and echoing the first training example then raises
   * IndexError.
   */
  lemma OneRecordEcho(text: string, loads: string -> Option<Json>, dumps: Json -> string,
                      shuffle: seq<Example> -> seq<Example>, rounded: nat -> int)
    requires Loaded(text, loads) == Some(JList([JObj([])]))
    requires forall xs :: shuffle(xs) == xs
    ensures RunOutcome(true, text, loads, dumps, shuffle, rounded)
            == Wrote([], [ExampleOf([], dumps)], Err(IndexError("list index out of range")))
  {
    var records := [JObj([])];
    assert Iter(JList(records)) == Ok(records);
    TryMapOk(records, Converter(dumps));
  }

  method Run(inputExists: bool, text: string, loads: string -> Option<Json>, dumps: Json -> string,
             shuffle: seq<Example> -> seq<Example>, rounded: nat -> int) returns (o: Outcome)
    ensures o == RunOutcome(inputExists, text, loads, dumps, shuffle, rounded)
  {
    if !inputExists {
      return Exit(1);
    }
    var items := LoadItems(text, loads);
    if items.None? || !Truthy(items.value) {
      return Exit(1);
    }
    var records := Iter(items.value);
    if records.Err? {
      return Raised(records.error);
    }
    var examples := Convert(records.value, dumps);
    if examples.Err? {
      return Raised(examples.error);
    }
    var shuffled := shuffle(examples.value);
    var parts := SplitVal(shuffled, rounded(|shuffled|));
    var echo := if parts.1 == [] then Err(IndexError("list index out of range")) else Ok(parts.1[0]);
    o := Wrote(parts.1, parts.0, echo);
  }
}
