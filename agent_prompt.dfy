/*
 * The neutral prompt engine every LLM-using agent is built on: an agent
 * read once from its JSON config, which composes the SYSTEM and USER
 * messages of a chooser call and parses the model's answer back into one
 * allowed option id (or a list of them) per field.
 */
module AgentPromptEngine {
  import opened Common
  import opened PyJson
  import opened StrOrder
  import opened ConfigLoader
  import opened SchemaMap
  import opened JsonParser
  import opened FieldNormalizer
  import opened ComposeTexts

  /**
   * An agent's read-only configuration. `temperature` is the value `float()`
   * accepted, kept as the JSON value it came from: the float itself is not
   * modelled.
   */
  datatype AgentPrompt = AgentPrompt(
    agentName: Json,
    version: string,
    mode: Json,
    systemText: Json,
    purposeText: Json,
    outputSchema: Json,
    fields: FieldConfig,
    modelName: Json,
    temperature: Json,
    maxOutputTokens: int,
    resultKeys: map<string, Json>)

  /** One chat message. */
  datatype Message = Message(role: string, content: string)

  /** What `compose` hands to the LLM client. */
  datatype Composed = Composed(messages: seq<Message>, responseFormat: Json)

  /** A parsed field: one id (None only when nothing is allowed) or a list of ids. */
  datatype Choice = One(id: Option<string>) | Many(ids: seq<string>)

  // ---------------------------------------------------------------------
  // Construction.

  /**
   * `float(v)` for the values JSON yields: ints and bools convert, a string
   * converts when `float()` accepts its text and raises ValueError
   * otherwise, and None, a list or a dict raise TypeError. The float's value
   * is not modelled: a converted string stays the string it was.
   */
  function PyFloat(v: Json): (r: Result<Json>)
    ensures r.Err? <==> v.JNull? || v.JList? || v.JObj? || (v.JStr? && !FloatText(v.s))
    ensures r.Err? && v.JStr? ==> r.error.ValueError?
    ensures r.Err? && !v.JStr? ==> r.error.TypeError?
    ensures v.JInt? || (v.JStr? && r.Ok?) ==> r == Ok(v)
  {
    match v
    case JInt(_) => Ok(v)
    case JBool(b) => Ok(JInt(if b then 1 else 0))
    case JStr(s) => if FloatText(s) then Ok(v) else Err(ValueError("could not convert string to float: " + StrRepr(s)))
    case _ => Err(TypeError("float() argument must be a string or a real number, not '" + TypeName(v) + "'"))
  }

  /** `agent_meta`: the name (`agent_id or agent_name or "unknown_agent"`), `str(version)` and the mode. */
  function MetaSettings(meta: Json): (r: Result<(Json, string, Json)>)
    ensures r.Err? <==> !meta.JObj?
    ensures r.Ok? ==> Truthy(r.value.0)
  {
    var id := Get(meta, "agent_id", JNull);
    if id.Err? then Err(id.error)
    else
      var name := Or(Or(id.value, Get(meta, "agent_name", JNull).value), JStr("unknown_agent"));
      Ok((name, Str(Get(meta, "version", JStr("000")).value), Get(meta, "agent_type", JStr("chooser")).value))
  }

  /** `prompt_profile`: the system role and the purpose, both defaulting to "". */
  function ProfileTexts(profile: Json): (r: Result<(Json, Json)>)
    ensures r.Err? <==> !profile.JObj?
  {
    var systemText := Get(profile, "system_role", JStr(""));
    if systemText.Err? then Err(systemText.error)
    else Ok((systemText.value, Get(profile, "agent_purpose", JStr("")).value))
  }

  /** `llm_config`: the model name, `float(temperature)` and `int(max_tokens)`. */
  function LlmSettings(llm: Json): (r: Result<(Json, Json, int)>)
    ensures !llm.JObj? ==> r.Err? && r.error.AttributeError?
  {
    var modelName := Get(llm, "model_name", JStr("gpt-5.1-mini"));
    if modelName.Err? then Err(modelName.error)
    else
      var temperature := PyFloat(Get(llm, "temperature", JInt(0)).value);
      if temperature.Err? then Err(temperature.error)
      else
        var maxTokens := PyInt(Get(llm, "max_tokens", JInt(256)).value);
        if maxTokens.Err? then Err(maxTokens.error)
        else Ok((modelName.value, temperature.value, maxTokens.value))
  }

  /** An empty `llm_config` gives the default model, temperature 0 and 256 tokens. */
  lemma LlmDefaults()
    ensures LlmSettings(JObj([])) == Ok((JStr("gpt-5.1-mini"), JInt(0), 256))
  {
  }

  /** `max_tokens` written as a decimal string is read back as that number. */
  lemma MaxTokensFromString(llm: seq<(string, Json)>, n: int)
    requires Lookup(llm, "max_tokens") == Some(JStr(IntToString(n)))
    requires LlmSettings(JObj(llm)).Ok?
    ensures LlmSettings(JObj(llm)).value.2 == n
  {
    PyIntOfStr(n);
  }

  /**
   * `AgentPrompt.from_config(config)` followed by `__init__`: the three
   * sections default to {}, `fields` and `output_schema` fall back on their
   * defaults when falsy, and a section that is not a dict, a failed
   * conversion or a malformed field list or schema raises, in source order.
   */
  function FromConfig(config: Json): (r: Result<AgentPrompt>)
    ensures !config.JObj? ==> r.Err? && r.error.AttributeError?
    ensures r.Ok? ==> Truthy(r.value.agentName) && WellFormed(r.value.fields)
  {
    var meta := Get(config, "agent_meta", JObj([]));
    if meta.Err? then Err(meta.error)
    else
      var profile := Get(config, "prompt_profile", JObj([])).value;
      var llm := Get(config, "llm_config", JObj([])).value;
      var fieldsCfg := Or(Get(config, "fields", JList([])).value, JList([]));
      var outputSchema := Or(Get(config, "output_schema", JObj([])).value, JObj([]));
      var m := MetaSettings(meta.value);
      if m.Err? then Err(m.error)
      else
        var p := ProfileTexts(profile);
        if p.Err? then Err(p.error)
        else
          var l := LlmSettings(llm);
          if l.Err? then Err(l.error)
          else
            var items := Iter(fieldsCfg);
            if items.Err? then Err(items.error)
            else
              var fields := ExtractSpec(Empty, items.value);
              assert WellFormed(Empty);
              if fields.Err? then Err(fields.error)
              else
                var keys := ResultKeyMapSpec(outputSchema);
                if keys.Err? then Err(keys.error)
                else
                  Ok(AgentPrompt(m.value.0, m.value.1, m.value.2, p.value.0, p.value.1, outputSchema,
                                 fields.value, l.value.0, l.value.1, l.value.2, keys.value))
  }

  /** A config with none of the known sections builds the default agent. */
  lemma EmptyConfigDefaults()
    ensures var r := FromConfig(JObj([]));
      && r.Ok?
      && r.value.agentName == JStr("unknown_agent") && r.value.version == "000"
      && r.value.mode == JStr("chooser") && r.value.systemText == JStr("") && r.value.purposeText == JStr("")
      && r.value.modelName == JStr("gpt-5.1-mini") && r.value.maxOutputTokens == 256
      && r.value.fields == Empty && r.value.resultKeys == map[]
  {
    LlmDefaults();
  }

  // ---------------------------------------------------------------------
  // Active fields.

  /** The fields a caller named that are enum fields, in the caller's order. */
  function KnownFields(names: seq<string>, enums: map<string, seq<string>>): (r: seq<string>)
    ensures forall f :: f in r <==> f in names && f in enums
  {
    if names == [] then []
    else (if names[0] in enums then [names[0]] else []) + KnownFields(names[1..], enums)
  }

  /** A field is live when no list was given or the list names it. */
  predicate IsActive(activeFields: Option<seq<string>>, fid: string)
  {
    activeFields.None? || fid in activeFields.value
  }

  /** `sorted(active_set)`: the live enum fields, ascending, each once. */
  function ActiveFields(a: AgentPrompt, activeFields: Option<seq<string>>): (r: seq<string>)
    requires WellFormed(a.fields)
    ensures StrictlySorted(r)
    ensures forall f :: f in r <==> f in a.fields.enums && IsActive(activeFields, f)
  {
    if activeFields.None? then SortedSet(a.fields.enumOrder)
    else SortedSet(KnownFields(activeFields.value, a.fields.enums))
  }

  /**
   * The listing does not depend on how the live fields were named: two
   * lists naming the same enum fields give the same sorted list.
   */
  lemma ActiveFieldsIgnoreOrder(a: AgentPrompt, x: Option<seq<string>>, y: Option<seq<string>>)
    requires WellFormed(a.fields)
    requires forall f :: f in a.fields.enums ==> (IsActive(x, f) <==> IsActive(y, f))
    ensures ActiveFields(a, x) == ActiveFields(a, y)
  {
    SortedUnique(ActiveFields(a, x), ActiveFields(a, y));
  }

  // ---------------------------------------------------------------------
  // compose().

  /** The error `compose` and `parse` raise for an agent that is not a chooser. */
  function ModeError(a: AgentPrompt, op: string): Error
  {
    AgentPromptValidationError("AgentPrompt[" + Str(a.agentName) + "] " + op
                               + "() currently only supports mode='chooser'")
  }

  /**
   * The tables the USER message is built from. `option_labels` is not
   * stored by the agent, so the listing works without labels.
   */
  function ChooserTables(a: AgentPrompt): Tables
  {
    Tables(a.fields.enums, a.fields.cardinality, a.fields.optionDescriptions, map[], a.resultKeys)
  }

  /**
   * `compose(input_payload, active_fields)` as written: after the mode check
   * and the SYSTEM text, the call that builds the USER text leaves out the
   * required `option_labels` argument, so Python raises TypeError before the
   * messages exist. It never succeeds.
   */
  function ComposeAsWritten(a: AgentPrompt, payload: seq<(string, Json)>, activeFields: Option<seq<string>>)
    : (r: Result<Composed>)
    ensures r.Err?
    ensures a.mode == JStr("chooser") && SystemHead(a.systemText, a.purposeText).Ok?
            ==> r.error.TypeError?
  {
    if a.mode != JStr("chooser") then Err(ModeError(a, "compose"))
    else
      var system := SystemLines(a.systemText, a.purposeText, a.agentName, a.version);
      if system.Err? then Err(system.error)
      else Err(TypeError("build_user_text_for_chooser() missing 1 required positional argument: 'option_labels'"))
  }

  /**
   * `compose` with `option_labels={}` passed: the SYSTEM message, the USER
   * message listing the sorted live fields, and `{"type": "json_object"}`.
   * It fails exactly for a non-chooser agent or a non-string role or purpose.
   */
  function Compose(a: AgentPrompt, payload: seq<(string, Json)>, activeFields: Option<seq<string>>)
    : (r: Result<Composed>)
    requires WellFormed(a.fields)
    ensures r.Err? <==> a.mode != JStr("chooser") || SystemHead(a.systemText, a.purposeText).Err?
    ensures r.Err? && a.mode != JStr("chooser") ==> r.error == ModeError(a, "compose")
    ensures r.Ok? ==>
      && |r.value.messages| == 2
      && r.value.messages[0].role == "system" && r.value.messages[1].role == "user"
      && r.value.messages[0].content == Join(SystemLines(a.systemText, a.purposeText, a.agentName, a.version).value, "\n")
      && r.value.messages[1].content == Join(UserLines(payload, ChooserTables(a), ActiveFields(a, activeFields)), "\n")
      && r.value.responseFormat == JObj([("type", JStr("json_object"))])
  {
    if a.mode != JStr("chooser") then Err(ModeError(a, "compose"))
    else
      var system := SystemLines(a.systemText, a.purposeText, a.agentName, a.version);
      if system.Err? then Err(system.error)
      else
        var user := Join(UserLines(payload, ChooserTables(a), ActiveFields(a, activeFields)), "\n");
        Ok(Composed([Message("system", Join(system.value, "\n")), Message("user", user)],
                    JObj([("type", JStr("json_object"))])))
  }

  // ---------------------------------------------------------------------
  // parse().

  /**
   * `json_obj.get(key, None)`: AttributeError when the value is not a dict,
   * TypeError for an unhashable key, and None for a key that is not a
   * string (JSON object keys always are).
   */
  function DictGet(obj: Json, key: Json): (r: Result<Json>)
    ensures r.Err? <==> !obj.JObj? || key.JList? || key.JObj?
    ensures obj.JObj? && key.JStr? ==> r == Ok(if Lookup(obj.entries, key.s).Some? then Lookup(obj.entries, key.s).value else JNull)
  {
    if !obj.JObj? then Err(AttributeError("'" + TypeName(obj) + "' object has no attribute 'get'"))
    else if key.JList? || key.JObj? then Err(TypeError("unhashable type: '" + TypeName(key) + "'"))
    else if key.JStr? then Get(obj, key.s, JNull)
    else Ok(JNull)
  }

  /** The JSON key a field is answered under (`result_keys.get(field_id, field_id)`). */
  function AnswerKey(a: AgentPrompt, fid: string): Json
  {
    GetOr(a.resultKeys, fid, JStr(fid))
  }

  /** `cardinality.get(field_id, "one") == "many"`. */
  predicate IsManyField(a: AgentPrompt, fid: string)
  {
    GetOr(a.fields.cardinality, fid, JStr("one")) == JStr("many")
  }

  /** The normalised value of one live enum field, read from the answer `raw`. */
  function Normalized(a: AgentPrompt, fid: string, raw: Json): Choice
    requires fid in a.fields.enums
  {
    var allowed := a.fields.enums[fid];
    var dflt := GetOr(a.fields.defaults, fid, JNull);
    if IsManyField(a, fid) then Many(NormalizeManySpec(raw, allowed, dflt))
    else One(NormalizeOneSpec(raw, allowed, dflt))
  }

  /**
   * The `for field_id, allowed in self.enums.items()` loop from `acc`, over
   * the enum fields in `order`, stopping at the first failing lookup.
   */
  function ParseLoop(a: AgentPrompt, obj: Json, activeFields: Option<seq<string>>, order: seq<string>,
                     acc: map<string, Choice>): (r: Result<map<string, Choice>>)
    requires forall f :: f in order ==> f in a.fields.enums
    decreases |order|
  {
    if order == [] then Ok(acc)
    else
      var fid := order[0];
      if !IsActive(activeFields, fid) then ParseLoop(a, obj, activeFields, order[1..], acc)
      else
        var raw := DictGet(obj, AnswerKey(a, fid));
        if raw.Err? then Err(raw.error)
        else ParseLoop(a, obj, activeFields, order[1..], acc[fid := Normalized(a, fid, raw.value)])
  }

  /** The loop over all enum fields, from {}. */
  function ParseFields(a: AgentPrompt, obj: Json, activeFields: Option<seq<string>>): Result<map<string, Choice>>
    requires WellFormed(a.fields)
  {
    ParseLoop(a, obj, activeFields, a.fields.enumOrder, map[])
  }

  /**
   * `parse(raw_output, active_fields)` as written: a non-chooser agent is
   * refused, and the answer is whatever `extract_json_object` returned.
   */
  function ParseAsWritten(a: AgentPrompt, raw: Json, activeFields: Option<seq<string>>, loads: string -> Option<Json>)
    : (r: Result<map<string, Choice>>)
    requires WellFormed(a.fields)
    ensures a.mode != JStr("chooser") ==> r == Err(ModeError(a, "parse"))
  {
    if a.mode != JStr("chooser") then Err(ModeError(a, "parse"))
    else ParseFields(a, ExtractJsonObject(raw, loads), activeFields)
  }

  /**
   * `parse` on top of the object extraction the parser promises: a model
   * answer that is valid JSON but not an object is treated as {}, so every
   * field falls back on its default.
   */
  function Parse(a: AgentPrompt, raw: Json, activeFields: Option<seq<string>>, loads: string -> Option<Json>)
    : (r: Result<map<string, Choice>>)
    requires WellFormed(a.fields)
    ensures a.mode != JStr("chooser") ==> r == Err(ModeError(a, "parse"))
  {
    if a.mode != JStr("chooser") then Err(ModeError(a, "parse"))
    else ParseFields(a, ExtractObject(raw, loads), activeFields)
  }

  /** The parse loop, `continue` and all. */
  method ParseChoices(a: AgentPrompt, obj: Json, activeFields: Option<seq<string>>) returns (r: Result<map<string, Choice>>)
    requires WellFormed(a.fields)
    ensures r == ParseFields(a, obj, activeFields)
  {
    var order := a.fields.enumOrder;
    var result: map<string, Choice> := map[];
    var i := 0;
    while i < |order|
      invariant 0 <= i <= |order|
      invariant ParseFields(a, obj, activeFields) == ParseLoop(a, obj, activeFields, order[i..], result)
    {
      var fid := order[i];
      assert order[i..][1..] == order[i + 1..];
      if !(activeFields.None? || fid in activeFields.value) {
        i := i + 1;
        continue;
      }
      var allowed := a.fields.enums[fid];
      var resultKey := AnswerKey(a, fid);
      var dflt := GetOr(a.fields.defaults, fid, JNull);
      var raw := DictGet(obj, resultKey);
      if raw.Err? {
        return Err(raw.error);
      }
      var normalized: Choice;
      if GetOr(a.fields.cardinality, fid, JStr("one")) == JStr("many") {
        var ids := NormalizeMany(fid, raw.value, allowed, dflt);
        normalized := Many(ids);
      } else {
        var id := NormalizeOne(fid, raw.value, allowed, dflt);
        normalized := One(id);
      }
      result := result[fid := normalized];
      i := i + 1;
    }
    return Ok(result);
  }

  // ---------------------------------------------------------------------
  // What a parse returns.

  /**
   * Every key the loop adds is a live enum field of `order`, keys of `acc`
   * stay, and every live field of `order` gets a key.
   */
  lemma {:induction false} ParseLoopKeys(a: AgentPrompt, obj: Json, activeFields: Option<seq<string>>,
                                          order: seq<string>, acc: map<string, Choice>, f: string)
    requires forall g :: g in order ==> g in a.fields.enums
    requires ParseLoop(a, obj, activeFields, order, acc).Ok?
    ensures f in ParseLoop(a, obj, activeFields, order, acc).value <==> f in acc || (f in order && IsActive(activeFields, f))
    decreases |order|
  {
    if order != [] {
      var fid := order[0];
      assert forall g :: g in order ==> g == fid || g in order[1..];
      if !IsActive(activeFields, fid) {
        ParseLoopKeys(a, obj, activeFields, order[1..], acc, f);
      } else {
        var raw := DictGet(obj, AnswerKey(a, fid));
        ParseLoopKeys(a, obj, activeFields, order[1..], acc[fid := Normalized(a, fid, raw.value)], f);
      }
    }
  }

  /**
   * The value the loop leaves for a live field is that field's own answer,
   * normalised; keys already present are overwritten only by their field.
   */
  lemma {:induction false} ParseLoopValue(a: AgentPrompt, obj: Json, activeFields: Option<seq<string>>,
                                           order: seq<string>, acc: map<string, Choice>, f: string)
    requires forall g :: g in order ==> g in a.fields.enums
    requires ParseLoop(a, obj, activeFields, order, acc).Ok?
    requires f in order && IsActive(activeFields, f)
    ensures f in ParseLoop(a, obj, activeFields, order, acc).value
    ensures DictGet(obj, AnswerKey(a, f)).Ok?
    ensures ParseLoop(a, obj, activeFields, order, acc).value[f] == Normalized(a, f, DictGet(obj, AnswerKey(a, f)).value)
    decreases |order|
  {
    var fid := order[0];
    var rest := order[1..];
    assert forall g :: g in order ==> g == fid || g in rest;
    if !IsActive(activeFields, fid) {
      ParseLoopValue(a, obj, activeFields, rest, acc, f);
    } else {
      var raw := DictGet(obj, AnswerKey(a, fid));
      var acc1 := acc[fid := Normalized(a, fid, raw.value)];
      if f in rest {
        ParseLoopValue(a, obj, activeFields, rest, acc1, f);
      } else {
        assert f == fid;
        ParseLoopUntouched(a, obj, activeFields, rest, acc1, f);
      }
    }
  }

  /** A key no later field names keeps its value. */
  lemma {:induction false} ParseLoopUntouched(a: AgentPrompt, obj: Json, activeFields: Option<seq<string>>,
                                               order: seq<string>, acc: map<string, Choice>, f: string)
    requires forall g :: g in order ==> g in a.fields.enums
    requires ParseLoop(a, obj, activeFields, order, acc).Ok?
    requires f in acc && f !in order
    ensures f in ParseLoop(a, obj, activeFields, order, acc).value
    ensures ParseLoop(a, obj, activeFields, order, acc).value[f] == acc[f]
    decreases |order|
  {
    if order != [] {
      var fid := order[0];
      assert forall g :: g in order[1..] ==> g in order;
      if !IsActive(activeFields, fid) {
        ParseLoopUntouched(a, obj, activeFields, order[1..], acc, f);
      } else {
        var raw := DictGet(obj, AnswerKey(a, fid));
        ParseLoopUntouched(a, obj, activeFields, order[1..], acc[fid := Normalized(a, fid, raw.value)], f);
      }
    }
  }

  /**
   * A successful parse has exactly the live enum fields as keys, and each
   * holds allowed ids only: one id for a single-choice field, a non-empty
   * duplicate-free list for a multi-choice field.
   */
  lemma ParseResult(a: AgentPrompt, obj: Json, activeFields: Option<seq<string>>, f: string)
    requires WellFormed(a.fields) && ParseFields(a, obj, activeFields).Ok?
    ensures f in ParseFields(a, obj, activeFields).value <==> f in a.fields.enums && IsActive(activeFields, f)
    ensures f in ParseFields(a, obj, activeFields).value ==>
      var c := ParseFields(a, obj, activeFields).value[f];
      && (c.One? ==> !IsManyField(a, f) && c.id.Some? && c.id.value in a.fields.enums[f])
      && (c.Many? ==> IsManyField(a, f) && c.ids != [] && Distinct(c.ids)
                      && forall x :: x in c.ids ==> x in a.fields.enums[f])
  {
    ParseLoopKeys(a, obj, activeFields, a.fields.enumOrder, map[], f);
    if f in ParseFields(a, obj, activeFields).value {
      ParseLoopValue(a, obj, activeFields, a.fields.enumOrder, map[], f);
    }
  }

  /**
   * The loop fails exactly when some live enum field has to be looked up in
   * a value that is not a dict, or under a result key that is a list or a
   * dict.
   */
  lemma {:induction false} ParseLoopFails(a: AgentPrompt, obj: Json, activeFields: Option<seq<string>>,
                                           order: seq<string>, acc: map<string, Choice>)
    requires forall g :: g in order ==> g in a.fields.enums
    ensures ParseLoop(a, obj, activeFields, order, acc).Err? <==>
      exists f :: f in order && IsActive(activeFields, f) && DictGet(obj, AnswerKey(a, f)).Err?
    decreases |order|
  {
    if order != [] {
      var fid := order[0];
      assert forall g :: g in order <==> g == fid || g in order[1..];
      if !IsActive(activeFields, fid) {
        ParseLoopFails(a, obj, activeFields, order[1..], acc);
      } else {
        var raw := DictGet(obj, AnswerKey(a, fid));
        if raw.Ok? {
          ParseLoopFails(a, obj, activeFields, order[1..], acc[fid := Normalized(a, fid, raw.value)]);
        }
      }
    }
  }

  /**
   * With the object extraction the parser promises, parse of a chooser never
   * fails when every result key is a string, whatever the model answered.
   */
  lemma ParseNeverFails(a: AgentPrompt, raw: Json, activeFields: Option<seq<string>>, loads: string -> Option<Json>)
    requires WellFormed(a.fields) && a.mode == JStr("chooser")
    requires forall f :: f in a.resultKeys ==> a.resultKeys[f].JStr?
    ensures Parse(a, raw, activeFields, loads).Ok?
  {
    ParseLoopFails(a, ExtractObject(raw, loads), activeFields, a.fields.enumOrder, map[]);
  }

  /**
   * As written, a model answer that is valid JSON but a list makes parse
   * raise AttributeError as soon as there is a live enum field.
   */
  lemma ParseOfListAnswerFails(a: AgentPrompt, activeFields: Option<seq<string>>, loads: string -> Option<Json>, f: string)
    requires WellFormed(a.fields) && a.mode == JStr("chooser")
    requires loads("[1]") == Some(JList([JInt(1)]))
    requires f in a.fields.enums && IsActive(activeFields, f)
    ensures ParseAsWritten(a, JStr("[1]"), activeFields, loads).Err?
  {
    ListOutputIsReturned(loads);
    ParseLoopFails(a, JList([JInt(1)]), activeFields, a.fields.enumOrder, map[]);
  }
}
