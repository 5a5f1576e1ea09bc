/*
 * The agent config's `fields` list turned into the four per-field maps a
 * chooser agent works from: allowed option ids, defaults, cardinality and
 * option descriptions. Only enum fields contribute.
 */
module ConfigLoader {
  import opened Common
  import opened PyJson

  /**
   * `(enums, defaults, cardinality, option_descriptions)`; `enumOrder` is the
   * order in which field ids first entered `enums` (a dict's iteration order).
   */
  datatype FieldConfig = FieldConfig(
    enums: map<string, seq<string>>,
    enumOrder: seq<string>,
    defaults: map<string, Json>,
    cardinality: map<string, Json>,
    optionDescriptions: map<string, map<string, Json>>)

  const Empty := FieldConfig(map[], [], map[], map[], map[])

  /**
   * The shape the four maps keep: every enum field has a default and a
   * cardinality, descriptions only exist for enum fields, and no list or
   * description dict is empty.
   */
  predicate WellFormed(c: FieldConfig)
  {
    MapsAgree(c) && OrderTracksEnums(c)
  }

  predicate MapsAgree(c: FieldConfig)
  {
    && c.enums.Keys <= c.defaults.Keys
    && c.defaults.Keys == c.cardinality.Keys
    && c.optionDescriptions.Keys <= c.enums.Keys
    && (forall f :: f in c.enums ==> c.enums[f] != [])
    && (forall f :: f in c.optionDescriptions ==> c.optionDescriptions[f] != map[])
  }

  /** `enumOrder` lists every enum field once. */
  predicate OrderTracksEnums(c: FieldConfig)
  {
    && Distinct(c.enumOrder)
    && (forall f :: f in c.enumOrder ==> f in c.enums)
    && (forall f :: f in c.enums ==> f in c.enumOrder)
  }

  /** The per-field accumulators `allowed_ids` and `descs`. */
  datatype Options = Options(allowed: seq<string>, descs: map<string, Json>)

  /** The id an option contributes, if it is a dict with a usable id. */
  function OptionId(opt: Json): Option<string>
  {
    if opt.JObj? then KeyOf(Get(opt, "id", JNull).value) else None
  }

  /** Reference filter: the usable option ids, in config order. */
  function OptionIds(opts: seq<Json>): (ids: seq<string>)
    ensures |ids| <= |opts|
  {
    if opts == [] then []
    else (if OptionId(opts[0]).Some? then [OptionId(opts[0]).value] else []) + OptionIds(opts[1..])
  }

  /** One pass of the options loop. */
  function OptionStep(acc: Options, opt: Json): (r: Result<Options>)
    ensures r.Err? <==> !opt.JObj?
  {
    var id := Get(opt, "id", JNull);
    if id.Err? then Err(id.error)
    else
      match KeyOf(id.value)
      case None => Ok(acc)
      case Some(oid) =>
        var d := Lookup(opt.entries, "description");
        Ok(Options(acc.allowed + [oid], if d.Some? then acc.descs[oid := d.value] else acc.descs))
  }

  /**
   * The options loop from `acc`, stopping at the first option that is not a
   * dict: it fails exactly when some option is not a dict, and otherwise
   * appends the usable option ids in order and describes only ids it saw.
   */
  function CollectOptions(acc: Options, opts: seq<Json>): (r: Result<Options>)
    ensures r.Err? <==> exists i :: 0 <= i < |opts| && !opts[i].JObj?
    ensures r.Ok? ==> r.value.allowed == acc.allowed + OptionIds(opts)
    ensures r.Ok? ==> forall x :: x in r.value.descs ==> x in acc.descs || x in r.value.allowed
    decreases |opts|
  {
    if opts == [] then Ok(acc)
    else
      match OptionStep(acc, opts[0])
      case Err(e) => Err(e)
      case Ok(a) =>
        var r := CollectOptions(a, opts[1..]);
        assert forall i :: 1 <= i < |opts| ==> opts[i] == opts[1..][i - 1];
        r
  }

  /** The field id a field contributes under: a usable id on an enum-typed dict. */
  function EnumFieldId(field: Json): Option<string>
  {
    if !field.JObj? then None
    else
      var id := KeyOf(Get(field, "id", JNull).value);
      if id.Some? && Get(field, "type", JStr("enum")).value == JStr("enum") then id else None
  }

  /** `field.get("default")`, `field.get("cardinality", "one")` of a dict. */
  function DefaultOf(field: Json): Json
    requires field.JObj?
  {
    Get(field, "default", JNull).value
  }

  function CardinalityOf(field: Json): Json
    requires field.JObj?
  {
    Get(field, "cardinality", JStr("one")).value
  }

  /** One pass of the fields loop. */
  function FieldStep(c: FieldConfig, field: Json): (r: Result<FieldConfig>)
    ensures !field.JObj? ==> r.Err?
    ensures field.JObj? && EnumFieldId(field).None? ==> r == Ok(c)
    ensures WellFormed(c) && r.Ok? ==> WellFormed(r.value)
    ensures r.Ok? && EnumFieldId(field).Some? ==>
      var fid := EnumFieldId(field).value;
      && r.value.defaults == c.defaults[fid := DefaultOf(field)]
      && r.value.cardinality == c.cardinality[fid := CardinalityOf(field)]
      && r.value.enums.Keys <= c.enums.Keys + {fid}
      && (forall f :: f in c.enums && f != fid ==> f in r.value.enums && r.value.enums[f] == c.enums[f])
      && (forall f :: f in c.optionDescriptions && f != fid ==>
            f in r.value.optionDescriptions && r.value.optionDescriptions[f] == c.optionDescriptions[f])
      && r.value.optionDescriptions.Keys <= c.optionDescriptions.Keys + {fid}
  {
    var id := Get(field, "id", JNull);
    if id.Err? then Err(id.error)
    else
      match KeyOf(id.value)
      case None => Ok(c)
      case Some(fid) =>
        if Get(field, "type", JStr("enum")).value != JStr("enum") then Ok(c)
        else
          var opts := Iter(Or(Get(field, "options", JList([])).value, JList([])));
          if opts.Err? then Err(opts.error)
          else
            match CollectOptions(Options([], map[]), opts.value)
            case Err(e) => Err(e)
            case Ok(o) =>
              var r := AddField(c, fid, field, o);
              assert WellFormed(c) ==> WellFormed(r) by {
                if WellFormed(c) { AddFieldWellFormed(c, fid, field, o); }
              }
              Ok(r)
  }

  /**
   * The four assignments after the options loop: the default and the
   * cardinality are always recorded, the allowed ids only when there are
   * some, and the descriptions only when there are both.
   */
  function AddField(c: FieldConfig, fid: string, field: Json, o: Options): (r: FieldConfig)
    requires field.JObj?
    ensures r.defaults == c.defaults[fid := DefaultOf(field)]
    ensures r.cardinality == c.cardinality[fid := CardinalityOf(field)]
    ensures o.allowed != [] ==> fid in r.enums && r.enums[fid] == o.allowed
    ensures o.allowed == [] ==> r.enums == c.enums
    ensures r.enums.Keys <= c.enums.Keys + {fid}
    ensures forall f :: f in c.enums && f != fid ==> f in r.enums && r.enums[f] == c.enums[f]
    ensures forall f :: f in c.optionDescriptions && f != fid ==>
      f in r.optionDescriptions && r.optionDescriptions[f] == c.optionDescriptions[f]
    ensures r.optionDescriptions.Keys <= c.optionDescriptions.Keys + {fid}
  {
    var enums := if o.allowed != [] then c.enums[fid := o.allowed] else c.enums;
    var order := if o.allowed != [] && fid !in c.enums then c.enumOrder + [fid] else c.enumOrder;
    var descs := if o.allowed != [] && o.descs != map[] then c.optionDescriptions[fid := o.descs]
                 else c.optionDescriptions;
    FieldConfig(enums, order, c.defaults[fid := DefaultOf(field)], c.cardinality[fid := CardinalityOf(field)], descs)
  }

  /** Recording a field keeps the four maps well formed. */
  lemma AddFieldWellFormed(c: FieldConfig, fid: string, field: Json, o: Options)
    requires field.JObj? && WellFormed(c)
    ensures WellFormed(AddField(c, fid, field, o))
  {
    AddFieldMapsAgree(c, fid, field, o);
    AddFieldOrder(c, fid, field, o);
  }

  lemma AddFieldMapsAgree(c: FieldConfig, fid: string, field: Json, o: Options)
    requires field.JObj? && MapsAgree(c)
    ensures MapsAgree(AddField(c, fid, field, o))
  {
  }

  lemma AddFieldOrder(c: FieldConfig, fid: string, field: Json, o: Options)
    requires field.JObj? && OrderTracksEnums(c)
    ensures OrderTracksEnums(AddField(c, fid, field, o))
  {
    var r := AddField(c, fid, field, o);
    if o.allowed != [] && fid !in c.enums {
      assert r.enumOrder == c.enumOrder + [fid];
      DistinctAppend(c.enumOrder, fid);
    } else {
      assert r.enumOrder == c.enumOrder;
    }
  }

  lemma DistinctAppend(s: seq<string>, x: string)
    requires Distinct(s) && x !in s
    ensures Distinct(s + [x])
  {
  }

  /** The fields loop from `c`, stopping at the first error. */
  function ExtractSpec(c: FieldConfig, fields: seq<Json>): (r: Result<FieldConfig>)
    ensures WellFormed(c) && r.Ok? ==> WellFormed(r.value)
    decreases |fields|
  {
    if fields == [] then Ok(c)
    else
      match FieldStep(c, fields[0])
      case Err(e) => Err(e)
      case Ok(c1) =>
        var r := ExtractSpec(c1, fields[1..]);
        assert forall i :: 1 <= i < |fields| ==> fields[i] == fields[1..][i - 1];
        r
  }

  /** The inner `for opt in options` loop. */
  method CollectOptionIds(opts: seq<Json>) returns (r: Result<Options>)
    ensures r == CollectOptions(Options([], map[]), opts)
  {
    var allowedIds: seq<string> := [];
    var descs: map<string, Json> := map[];
    var j := 0;
    while j < |opts|
      invariant 0 <= j <= |opts|
      invariant CollectOptions(Options([], map[]), opts) == CollectOptions(Options(allowedIds, descs), opts[j..])
    {
      var opt := opts[j];
      assert opts[j..][1..] == opts[j + 1..];
      var optId := Get(opt, "id", JNull);
      if optId.Err? {
        return Err(optId.error);
      }
      var oid := KeyOf(optId.value);
      if oid.Some? {
        allowedIds := allowedIds + [oid.value];
        var d := Lookup(opt.entries, "description");
        if d.Some? {
          descs := descs[oid.value := d.value];
        }
      }
      j := j + 1;
    }
    return Ok(Options(allowedIds, descs));
  }

  /** The body of the fields loop of `extract_field_config`, for one field. */
  method RecordField(c: FieldConfig, field: Json) returns (r: Result<FieldConfig>)
    ensures r == FieldStep(c, field)
  {
    var fieldId := Get(field, "id", JNull);
    if fieldId.Err? {
      return Err(fieldId.error);
    }
    var fid := KeyOf(fieldId.value);
    if fid.None? {
      return Ok(c);
    }
    var fieldType := Get(field, "type", JStr("enum")).value;
    if fieldType != JStr("enum") {
      return Ok(c);
    }
    var options := Iter(Or(Get(field, "options", JList([])).value, JList([])));
    if options.Err? {
      return Err(options.error);
    }
    var o := CollectOptionIds(options.value);
    if o.Err? {
      return Err(o.error);
    }
    var enums, enumOrder, optionDescriptions := c.enums, c.enumOrder, c.optionDescriptions;
    if o.value.allowed != [] {
      if fid.value !in enums {
        enumOrder := enumOrder + [fid.value];
      }
      enums := enums[fid.value := o.value.allowed];
      if o.value.descs != map[] {
        optionDescriptions := optionDescriptions[fid.value := o.value.descs];
      }
    }
    var defaults := c.defaults[fid.value := Get(field, "default", JNull).value];
    var cardinality := c.cardinality[fid.value := Get(field, "cardinality", JStr("one")).value];
    r := Ok(FieldConfig(enums, enumOrder, defaults, cardinality, optionDescriptions));
  }

  /**
   * `extract_field_config(fields_cfg)`, loop by loop; the result is the
   * fields loop from empty maps, and its maps are well formed.
   */
  method ExtractFieldConfig(fieldsCfg: seq<Json>) returns (r: Result<FieldConfig>)
    ensures r == ExtractSpec(Empty, fieldsCfg)
    ensures r.Ok? ==> WellFormed(r.value)
  {
    var c := Empty;
    var i := 0;
    while i < |fieldsCfg|
      invariant 0 <= i <= |fieldsCfg|
      invariant ExtractSpec(Empty, fieldsCfg) == ExtractSpec(c, fieldsCfg[i..])
    {
      assert fieldsCfg[i..][1..] == fieldsCfg[i + 1..];
      var step := RecordField(c, fieldsCfg[i]);
      if step.Err? {
        return Err(step.error);
      }
      c := step.value;
      i := i + 1;
    }
    r := Ok(c);
  }

  // ---------------------------------------------------------------------
  // What the maps say about the config.

  /** Continuing the fields loop over `a + b` is the loop over `a`, then over `b`. */
  lemma {:induction false} ExtractAppend(c: FieldConfig, a: seq<Json>, b: seq<Json>)
    ensures ExtractSpec(c, a).Err? ==> ExtractSpec(c, a + b) == ExtractSpec(c, a)
    ensures ExtractSpec(c, a).Ok? ==> ExtractSpec(c, a + b) == ExtractSpec(ExtractSpec(c, a).value, b)
    decreases |a|
  {
    if a == [] {
      assert a + b == b;
    } else {
      assert (a + b)[0] == a[0];
      assert (a + b)[1..] == a[1..] + b;
      match FieldStep(c, a[0])
      case Err(e) =>
      case Ok(c1) => ExtractAppend(c1, a[1..], b);
    }
  }

  /**
   * A field id no enum field carries keeps whatever the four maps held for
   * it: a field id enters the maps only through an enum field of that id.
   */
  lemma {:induction false} UntouchedId(c: FieldConfig, fields: seq<Json>, fid: string)
    requires ExtractSpec(c, fields).Ok?
    requires forall i :: 0 <= i < |fields| ==> EnumFieldId(fields[i]) != Some(fid)
    ensures var r := ExtractSpec(c, fields).value;
      && (fid in r.enums <==> fid in c.enums) && (fid in c.enums ==> r.enums[fid] == c.enums[fid])
      && (fid in r.defaults <==> fid in c.defaults) && (fid in c.defaults ==> r.defaults[fid] == c.defaults[fid])
      && (fid in r.cardinality <==> fid in c.cardinality)
      && (fid in c.cardinality ==> r.cardinality[fid] == c.cardinality[fid])
      && (fid in r.optionDescriptions <==> fid in c.optionDescriptions)
    decreases |fields|
  {
    if fields != [] {
      var c1 := FieldStep(c, fields[0]).value;
      assert forall i :: 0 <= i < |fields[1..]| ==> fields[1..][i] == fields[i + 1];
      UntouchedId(c1, fields[1..], fid);
    }
  }

  /**
   * Starting from empty maps, a field id is a key of defaults (and of
   * cardinality) exactly when some enum field carries it.
   */
  lemma FieldIdsComeFromEnumFields(fields: seq<Json>, fid: string)
    requires ExtractSpec(Empty, fields).Ok?
    ensures fid in ExtractSpec(Empty, fields).value.defaults <==>
            exists i :: 0 <= i < |fields| && EnumFieldId(fields[i]) == Some(fid)
  {
    if i :| 0 <= i < |fields| && EnumFieldId(fields[i]) == Some(fid) {
      EnumFieldKept(Empty, fields, i, fid);
    } else {
      UntouchedId(Empty, fields, fid);
    }
  }

  /** The id of the enum field at index `i` is a key of defaults at the end. */
  lemma {:induction false} EnumFieldKept(c: FieldConfig, fields: seq<Json>, i: nat, fid: string)
    requires ExtractSpec(c, fields).Ok?
    requires i < |fields| && EnumFieldId(fields[i]) == Some(fid)
    ensures fid in ExtractSpec(c, fields).value.defaults
    decreases i
  {
    var step := FieldStep(c, fields[0]);
    assert step.Ok?;
    var c1 := step.value;
    var rest := fields[1..];
    assert ExtractSpec(c, fields) == ExtractSpec(c1, rest);
    if i == 0 {
      assert fid in c1.defaults;
      KeptKeys(c1, rest, fid);
    } else {
      assert EnumFieldId(rest[i - 1]) == Some(fid) by {
        assert rest[i - 1] == fields[i];
      }
      EnumFieldKept(c1, rest, i - 1, fid);
    }
  }

  /** The fields loop never removes a key of defaults. */
  lemma {:induction false} KeptKeys(c: FieldConfig, fields: seq<Json>, fid: string)
    requires ExtractSpec(c, fields).Ok?
    requires fid in c.defaults
    ensures fid in ExtractSpec(c, fields).value.defaults
    decreases |fields|
  {
    if fields != [] {
      KeptKeys(FieldStep(c, fields[0]).value, fields[1..], fid);
    }
  }

  /**
   * A later enum field overwrites the default and cardinality an earlier
   * field with the same id left.
   */
  lemma LaterFieldOverwrites(c: FieldConfig, fields: seq<Json>, field: Json)
    requires ExtractSpec(c, fields + [field]).Ok?
    requires EnumFieldId(field).Some?
    ensures var r := ExtractSpec(c, fields + [field]).value;
      && field.JObj?
      && EnumFieldId(field).value in r.defaults && EnumFieldId(field).value in r.cardinality
      && r.defaults[EnumFieldId(field).value] == DefaultOf(field)
      && r.cardinality[EnumFieldId(field).value] == CardinalityOf(field)
  {
    ExtractAppend(c, fields, [field]);
  }

  /**
   * `enums[field_id]` of an enum field whose options are all dicts lists
   * exactly its usable option ids in config order, when there is one.
   */
  lemma EnumsListOptionIds(c: FieldConfig, field: Json, opts: seq<Json>)
    requires EnumFieldId(field).Some?
    requires Iter(Or(Get(field, "options", JList([])).value, JList([]))) == Ok(opts)
    requires forall i :: 0 <= i < |opts| ==> opts[i].JObj?
    ensures var r := FieldStep(c, field);
      && r.Ok?
      && (OptionIds(opts) != [] ==> r.value.enums[EnumFieldId(field).value] == OptionIds(opts))
      && (OptionIds(opts) == [] ==> r.value.enums == c.enums)
  {
    var o := CollectOptions(Options([], map[]), opts);
    assert o.Ok?;
    assert o.value.allowed == OptionIds(opts);
    assert FieldStep(c, field) == Ok(AddField(c, EnumFieldId(field).value, field, o.value));
  }
}
