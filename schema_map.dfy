/*
 * The `field_id -> result_key` map read from an agent config's
 * `output_schema`: under which JSON key the model is asked to answer for
 * each field.
 */
module SchemaMap {
  import opened Common
  import opened PyJson

  /** The field id a schema entry maps, if it is a dict with a usable `field_id`. */
  function SchemaFieldId(field: Json): Option<string>
  {
    if field.JObj? then KeyOf(Get(field, "field_id", JNull).value) else None
  }

  /** `field.get("result_key", field_id)` of a schema entry with a usable id. */
  function ResultKeyOf(field: Json): Json
    requires SchemaFieldId(field).Some?
  {
    Get(field, "result_key", JStr(SchemaFieldId(field).value)).value
  }

  /**
   * The loop from `acc` over the schema entries, stopping at the first entry
   * that is not a dict. Every key is the id of some entry, entries of other
   * ids leave a key alone, and it fails exactly when some entry is not a dict.
   */
  function KeysSpec(acc: map<string, Json>, fields: seq<Json>): (r: Result<map<string, Json>>)
    ensures r.Err? <==> exists i :: 0 <= i < |fields| && !fields[i].JObj?
    ensures r.Ok? ==> forall k :: k in r.value ==>
      k in acc || exists i :: 0 <= i < |fields| && SchemaFieldId(fields[i]) == Some(k)
    ensures r.Ok? ==> acc.Keys <= r.value.Keys
    decreases |fields|
  {
    if fields == [] then Ok(acc)
    else
      var field := fields[0];
      var id := Get(field, "field_id", JNull);
      assert forall i :: 1 <= i < |fields| ==> fields[i] == fields[1..][i - 1];
      if id.Err? then Err(id.error)
      else if KeyOf(id.value).None? then KeysSpec(acc, fields[1..])
      else
        var fid := KeyOf(id.value).value;
        KeysSpec(acc[fid := Get(field, "result_key", id.value).value], fields[1..])
  }

  /**
   * `build_result_key_map(output_schema)`: the entries are
   * `output_schema.get("fields", []) or []`, and the loop starts from {}.
   */
  function ResultKeyMapSpec(outputSchema: Json): (r: Result<map<string, Json>>)
    ensures !outputSchema.JObj? ==> r.Err? && r.error.AttributeError?
    ensures outputSchema.JObj? && !Truthy(Get(outputSchema, "fields", JList([])).value) ==> r == Ok(map[])
  {
    var fields := Get(outputSchema, "fields", JList([]));
    if fields.Err? then Err(fields.error)
    else
      var items := Iter(Or(fields.value, JList([])));
      if items.Err? then Err(items.error) else KeysSpec(map[], items.value)
  }

  /** `build_result_key_map`, its loop as written. */
  method BuildResultKeyMap(outputSchema: Json) returns (r: Result<map<string, Json>>)
    ensures r == ResultKeyMapSpec(outputSchema)
  {
    var got := Get(outputSchema, "fields", JList([]));
    if got.Err? {
      return Err(got.error);
    }
    var fields := Iter(Or(got.value, JList([])));
    if fields.Err? {
      return Err(fields.error);
    }
    var items := fields.value;
    var result: map<string, Json> := map[];
    var i := 0;
    while i < |items|
      invariant 0 <= i <= |items|
      invariant KeysSpec(map[], items) == KeysSpec(result, items[i..])
    {
      var field := items[i];
      assert items[i..][1..] == items[i + 1..];
      var fieldId := Get(field, "field_id", JNull);
      if fieldId.Err? {
        return Err(fieldId.error);
      }
      var fid := KeyOf(fieldId.value);
      if fid.Some? {
        var resultKey := Get(field, "result_key", fieldId.value).value;
        result := result[fid.value := resultKey];
      }
      i := i + 1;
    }
    return Ok(result);
  }

  // ---------------------------------------------------------------------
  // Which entry a key comes from.

  /**
   * The last entry with a given id decides its result key: after it, no
   * entry of another id changes the key, and its own `result_key` (the id
   * itself when absent) is the one kept.
   */
  lemma {:induction false} LastEntryWins(acc: map<string, Json>, fields: seq<Json>, i: nat)
    requires KeysSpec(acc, fields).Ok?
    requires i < |fields| && SchemaFieldId(fields[i]).Some?
    requires forall j :: i < j < |fields| ==> SchemaFieldId(fields[j]) != SchemaFieldId(fields[i])
    ensures var fid := SchemaFieldId(fields[i]).value;
      fid in KeysSpec(acc, fields).value && KeysSpec(acc, fields).value[fid] == ResultKeyOf(fields[i])
    decreases i
  {
    var fid := SchemaFieldId(fields[i]).value;
    var acc1 := KeysStep(acc, fields);
    if i == 0 {
      KeysUntouched(acc1, fields[1..], fid);
    } else {
      LastEntryWins(acc1, fields[1..], i - 1);
    }
  }

  /** One step of the loop: the first entry is a dict and sets its key, if it has a usable id. */
  lemma KeysStep(acc: map<string, Json>, fields: seq<Json>) returns (acc1: map<string, Json>)
    requires KeysSpec(acc, fields).Ok? && fields != []
    ensures acc1 == if SchemaFieldId(fields[0]).Some? then acc[SchemaFieldId(fields[0]).value := ResultKeyOf(fields[0])] else acc
    ensures KeysSpec(acc, fields) == KeysSpec(acc1, fields[1..])
  {
    assert fields[0].JObj?;
    acc1 := if SchemaFieldId(fields[0]).Some? then acc[SchemaFieldId(fields[0]).value := ResultKeyOf(fields[0])] else acc;
  }

  /** Entries of other ids never change the key of `fid`. */
  lemma {:induction false} KeysUntouched(acc: map<string, Json>, fields: seq<Json>, fid: string)
    requires KeysSpec(acc, fields).Ok?
    requires fid in acc
    requires forall j :: 0 <= j < |fields| ==> SchemaFieldId(fields[j]) != Some(fid)
    ensures fid in KeysSpec(acc, fields).value && KeysSpec(acc, fields).value[fid] == acc[fid]
    decreases |fields|
  {
    if fields != [] {
      var acc1 := KeysStep(acc, fields);
      KeysUntouched(acc1, fields[1..], fid);
    }
  }

  /**
   * From {}, the keys are exactly the usable field ids of the entries, and
   * an entry without a `result_key` maps its id to itself.
   */
  lemma KeysAreFieldIds(fields: seq<Json>, k: string)
    requires KeysSpec(map[], fields).Ok?
    ensures k in KeysSpec(map[], fields).value <==> exists i :: 0 <= i < |fields| && SchemaFieldId(fields[i]) == Some(k)
  {
    if i :| 0 <= i < |fields| && SchemaFieldId(fields[i]) == Some(k) {
      LastEntryKept(map[], fields, i);
    }
  }

  /** Whichever entry carries `fid`, `fid` ends up a key. */
  lemma {:induction false} LastEntryKept(acc: map<string, Json>, fields: seq<Json>, i: nat)
    requires KeysSpec(acc, fields).Ok?
    requires i < |fields| && SchemaFieldId(fields[i]).Some?
    ensures SchemaFieldId(fields[i]).value in KeysSpec(acc, fields).value
    decreases i
  {
    var acc1 := KeysStep(acc, fields);
    if i > 0 {
      LastEntryKept(acc1, fields[1..], i - 1);
    }
  }

  /** A schema entry without `result_key` answers under its own id. */
  lemma DefaultResultKey(field: Json)
    requires SchemaFieldId(field).Some?
    requires "result_key" !in Keys(field.entries)
    ensures ResultKeyOf(field) == JStr(SchemaFieldId(field).value)
  {
  }
}
