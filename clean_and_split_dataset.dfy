/*
 * `clean_and_split_dataset.py`: the earlier, non-windowed preparation of
 * the A2 dataset. Its helpers (`canon_key`, `normalize_text`,
 * `build_input_and_labels`, `record_fingerprint`) follow the same rules as
 * those of `clean_and_window_384.py` and are shared with `CleanWindow`;
 * here items without labels are kept, and each kept item gets a numbered
 * id. The shuffle before the split is not modelled.
 */
module CleanSplit {
  import opened Common
  import opened PyJson
  import opened CleanWindow

  /** One output record: `{"id", "input", "labels"}`. */
  datatype Record = Record(id: string, input: Input, labels: map<string, string>)

  /** `f"a2_{n:06d}"`. */
  function RecordId(n: nat): string
  {
    "a2_" + ZeroPad(n, 6)
  }

  /** `load_raw`: the raw file must hold a JSON list. */
  function LoadRaw(data: Json): (r: Result<seq<Json>>)
    ensures r.Ok? <==> data.JList?
    ensures r.Ok? ==> r.value == data.items
    ensures r.Err? ==> r.error == ValueError("Raw dataset must be a JSON list of dictionaries.")
  {
    if data.JList? then Ok(data.items) else Err(ValueError("Raw dataset must be a JSON list of dictionaries."))
  }

  /**
   * Without the label requirement a row yields an item exactly when it is
   * a dict with a task or a context; its labels may be empty.
   */
  lemma CandidateUnlabelled(row: Json)
    ensures Candidate(row, false).Some? <==>
      row.JObj? && (InputOf(CanonRow(row.entries)).task != [] || InputOf(CanonRow(row.entries)).context != [])
    ensures Candidate(row, false).Some? ==> Candidate(row, false).value.labels == Labels(CanonRow(row.entries), LabelKeys)
  {
  }

  /**
   * The loop of `process` from the candidates `cands` on, with the keys
   * `seen` so far and the next number `n`: the first item of each key
   * becomes a record with the next id.
   */
  function Records(cands: seq<Option<Item>>, key: Item -> string, seen: set<string>, n: nat): seq<Record>
    decreases |cands|
  {
    if cands == [] then []
    else if cands[0].None? || key(cands[0].value) in seen then Records(cands[1..], key, seen, n)
    else [Record(RecordId(n), cands[0].value.input, cands[0].value.labels)] + Records(cands[1..], key, seen + {key(cands[0].value)}, n + 1)
  }

  /**
   * The records are the deduplicated items, in order, numbered without
   * gaps from `n`: record `j` is item `j` with id `a2_` and `n + j` in six
   * digits.
   */
  lemma {:induction false} RecordsNumbered(cands: seq<Option<Item>>, key: Item -> string, seen: set<string>, n: nat)
    ensures var rs := Records(cands, key, seen, n);
      var items := Uniq(cands, key, seen);
      |rs| == |items| &&
      forall j :: 0 <= j < |rs| ==> rs[j] == Record(RecordId(n + j), items[j].input, items[j].labels)
    decreases |cands|
  {
    if cands != [] {
      if cands[0].None? || key(cands[0].value) in seen {
        RecordsNumbered(cands[1..], key, seen, n);
      } else {
        var k := key(cands[0].value);
        RecordsNumbered(cands[1..], key, seen + {k}, n + 1);
        var rs := Records(cands, key, seen, n);
        var items := Uniq(cands, key, seen);
        forall j | 0 < j < |rs|
          ensures rs[j] == Record(RecordId(n + j), items[j].input, items[j].labels)
        {
          assert rs[j] == Records(cands[1..], key, seen + {k}, n + 1)[j - 1];
          assert items[j] == Uniq(cands[1..], key, seen + {k})[j - 1];
        }
      }
    }
  }

  /** `process` without the file I/O and the shuffle, with the split sizes given. */
  method Process(data: Json, sha256: string -> string, nTrain: nat, nVal: nat)
    returns (r: Result<(seq<Record>, seq<Record>, seq<Record>)>)
    ensures r.Err? <==> !data.JList?
    ensures r.Err? ==> r.error == ValueError("Raw dataset must be a JSON list of dictionaries.")
    ensures r.Ok? ==> r.value == Split(Records(Candidates(data.items, false), FingerprintOf(sha256), {}, 1), nTrain, nVal)
  {
    var raw := LoadRaw(data);
    if raw.Err? {
      return Err(raw.error);
    }
    var items := KeepFirst(raw.value, sha256);
    return Ok(Split(items, nTrain, nVal));
  }

  /** The loop of `process`: skip non-dicts and inputless rows, keep the first of each fingerprint, number it. */
  method KeepFirst(rows: seq<Json>, sha256: string -> string) returns (items: seq<Record>)
    ensures items == Records(Candidates(rows, false), FingerprintOf(sha256), {}, 1)
  {
    ghost var cands := Candidates(rows, false);
    ghost var key := FingerprintOf(sha256);
    items := [];
    var seen: set<string> := {};
    var nextId := 1;
    var i := 0;
    while i < |rows|
      invariant 0 <= i <= |rows| && nextId >= 1
      invariant items + Records(cands[i..], key, seen, nextId) == Records(cands, key, {}, 1)
    {
      assert cands[i..][1..] == cands[i + 1..];
      var row := rows[i];
      i := i + 1;
      if !row.JObj? {
        continue;
      }
      var canon := CanonizeRow(row.entries);
      var input, labels := BuildInputLabels(canon);
      if input.task == [] && input.context == [] {
        continue;
      }
      var fp := sha256(FingerprintText(input, labels));
      assert cands[i - 1] == Some(Item(input, labels)) && key(Item(input, labels)) == fp;
      if fp in seen {
        continue;
      }
      seen := seen + {fp};
      var rec := Record(RecordId(nextId), input, labels);
      AppendAssoc(items, [rec], Records(cands[i..], key, seen, nextId + 1));
      items := items + [rec];
      nextId := nextId + 1;
    }
    assert cands[i..] == [];
  }
}
