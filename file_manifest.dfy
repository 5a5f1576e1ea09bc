/*
 * The ingestion ledger: one record per document file, the manifest that holds
 * them between runs, and the three-way diff of a fresh scan against the last
 * published manifest. The SHA-256 digest is an opaque string here; reading
 * and writing the manifest file is reduced to its content.
 */
module FileManifest {
  import opened Common
  import opened PyJson

  /** One file's state at scan time; `path` is relative to the document root. */
  datatype Record = Record(path: string, sha256: string, mtime: real, size: int)

  /** A manifest value: the "files" list of records, or any other JSON value. */
  datatype MValue = MFiles(records: seq<Record>) | MJson(j: Json)

  type Manifest = map<string, MValue>

  predicate MTruthy(v: MValue)
  {
    match v
    case MFiles(rs) => rs != []
    case MJson(j) => Truthy(j)
  }

  predicate IsList(v: MValue)
  {
    v.MFiles? || v.j.JList?
  }

  /**
   * What the manifest path holds: nothing, text that is not JSON, or a parsed
   * JSON document. A parsed object is given as a manifest map; a "files"
   * list made of records is `MFiles`, any other "files" value stays JSON.
   */
  datatype Stored = Missing | NotJson | ParsedObject(data: Manifest) | ParsedOther(j: Json)

  /** The manifest a missing file stands for. */
  function EmptyManifest(): Manifest
  {
    map["version" := MJson(JStr("1")), "generated_at" := MJson(JStr("")), "files" := MFiles([])]
  }

  /**
   * `load_manifest`: a missing file gives the empty manifest; invalid JSON is a
   * ValueError; in a parsed object the absent keys are filled in and a "files"
   * value that is not a list is replaced by the empty list. Indexing or
   * assigning into a parsed value that is not an object fails with TypeError.
   */
  function LoadManifest(stored: Stored): (r: Result<Manifest>)
    ensures stored.Missing? ==> r == Ok(EmptyManifest())
    ensures stored.NotJson? ==> r.Err? && r.error.ValueError?
    ensures stored.ParsedOther? ==> r.Err? && r.error.TypeError?
    ensures stored.ParsedObject? ==> r.Ok?
    ensures r.Ok? ==>
      && "version" in r.value && "generated_at" in r.value && "files" in r.value
      && IsList(r.value["files"])
    ensures stored.ParsedObject? && r.Ok? ==>
      var d := stored.data;
      && r.value.Keys == d.Keys + {"version", "generated_at", "files"}
      && (forall k :: k in d && k != "files" ==> r.value[k] == d[k])
      && ("version" !in d ==> r.value["version"] == MJson(JStr("1")))
      && ("generated_at" !in d ==> r.value["generated_at"] == MJson(JStr("")))
      && ("files" in d && IsList(d["files"]) ==> r.value["files"] == d["files"])
      && (!("files" in d && IsList(d["files"])) ==> r.value["files"] == MFiles([]))
  {
    match stored
    case Missing => Ok(EmptyManifest())
    case NotJson => Err(ValueError("Manifest is not valid JSON"))
    case ParsedOther(_) => Err(TypeError("manifest is not a dict"))
    case ParsedObject(d) =>
      var d1 := if "version" !in d then d["version" := MJson(JStr("1"))] else d;
      var d2 := if "generated_at" !in d1 then d1["generated_at" := MJson(JStr(""))] else d1;
      var d3 := if "files" !in d2 || !IsList(d2["files"]) then d2["files" := MFiles([])] else d2;
      Ok(d3)
  }

  /**
   * `publish_atomic`'s stamp: "generated_at" is set to the clock's `now` when
   * it is missing or falsy; the JSON written is the stamped dict.
   */
  function Stamp(m: Manifest, now: string): (r: Manifest)
    requires now != ""
    ensures r.Keys == m.Keys + {"generated_at"}
    ensures MTruthy(r["generated_at"])
    ensures forall k :: k in m && k != "generated_at" ==> r[k] == m[k]
    ensures "generated_at" in m && MTruthy(m["generated_at"]) ==> r == m
    ensures !("generated_at" in m && MTruthy(m["generated_at"])) ==> r["generated_at"] == MJson(JStr(now))
  {
    if "generated_at" !in m || !MTruthy(m["generated_at"]) then m["generated_at" := MJson(JStr(now))] else m
  }

  /** Stamping an already stamped manifest changes nothing. */
  lemma StampIdempotent(m: Manifest, now: string, later: string)
    requires now != "" && later != ""
    ensures Stamp(Stamp(m, now), later) == Stamp(m, now)
  {
  }

  // ---------------------------------------------------------------------
  // Keying records by path, as the dict comprehension `{rec["path"]: rec}`
  // does: a path keeps the position of its first occurrence and the value of
  // its last.

  function Paths(d: seq<Record>): (ps: seq<string>)
    ensures |ps| == |d| && forall i :: 0 <= i < |d| ==> ps[i] == d[i].path
  {
    seq(|d|, i requires 0 <= i < |d| => d[i].path)
  }

  /** `d[r.path] = r` on a path-keyed dict. */
  function Put(d: seq<Record>, r: Record): seq<Record>
  {
    if d == [] then [r]
    else if d[0].path == r.path then [r] + d[1..]
    else [d[0]] + Put(d[1..], r)
  }

  lemma PathsCons(x: Record, d: seq<Record>)
    ensures Paths([x] + d) == [x.path] + Paths(d)
  {
  }

  /**
   * Putting a record under a path the dict has keeps the paths as they are
   * (the record takes the old one's place); under a new path it is appended.
   */
  lemma {:induction false} PutPaths(d: seq<Record>, r: Record)
    ensures r.path in Paths(d) ==> Paths(Put(d, r)) == Paths(d)
    ensures r.path !in Paths(d) ==> Put(d, r) == d + [r]
  {
    if d != [] {
      PathsCons(d[0], d[1..]);
      if d[0].path == r.path {
        PathsCons(r, d[1..]);
      } else {
        PutPaths(d[1..], r);
        PathsCons(d[0], Put(d[1..], r));
      }
    }
  }

  /** After `d[r.path] = r` the dict holds `r` and otherwise only records it held before. */
  lemma {:induction false} PutHolds(d: seq<Record>, r: Record)
    ensures r in Put(d, r)
    ensures forall x :: x in Put(d, r) ==> x == r || x in d
  {
    if d != [] && d[0].path != r.path {
      PutHolds(d[1..], r);
    }
  }

  /** The record a path-keyed dict holds for `p` (the first, in a dict the only one). */
  function Find(d: seq<Record>, p: string): (r: Option<Record>)
    ensures r.None? <==> p !in Paths(d)
    ensures r.Some? ==> r.value in d && r.value.path == p
  {
    if d == [] then None
    else if d[0].path == p then Some(d[0])
    else
      assert Paths(d) == [d[0].path] + Paths(d[1..]);
      Find(d[1..], p)
  }

  lemma {:induction false} FindPut(d: seq<Record>, r: Record, p: string)
    ensures Find(Put(d, r), p) == if p == r.path then Some(r) else Find(d, p)
  {
    if d != [] && d[0].path != r.path {
      FindPut(d[1..], r, p);
    }
  }

  lemma {:induction false} PutDistinct(d: seq<Record>, r: Record)
    requires Distinct(Paths(d))
    ensures Distinct(Paths(Put(d, r)))
  {
    var e := Put(d, r);
    PutPaths(d, r);
    if r.path !in Paths(d) {
      assert Paths(e) == Paths(d) + [r.path];
    }
  }

  function ByPath(recs: seq<Record>): (d: seq<Record>)
    ensures Distinct(Paths(d))
  {
    if recs == [] then []
    else
      var d0 := ByPath(recs[..|recs| - 1]);
      PutDistinct(d0, recs[|recs| - 1]);
      Put(d0, recs[|recs| - 1])
  }

  /** The last record of `recs` whose path is `p`. */
  function LastWithPath(recs: seq<Record>, p: string): Option<Record>
  {
    if recs == [] then None
    else if recs[|recs| - 1].path == p then Some(recs[|recs| - 1])
    else LastWithPath(recs[..|recs| - 1], p)
  }

  /** When a path repeats, the last record for it is the one kept. */
  lemma {:induction false} ByPathLastWins(recs: seq<Record>, p: string)
    ensures Find(ByPath(recs), p) == LastWithPath(recs, p)
  {
    if recs != [] {
      var n := |recs|;
      ByPathLastWins(recs[..n - 1], p);
      FindPut(ByPath(recs[..n - 1]), recs[n - 1], p);
    }
  }

  lemma {:induction false} LastWithPathFound(recs: seq<Record>, p: string)
    ensures LastWithPath(recs, p).Some? <==> p in Paths(recs)
  {
    if recs != [] {
      var n := |recs|;
      LastWithPathFound(recs[..n - 1], p);
      assert Paths(recs) == Paths(recs[..n - 1]) + [recs[n - 1].path];
    }
  }

  /** The keyed dict has exactly the paths of the input. */
  lemma ByPathPaths(recs: seq<Record>, p: string)
    ensures p in Paths(ByPath(recs)) <==> p in Paths(recs)
  {
    ByPathLastWins(recs, p);
    LastWithPathFound(recs, p);
  }

  // ---------------------------------------------------------------------
  // The diff.

  /** The previous manifest as `diff` receives it. */
  datatype PrevManifest = NotADict | Dict(m: Manifest)

  function PrevFiles(prev: PrevManifest): seq<Record>
  {
    if prev.Dict? && "files" in prev.m && prev.m["files"].MFiles? then prev.m["files"].records else []
  }

  /**
   * Where `rec["path"]` fails on one item of the previous "files": an item
   * that is not a dict cannot be indexed by a str (TypeError), a dict
   * without "path" raises KeyError, and a list or dict under "path" cannot
   * key the comprehension's dict (TypeError: unhashable).
   */
  function ItemError(x: Json): (r: Option<Error>)
    ensures r.None? <==> x.JObj? && Lookup(x.entries, "path").Some? && !Lookup(x.entries, "path").value.JList?
                         && !Lookup(x.entries, "path").value.JObj?
  {
    if x.JStr? then Some(TypeError("string indices must be integers, not 'str'"))
    else if x.JList? then Some(TypeError("list indices must be integers or slices, not str"))
    else if !x.JObj? then Some(TypeError("'" + TypeName(x) + "' object is not subscriptable"))
    else
      match Lookup(x.entries, "path")
      case None => Some(KeyError("path"))
      case Some(p) =>
        if p.JList? || p.JObj? then Some(TypeError("unhashable type: '" + TypeName(p) + "'")) else None
  }

  /** The position of the first item the comprehension fails on, if any. */
  function FirstBad(items: seq<Json>): (r: Option<nat>)
    ensures r.None? <==> forall i :: 0 <= i < |items| ==> ItemError(items[i]).None?
    ensures r.Some? ==> r.value < |items| && ItemError(items[r.value]).Some?
                        && forall j :: 0 <= j < r.value ==> ItemError(items[j]).None?
  {
    if items == [] then None
    else if ItemError(items[0]).Some? then Some(0)
    else
      var rest := FirstBad(items[1..]);
      assert forall i :: 1 <= i < |items| ==> items[i] == items[1..][i - 1];
      if rest.Some? then Some(rest.value + 1) else None
  }

  /**
   * The previous records as `diff` reads them with
   * `{rec["path"]: rec for rec in prev_files}`, or the error that reading
   * raises. A non-dict previous manifest and a missing "files" give no
   * records; a value that is not iterable raises TypeError; an iterable
   * held as JSON fails at its first bad item. A JSON list whose items all
   * pass the comprehension is not modelled: it is reported as a TypeError,
   * where `diff` goes on with those items.
   */
  function PrevFilesRead(prev: PrevManifest): (r: Result<seq<Record>>)
    ensures r.Ok? ==> r.value == PrevFiles(prev)
    ensures !prev.Dict? || "files" !in prev.m || prev.m["files"].MFiles? ==> r.Ok?
    ensures prev.Dict? && "files" in prev.m && prev.m["files"].MJson? && prev.m["files"].j.JList? ==>
      var items := prev.m["files"].j.items;
      && (r.Ok? <==> items == [])
      && (FirstBad(items).Some? ==> r == Err(ItemError(items[FirstBad(items).value]).value))
  {
    if !prev.Dict? || "files" !in prev.m then Ok([])
    else
      match prev.m["files"]
      case MFiles(rs) => Ok(rs)
      case MJson(j) =>
        var items := Iter(j);
        if items.Err? then Err(items.error)
        else
          var bad := FirstBad(items.value);
          if bad.Some? then Err(ItemError(items.value[bad.value]).value)
          else if items.value == [] then Ok([])
          else Err(TypeError("previous file entries are not records"))
  }

  /** New to the previous manifest, or present there with a different digest. */
  predicate NewOrChanged(r: Record, prevD: seq<Record>)
  {
    var was := Find(prevD, r.path);
    was.None? || was.value.sha256 != r.sha256
  }

  /** The scanned records `diff` sends to processing, in scan order. */
  function ToProcessOf(nowD: seq<Record>, prevD: seq<Record>): (r: seq<Record>)
    ensures forall x :: x in r <==> x in nowD && NewOrChanged(x, prevD)
  {
    if nowD == [] then []
    else
      var n := |nowD|;
      var rest := ToProcessOf(nowD[..n - 1], prevD);
      assert nowD == nowD[..n - 1] + [nowD[n - 1]];
      if NewOrChanged(nowD[n - 1], prevD) then rest + [nowD[n - 1]] else rest
  }

  /** The scanned records `diff` reports unchanged, in scan order. */
  function UnchangedOf(nowD: seq<Record>, prevD: seq<Record>): (r: seq<Record>)
    ensures forall x :: x in r <==> x in nowD && !NewOrChanged(x, prevD)
  {
    if nowD == [] then []
    else
      var n := |nowD|;
      var rest := UnchangedOf(nowD[..n - 1], prevD);
      assert nowD == nowD[..n - 1] + [nowD[n - 1]];
      if NewOrChanged(nowD[n - 1], prevD) then rest else rest + [nowD[n - 1]]
  }

  /** The previous records whose path the scan no longer has. */
  function TombstonesOf(prevD: seq<Record>, nowD: seq<Record>): (r: seq<Record>)
    ensures forall x :: x in r <==> x in prevD && Find(nowD, x.path).None?
  {
    if prevD == [] then []
    else
      var n := |prevD|;
      var rest := TombstonesOf(prevD[..n - 1], nowD);
      assert prevD == prevD[..n - 1] + [prevD[n - 1]];
      if Find(nowD, prevD[n - 1].path).None? then rest + [prevD[n - 1]] else rest
  }

  lemma {:induction false} ClassifySplits(nowD: seq<Record>, prevD: seq<Record>)
    ensures multiset(ToProcessOf(nowD, prevD)) + multiset(UnchangedOf(nowD, prevD)) == multiset(nowD)
  {
    if nowD != [] {
      var n := |nowD|;
      ClassifySplits(nowD[..n - 1], prevD);
      assert nowD == nowD[..n - 1] + [nowD[n - 1]];
    }
  }

  datatype Diffed = Diffed(toProcess: seq<Record>, unchangedRecs: seq<Record>, tombstones: seq<Record>)

  function DiffSpec(recordsNow: seq<Record>, prev: PrevManifest): Diffed
  {
    var nowD := ByPath(recordsNow);
    var prevD := ByPath(PrevFiles(prev));
    Diffed(ToProcessOf(nowD, prevD), UnchangedOf(nowD, prevD), TombstonesOf(prevD, nowD))
  }

  /** `diff(records_now, manifest_prev)`, loop by loop. */
  method Diff(recordsNow: seq<Record>, prev: PrevManifest) returns (r: Result<Diffed>)
    ensures r.Err? <==> PrevFilesRead(prev).Err?
    ensures r.Err? ==> r.error == PrevFilesRead(prev).error
    ensures r.Ok? ==> r.value == DiffSpec(recordsNow, prev)
  {
    var prevFiles := PrevFilesRead(prev);
    if prevFiles.Err? {
      return Err(prevFiles.error);
    }
    var prevByPath := KeyByPath(prevFiles.value);
    var nowByPath := KeyByPath(recordsNow);
    var toProcess, unchangedRecs := ClassifyScan(nowByPath, prevByPath);
    var tombstones := CollectTombstones(prevByPath, nowByPath);
    return Ok(Diffed(toProcess, unchangedRecs, tombstones));
  }

  /** The first loop of `diff`: each scanned record against the previous one at its path. */
  method ClassifyScan(nowByPath: seq<Record>, prevByPath: seq<Record>) returns (toProcess: seq<Record>, unchangedRecs: seq<Record>)
    ensures toProcess == ToProcessOf(nowByPath, prevByPath)
    ensures unchangedRecs == UnchangedOf(nowByPath, prevByPath)
  {
    toProcess, unchangedRecs := [], [];
    var i := 0;
    while i < |nowByPath|
      invariant 0 <= i <= |nowByPath|
      invariant toProcess == ToProcessOf(nowByPath[..i], prevByPath)
      invariant unchangedRecs == UnchangedOf(nowByPath[..i], prevByPath)
    {
      var nowRec := nowByPath[i];
      var prevRec := Find(prevByPath, nowRec.path);
      ClassifyStep(nowByPath, prevByPath, i);
      if prevRec.None? {
        toProcess := toProcess + [nowRec];
      } else if prevRec.value.sha256 != nowRec.sha256 {
        toProcess := toProcess + [nowRec];
      } else {
        unchangedRecs := unchangedRecs + [nowRec];
      }
      i := i + 1;
    }
    assert nowByPath[..i] == nowByPath;
  }

  lemma ClassifyStep(nowD: seq<Record>, prevD: seq<Record>, i: nat)
    requires i < |nowD|
    ensures ToProcessOf(nowD[..i + 1], prevD)
      == if NewOrChanged(nowD[i], prevD) then ToProcessOf(nowD[..i], prevD) + [nowD[i]] else ToProcessOf(nowD[..i], prevD)
    ensures UnchangedOf(nowD[..i + 1], prevD)
      == if NewOrChanged(nowD[i], prevD) then UnchangedOf(nowD[..i], prevD) else UnchangedOf(nowD[..i], prevD) + [nowD[i]]
  {
    assert nowD[..i + 1][..i] == nowD[..i];
  }

  /** The second loop of `diff`: the previous records whose path is not scanned now. */
  method CollectTombstones(prevByPath: seq<Record>, nowByPath: seq<Record>) returns (tombstones: seq<Record>)
    ensures tombstones == TombstonesOf(prevByPath, nowByPath)
  {
    tombstones := [];
    var j := 0;
    while j < |prevByPath|
      invariant 0 <= j <= |prevByPath|
      invariant tombstones == TombstonesOf(prevByPath[..j], nowByPath)
    {
      var prevRec := prevByPath[j];
      TombstoneStep(prevByPath, nowByPath, j);
      if Find(nowByPath, prevRec.path).None? {
        tombstones := tombstones + [prevRec];
      }
      j := j + 1;
    }
    assert prevByPath[..j] == prevByPath;
  }

  lemma TombstoneStep(prevD: seq<Record>, nowD: seq<Record>, j: nat)
    requires j < |prevD|
    ensures TombstonesOf(prevD[..j + 1], nowD)
      == if Find(nowD, prevD[j].path).None? then TombstonesOf(prevD[..j], nowD) + [prevD[j]] else TombstonesOf(prevD[..j], nowD)
  {
    assert prevD[..j + 1][..j] == prevD[..j];
  }

  /** The dict comprehension `{rec["path"]: rec for rec in recs}`. */
  method KeyByPath(recs: seq<Record>) returns (d: seq<Record>)
    ensures d == ByPath(recs)
  {
    d := [];
    var i := 0;
    while i < |recs|
      invariant 0 <= i <= |recs|
      invariant d == ByPath(recs[..i])
    {
      assert recs[..i + 1][..i] == recs[..i];
      d := Put(d, recs[i]);
      i := i + 1;
    }
    assert recs[..i] == recs;
  }

  /**
   * Every scanned path lands in exactly one of to_process and unchanged, the
   * two together are the path-keyed scan, and no tombstone has a scanned path.
   */
  lemma DiffPartition(recordsNow: seq<Record>, prev: PrevManifest)
    ensures var d := DiffSpec(recordsNow, prev);
      && multiset(d.toProcess) + multiset(d.unchangedRecs) == multiset(ByPath(recordsNow))
      && (forall r :: r in ByPath(recordsNow) ==> (r in d.toProcess <==> r !in d.unchangedRecs))
      && (forall t :: t in d.tombstones ==> t.path !in Paths(recordsNow))
  {
    ClassifySplits(ByPath(recordsNow), ByPath(PrevFiles(prev)));
    forall t | t in DiffSpec(recordsNow, prev).tombstones
      ensures t.path !in Paths(recordsNow)
    {
      ByPathPaths(recordsNow, t.path);
    }
  }

  /**
   * A scanned path goes to to_process when the previous manifest lacks it or
   * holds another digest for it (the last record per path on both sides);
   * otherwise it is unchanged.
   */
  lemma DiffClassifies(recordsNow: seq<Record>, prev: PrevManifest, p: string)
    requires p in Paths(recordsNow)
    ensures LastWithPath(recordsNow, p).Some?
    ensures var d := DiffSpec(recordsNow, prev);
      var now := LastWithPath(recordsNow, p).value;
      var was := LastWithPath(PrevFiles(prev), p);
      && (was.None? || was.value.sha256 != now.sha256 ==> now in d.toProcess && now !in d.unchangedRecs)
      && (was.Some? && was.value.sha256 == now.sha256 ==> now in d.unchangedRecs && now !in d.toProcess)
  {
    LastWithPathFound(recordsNow, p);
    ByPathLastWins(recordsNow, p);
    ByPathLastWins(PrevFiles(prev), p);
  }

  /** tombstones are exactly the previous records whose path is not scanned now. */
  lemma TombstonesExact(recordsNow: seq<Record>, prev: PrevManifest, t: Record)
    ensures t in DiffSpec(recordsNow, prev).tombstones <==>
      t in ByPath(PrevFiles(prev)) && t.path !in Paths(recordsNow)
  {
    ByPathPaths(recordsNow, t.path);
  }

  /** A previous manifest that is not a dict counts as empty. */
  lemma NonDictIsEmpty(recordsNow: seq<Record>)
    ensures DiffSpec(recordsNow, NotADict) == Diffed(ByPath(recordsNow), [], [])
  {
    AllNew(ByPath(recordsNow));
  }

  lemma {:induction false} AllNew(nowD: seq<Record>)
    ensures ToProcessOf(nowD, []) == nowD && UnchangedOf(nowD, []) == []
  {
    if nowD != [] {
      AllNew(nowD[..|nowD| - 1]);
      assert nowD == nowD[..|nowD| - 1] + [nowD[|nowD| - 1]];
    }
  }

  /** In a path-keyed dict a record is what its own path finds. */
  lemma FindDistinct(d: seq<Record>, x: Record)
    requires Distinct(Paths(d)) && x in d
    ensures Find(d, x.path) == Some(x)
  {
    var i :| 0 <= i < |d| && d[i] == x;
    var y := Find(d, x.path).value;
    var j :| 0 <= j < |d| && d[j] == y;
    assert Paths(d)[i] == Paths(d)[j];
  }

  /**
   * Diffing a scan against a manifest that lists exactly that scan finds
   * nothing to process and nothing to tombstone: an unchanged tree costs no
   * work on the next run.
   */
  lemma RediffIsEmpty(recordsNow: seq<Record>, prev: PrevManifest)
    requires PrevFiles(prev) == recordsNow
    ensures var d := DiffSpec(recordsNow, prev);
      d.toProcess == [] && d.tombstones == [] && d.unchangedRecs == ByPath(recordsNow)
  {
    var nowD := ByPath(recordsNow);
    var d := DiffSpec(recordsNow, prev);
    forall x | x in nowD
      ensures !NewOrChanged(x, nowD) && Find(nowD, x.path).Some?
    {
      FindDistinct(nowD, x);
    }
    UnchangedAll(nowD, nowD);
    NothingToProcess(nowD, nowD);
    NoTombstones(nowD, nowD);
  }

  lemma {:induction false} NothingToProcess(nowD: seq<Record>, prevD: seq<Record>)
    requires forall x :: x in nowD ==> !NewOrChanged(x, prevD)
    ensures ToProcessOf(nowD, prevD) == []
  {
    if nowD != [] {
      var n := |nowD|;
      assert nowD[n - 1] in nowD;
      NothingToProcess(nowD[..n - 1], prevD);
    }
  }

  lemma {:induction false} NoTombstones(prevD: seq<Record>, nowD: seq<Record>)
    requires forall x :: x in prevD ==> Find(nowD, x.path).Some?
    ensures TombstonesOf(prevD, nowD) == []
  {
    if prevD != [] {
      var n := |prevD|;
      assert prevD[n - 1] in prevD;
      NoTombstones(prevD[..n - 1], nowD);
    }
  }

  lemma {:induction false} UnchangedAll(nowD: seq<Record>, prevD: seq<Record>)
    requires forall x :: x in nowD ==> !NewOrChanged(x, prevD)
    ensures UnchangedOf(nowD, prevD) == nowD
  {
    if nowD != [] {
      var n := |nowD|;
      assert nowD == nowD[..n - 1] + [nowD[n - 1]];
      UnchangedAll(nowD[..n - 1], prevD);
    }
  }
}
