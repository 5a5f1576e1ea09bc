/*
 * One ingestion run: scan → diff against the manifest → chunk → embed →
 * store → publish. The loader's output (relative path, text, and the
 * file's digest and stat), the embedder, the clock and the store's
 * persisted collection are inputs; the published manifest is the value the
 * run would write.
 */
module Ingestion {
  import opened Common
  import opened PyJson
  import opened FileManifest
  import opened Chunker
  import opened ChromaStore

  /** A loaded document with what hashing and `stat` report for its file. */
  datatype Doc = Doc(relPath: string, text: string, sha256: string, mtime: real, size: int)

  datatype IngestionStats = IngestionStats(
    filesScanned: nat,
    toProcess: nat,
    unchangedFiles: nat,
    tombstones: nat,
    chunksAdded: nat,
    vectorsUpserted: nat,
    deletedOldVersions: nat,
    deletedTombstones: nat,
    publishedManifestPath: string,
    embeddedBytes: nat)

  /** An `IngestionManager`: the resolved document root. */
  datatype Manager = Manager(docRoot: string)

  /** `IngestionManager(doc_root)`: the root must exist and be a directory. */
  function NewManager(docRoot: string, rootExists: bool, rootIsDir: bool): (r: Result<Manager>)
    ensures r.Ok? <==> rootExists && rootIsDir
    ensures !rootExists ==> r.Err? && r.error.FileNotFoundError?
    ensures rootExists && !rootIsDir ==> r.Err? && r.error.NotADirectoryError?
    ensures r.Ok? ==> r.value.docRoot == docRoot
  {
    if !rootExists then Err(FileNotFoundError(docRoot))
    else if !rootIsDir then Err(NotADirectoryError(docRoot))
    else Ok(Manager(docRoot))
  }

  /** The manifest record built for a scanned document. */
  function RecordsOf(docs: seq<Doc>): (rs: seq<Record>)
    ensures |rs| == |docs|
    ensures forall i :: 0 <= i < |docs| ==> rs[i] == Record(docs[i].relPath, docs[i].sha256, docs[i].mtime, docs[i].size)
  {
    seq(|docs|, i requires 0 <= i < |docs| => Record(docs[i].relPath, docs[i].sha256, docs[i].mtime, docs[i].size))
  }

  /** `text_by_abs.get(...)`: the text of the last loaded document with that path. */
  function TextFor(docs: seq<Doc>, relPath: string): (t: Option<string>)
    ensures t.None? <==> forall i :: 0 <= i < |docs| ==> docs[i].relPath != relPath
    ensures t.Some? ==> exists i :: 0 <= i < |docs| && docs[i].relPath == relPath && docs[i].text == t.value
  {
    if docs == [] then None
    else
      var n := |docs|;
      if docs[n - 1].relPath == relPath then Some(docs[n - 1].text) else TextFor(docs[..n - 1], relPath)
  }

  function AbsPath(root: string, relPath: string): string
  {
    root + "/" + relPath
  }

  /** The metadata of chunk `idx` of a file version. */
  function ChunkMeta(relPath: string, sha256: string, idx: nat, mtime: real): Meta
  {
    map["path" := SStr(relPath), "sha256" := SStr(sha256), "chunk_idx" := SInt(idx), "mtime" := SReal(mtime)]
  }

  datatype Batch = Batch(texts: seq<string>, ids: seq<string>, metas: seq<Meta>)

  /**
   * The texts, ids and metadatas collected from the first `n` chunks of one
   * file. A chunk is skipped when `chunk_txt.strip()` is empty, that is when
   * it is all whitespace (`StripEmptyIff`).
   */
  function BatchOf(chunks: seq<(string, string)>, rec: Record, n: nat): (b: Batch)
    requires n <= |chunks|
    ensures |b.texts| == |b.ids| == |b.metas| <= n
  {
    if n == 0 then Batch([], [], [])
    else
      var b := BatchOf(chunks, rec, n - 1);
      var t := chunks[n - 1].1;
      if AllSpace(t) then b
      else Batch(b.texts + [t], b.ids + [MakeChunkId(rec.path, rec.sha256, n - 1)],
                 b.metas + [ChunkMeta(rec.path, rec.sha256, n - 1, rec.mtime)])
  }

  /** What one run is given besides the store and the manifest. */
  datatype Env = Env(
    root: string,
    docs: seq<Doc>,
    readText: string -> string,
    embed: seq<string> -> seq<Vec>,
    chunkSize: int,
    overlap: int,
    deleteOldVersions: bool)

  predicate ValidSizes(env: Env)
  {
    env.chunkSize > 0 && env.overlap >= 0 && env.overlap < env.chunkSize
  }

  /** The text chunked for a record: the loader's, or the file read again. */
  function TextOf(env: Env, rec: Record): string
  {
    var t := TextFor(env.docs, rec.path);
    if t.Some? then t.value else env.readText(AbsPath(env.root, rec.path))
  }

  function ChunksOf(env: Env, rec: Record): seq<(string, string)>
    requires ValidSizes(env)
  {
    Chunks(AbsPath(env.root, rec.path), TextOf(env, rec), env.chunkSize, env.chunkSize - env.overlap)
  }

  /** The counters and the collection as the run goes. */
  datatype Progress = Progress(col: Collection, chunks: nat, upserts: nat, deletedOld: nat, bytes: nat)

  /** `prev_by_path[rel_path]["sha256"]`, when old versions are to be deleted and it differs. */
  function OldSha(env: Env, prevD: seq<Record>, rec: Record): Option<string>
  {
    var was := Find(prevD, rec.path);
    if env.deleteOldVersions && was.Some? && was.value.sha256 != rec.sha256 then Some(was.value.sha256) else None
  }

  function Utf8Sum(texts: seq<string>): nat
  {
    if texts == [] then 0 else Utf8Len(texts[0]) + Utf8Sum(texts[1..])
  }

  /** Deleting the old version of a file, when there is one to delete. */
  function DeleteStep(p: Progress, rec: Record, oldSha: Option<string>): (q: Progress)
    ensures q.chunks == p.chunks && q.upserts == p.upserts && q.bytes == p.bytes
    ensures oldSha.None? ==> q == p
  {
    if oldSha.None? then p
    else
      var gone := MatchingIds(p.col, FileFilter(rec.path, oldSha.value));
      p.(col := p.col - gone, deletedOld := p.deletedOld + |gone|)
  }

  /** `store.add(ids, vecs, metas)` and the two counters that follow it. */
  function UpsertStep(p: Progress, b: Batch, vecs: seq<Vec>): (Progress, Option<Error>)
  {
    var guard := AddGuard(b.ids, vecs, Some(b.metas));
    if guard.Some? then (p, guard)
    else
      var col := if b.ids == [] || vecs == [] then p.col else Upserted(p.col, b.ids, vecs, Some(b.metas));
      (p.(col := col, chunks := p.chunks + |b.texts|, upserts := p.upserts + |b.ids|), None)
  }

  /** The rest of an iteration once the chunks are collected. */
  function BatchStep(p: Progress, env: Env, prevD: seq<Record>, rec: Record, b: Batch): (Progress, Option<Error>)
  {
    if b.texts == [] then (p, None)
    else
      var p1 := DeleteStep(p, rec, OldSha(env, prevD, rec));
      UpsertStep(p1.(bytes := p1.bytes + Utf8Sum(b.texts)), b, env.embed(b.texts))
  }

  /**
   * One iteration of the processing loop: chunk; skip a file without chunks;
   * delete the old version; embed and upsert. An error leaves the collection
   * as it was when the error was raised.
   */
  function FileStep(p: Progress, env: Env, prevD: seq<Record>, rec: Record): (Progress, Option<Error>)
  {
    if !ValidSizes(env) then (p, SizeError(env.chunkSize, env.overlap))
    else
      var chunks := ChunksOf(env, rec);
      BatchStep(p, env, prevD, rec, BatchOf(chunks, rec, |chunks|))
  }

  /** The processing loop over `recs`, stopping at the first error. */
  function ProcessFiles(p: Progress, env: Env, prevD: seq<Record>, recs: seq<Record>): (Progress, Option<Error>)
    decreases |recs|
  {
    if recs == [] then (p, None)
    else
      var r := FileStep(p, env, prevD, recs[0]);
      if r.1.Some? then r else ProcessFiles(r.0, env, prevD, recs[1..])
  }

  /** The ids `delete_where` removes for one file version. */
  function VersionIds(col: Collection, t: Record): (ids: set<string>)
    ensures ids <= col.Keys
  {
    MatchingIds(col, FileFilter(t.path, t.sha256))
  }

  /** The collection after the tombstone loop has run over the first `n` tombstones. */
  function Tombed(col: Collection, tombs: seq<Record>, n: nat): Collection
    requires n <= |tombs|
  {
    if n == 0 then col
    else
      var c := Tombed(col, tombs, n - 1);
      c - VersionIds(c, tombs[n - 1])
  }

  /** `deleted_tombstones` after the first `n` tombstones. */
  function TombCount(col: Collection, tombs: seq<Record>, n: nat): nat
    requires n <= |tombs|
  {
    if n == 0 then 0
    else TombCount(col, tombs, n - 1) + |VersionIds(Tombed(col, tombs, n - 1), tombs[n - 1])|
  }

  /** The manifest `run` publishes, before the stamp. */
  function NewManifest(recordsNow: seq<Record>): Manifest
  {
    map["version" := MJson(JStr("1")), "generated_at" := MJson(JStr("")), "files" := MFiles(recordsNow)]
  }

  /** `_count_ids(store, rel_path, sha256)`. */
  method CountIds(store: VectorStoreChroma, relPath: string, sha256: string) returns (n: nat)
    ensures n == |MatchingIds(store.col, FileFilter(relPath, sha256))|
  {
    n := |MatchingIds(store.col, FileFilter(relPath, sha256))|;
  }

  /** The ids and metadatas of one file's chunks, skipping blank ones. */
  method CollectBatch(chunks: seq<(string, string)>, rec: Record) returns (b: Batch)
    ensures b == BatchOf(chunks, rec, |chunks|)
  {
    var texts: seq<string> := [];
    var ids: seq<string> := [];
    var metas: seq<Meta> := [];
    var idx := 0;
    while idx < |chunks|
      invariant 0 <= idx <= |chunks|
      invariant Batch(texts, ids, metas) == BatchOf(chunks, rec, idx)
    {
      var chunkTxt := chunks[idx].1;
      StripEmptyIff(chunkTxt);
      if Strip(chunkTxt) != [] {
        texts := texts + [chunkTxt];
        ids := ids + [MakeChunkId(rec.path, rec.sha256, idx)];
        metas := metas + [ChunkMeta(rec.path, rec.sha256, idx, rec.mtime)];
      }
      idx := idx + 1;
    }
    b := Batch(texts, ids, metas);
  }

  /** `sum(len(s.encode("utf-8")) for s in chunk_texts)`. */
  method SumUtf8(texts: seq<string>) returns (total: nat)
    ensures total == Utf8Sum(texts)
  {
    total := 0;
    var i := 0;
    while i < |texts|
      invariant 0 <= i <= |texts|
      invariant total + Utf8Sum(texts[i..]) == Utf8Sum(texts)
    {
      assert texts[i..][1..] == texts[i + 1..];
      total := total + Utf8Len(texts[i]);
      i := i + 1;
    }
  }

  /** One pass of the loop over `to_process`. */
  method ProcessFile(store: VectorStoreChroma, env: Env, prevD: seq<Record>, rec: Record, p: Progress)
    returns (q: Progress, err: Option<Error>)
    requires store.col == p.col
    modifies store
    ensures (q, err) == FileStep(p, env, prevD, rec)
    ensures store.col == q.col
  {
    var absPath := AbsPath(env.root, rec.path);
    var found := TextFor(env.docs, rec.path);
    var text := if found.Some? then found.value else env.readText(absPath);
    var split := Split(absPath, text, env.chunkSize, env.overlap);
    if split.Err? {
      return p, Some(split.error);
    }
    var chunks := split.value;
    assert chunks == ChunksOf(env, rec);
    var b := CollectBatch(chunks, rec);
    q, err := ProcessBatch(store, env, prevD, rec, p, b);
  }

  /** The part of an iteration after the chunks are collected. */
  method ProcessBatch(store: VectorStoreChroma, env: Env, prevD: seq<Record>, rec: Record, p: Progress, b: Batch)
    returns (q: Progress, err: Option<Error>)
    requires store.col == p.col
    modifies store
    ensures (q, err) == BatchStep(p, env, prevD, rec, b)
    ensures store.col == q.col
  {
    if b.texts == [] {
      return p, None;
    }
    var p1 := DeleteOldVersion(store, rec, OldSha(env, prevD, rec), p);
    var bytes := SumUtf8(b.texts);
    var vecs := env.embed(b.texts);
    var p2 := p1.(bytes := p1.bytes + bytes);
    err := store.Add(b.ids, vecs, Some(b.metas));
    if err.Some? {
      return p2, err;
    }
    q := p2.(col := store.col, chunks := p2.chunks + |b.texts|, upserts := p2.upserts + |b.ids|);
  }

  /** The optional old-version delete, counted as `before - after`. */
  method DeleteOldVersion(store: VectorStoreChroma, rec: Record, oldSha: Option<string>, p: Progress) returns (q: Progress)
    requires store.col == p.col
    modifies store
    ensures q == DeleteStep(p, rec, oldSha)
    ensures store.col == q.col
  {
    if oldSha.None? {
      return p;
    }
    var deleted := DeleteVersion(store, rec.path, oldSha.value);
    q := p.(col := store.col, deletedOld := p.deletedOld + deleted);
  }

  /**
   * `_count_ids` before and after `delete_where` on one file version: the
   * number of ids the delete removed.
   */
  method DeleteVersion(store: VectorStoreChroma, relPath: string, sha256: string) returns (n: nat)
    modifies store
    ensures n == |MatchingIds(old(store.col), FileFilter(relPath, sha256))|
    ensures store.col == old(store.col) - MatchingIds(old(store.col), FileFilter(relPath, sha256))
  {
    var f := FileFilter(relPath, sha256);
    assert "path" in f;
    var before := CountIds(store, relPath, sha256);
    store.DeleteWhere(f);
    var after := CountIds(store, relPath, sha256);
    DeleteLeavesNoMatch(old(store.col), f);
    n := if before - after > 0 then before - after else 0;
  }

  /** The loop over `to_process`, stopping at the first error. */
  method ProcessAll(store: VectorStoreChroma, env: Env, prevD: seq<Record>, recs: seq<Record>, p0: Progress)
    returns (p: Progress, err: Option<Error>)
    requires store.col == p0.col
    modifies store
    ensures (p, err) == ProcessFiles(p0, env, prevD, recs)
    ensures store.col == p.col
  {
    p := p0;
    var i := 0;
    while i < |recs|
      invariant 0 <= i <= |recs|
      invariant ProcessFiles(p0, env, prevD, recs) == ProcessFiles(p, env, prevD, recs[i..])
      invariant store.col == p.col
    {
      var q, e := ProcessFile(store, env, prevD, recs[i], p);
      assert recs[i..][1..] == recs[i + 1..];
      if e.Some? {
        return q, e;
      }
      p := q;
      i := i + 1;
    }
    err := None;
  }

  /** The tombstone loop: every tombstoned file version deleted, and the ids removed counted. */
  method DeleteTombstones(store: VectorStoreChroma, tombs: seq<Record>) returns (n: nat)
    modifies store
    ensures store.col == Tombed(old(store.col), tombs, |tombs|)
    ensures n == TombCount(old(store.col), tombs, |tombs|)
  {
    ghost var col0 := store.col;
    n := 0;
    var j := 0;
    while j < |tombs|
      invariant 0 <= j <= |tombs|
      invariant store.col == Tombed(col0, tombs, j)
      invariant n == TombCount(col0, tombs, j)
    {
      ghost var before := store.col;
      var k := DeleteVersion(store, tombs[j].path, tombs[j].sha256);
      TombStep(col0, tombs, j, before, store.col, k);
      n := n + k;
      j := j + 1;
    }
  }

  /** One more tombstone: its version's ids removed and counted. */
  lemma TombStep(col: Collection, tombs: seq<Record>, j: nat, before: Collection, after: Collection, k: nat)
    requires j < |tombs| && before == Tombed(col, tombs, j)
    requires after == before - VersionIds(before, tombs[j]) && k == |VersionIds(before, tombs[j])|
    ensures after == Tombed(col, tombs, j + 1)
    ensures TombCount(col, tombs, j) + k == TombCount(col, tombs, j + 1)
  {
  }

  /**
   * `IngestionManager.run`: on success the statistics and the manifest it
   * publishes; on failure nothing is published, and the collection keeps
   * whatever the files processed before the error (and the failing file's
   * old-version delete) did to it.
   */
  method Run(mgr: Manager, docs: seq<Doc>, store: VectorStoreChroma, stored: Stored, manifestPath: string, now: string,
             readText: string -> string, embed: seq<string> -> seq<Vec>,
             chunkSize: int, overlap: int, deleteOldVersions: bool, deleteTombstones: bool)
    returns (r: Result<(IngestionStats, Manifest)>)
    requires now != ""
    modifies store
    ensures var spec := RunSpec(mgr, docs, old(store.col), stored, chunkSize, overlap, readText, embed, deleteOldVersions, deleteTombstones);
      && (r.Err? <==> spec.Err?)
      && (r.Err? ==> r.error == spec.error)
      && (r.Ok? ==> r.value.0 == spec.value.0.(publishedManifestPath := manifestPath)
                    && r.value.1 == Stamp(NewManifest(RecordsOf(docs)), now))
    ensures store.col == RunCol(mgr, docs, old(store.col), stored, chunkSize, overlap, readText, embed, deleteOldVersions, deleteTombstones)
  {
    var env := Env(mgr.docRoot, docs, readText, embed, chunkSize, overlap, deleteOldVersions);
    var recordsNow := RecordsOf(docs);
    var loaded := LoadManifest(stored);
    if loaded.Err? {
      return Err(loaded.error);
    }
    var manifestPrev := loaded.value;
    var diffed := Diff(recordsNow, Dict(manifestPrev));
    if diffed.Err? {
      return Err(diffed.error);
    }
    var toProcess, unchangedRecs, tombstones := diffed.value.toProcess, diffed.value.unchangedRecs, diffed.value.tombstones;
    var prevD := KeyByPath(PrevFiles(Dict(manifestPrev)));
    var p, err := ProcessAll(store, env, prevD, toProcess, Progress(store.col, 0, 0, 0, 0));
    if err.Some? {
      return Err(err.value);
    }
    var deletedTombs := 0;
    if deleteTombstones && tombstones != [] {
      deletedTombs := DeleteTombstones(store, tombstones);
    }
    var published := Stamp(NewManifest(recordsNow), now);
    var stats := IngestionStats(|recordsNow|, |toProcess|, |unchangedRecs|, |tombstones|,
                                p.chunks, p.upserts, p.deletedOld, deletedTombs, manifestPath, p.bytes);
    return Ok((stats, published));
  }

  /**
   * The whole run on values: the statistics (with an empty manifest path) and
   * the final collection, or the first error: loading the manifest, reading
   * its previous records in `diff`, then processing.
   */
  function RunSpec(mgr: Manager, docs: seq<Doc>, col: Collection, stored: Stored,
                   chunkSize: int, overlap: int, readText: string -> string, embed: seq<string> -> seq<Vec>,
                   deleteOldVersions: bool, deleteTombstones: bool): Result<(IngestionStats, Collection)>
  {
    var env := Env(mgr.docRoot, docs, readText, embed, chunkSize, overlap, deleteOldVersions);
    var recordsNow := RecordsOf(docs);
    var loaded := LoadManifest(stored);
    if loaded.Err? then Err(loaded.error)
    else if PrevFilesRead(Dict(loaded.value)).Err? then Err(PrevFilesRead(Dict(loaded.value)).error)
    else
      var d := DiffSpec(recordsNow, Dict(loaded.value));
      var prevD := ByPath(PrevFiles(Dict(loaded.value)));
      var (p, err) := ProcessFiles(Progress(col, 0, 0, 0, 0), env, prevD, d.toProcess);
      if err.Some? then Err(err.value)
      else
        var finalCol := if deleteTombstones then Tombed(p.col, d.tombstones, |d.tombstones|) else p.col;
        var deletedTombs := if deleteTombstones then TombCount(p.col, d.tombstones, |d.tombstones|) else 0;
        Ok((IngestionStats(|recordsNow|, |d.toProcess|, |d.unchangedRecs|, |d.tombstones|,
                           p.chunks, p.upserts, p.deletedOld, deletedTombs, "", p.bytes), finalCol))
  }

  /**
   * The collection a run leaves behind, whether it succeeds or not: untouched
   * when loading or diffing fails, as the processing loop left it when a file
   * fails, and the successful run's final collection otherwise.
   */
  function RunCol(mgr: Manager, docs: seq<Doc>, col: Collection, stored: Stored,
                  chunkSize: int, overlap: int, readText: string -> string, embed: seq<string> -> seq<Vec>,
                  deleteOldVersions: bool, deleteTombstones: bool): Collection
  {
    var spec := RunSpec(mgr, docs, col, stored, chunkSize, overlap, readText, embed, deleteOldVersions, deleteTombstones);
    var loaded := LoadManifest(stored);
    if spec.Ok? then spec.value.1
    else if loaded.Err? || PrevFilesRead(Dict(loaded.value)).Err? then col
    else
      var env := Env(mgr.docRoot, docs, readText, embed, chunkSize, overlap, deleteOldVersions);
      var d := DiffSpec(RecordsOf(docs), Dict(loaded.value));
      ProcessFiles(Progress(col, 0, 0, 0, 0), env, ByPath(PrevFiles(Dict(loaded.value))), d.toProcess).0.col
  }

  // ---------------------------------------------------------------------
  // Lemmas.

  /** A successful run leaves the collection its result reports; a failed load leaves it untouched. */
  lemma RunColAgrees(mgr: Manager, docs: seq<Doc>, col: Collection, stored: Stored,
                     chunkSize: int, overlap: int, readText: string -> string, embed: seq<string> -> seq<Vec>,
                     deleteOldVersions: bool, deleteTombstones: bool)
    ensures var spec := RunSpec(mgr, docs, col, stored, chunkSize, overlap, readText, embed, deleteOldVersions, deleteTombstones);
      var c := RunCol(mgr, docs, col, stored, chunkSize, overlap, readText, embed, deleteOldVersions, deleteTombstones);
      && (spec.Ok? ==> c == spec.value.1)
      && (LoadManifest(stored).Err? ==> c == col)
  {
  }

  /** After a delete by filter nothing matches the filter any more. */
  lemma DeleteLeavesNoMatch(col: Collection, f: Filter)
    ensures MatchingIds(col - MatchingIds(col, f), f) == {}
  {
  }

  /** The indices of the non-blank chunks among the first `n`, in order. */
  function KeptIndices(chunks: seq<(string, string)>, n: nat): (ks: seq<nat>)
    requires n <= |chunks|
    ensures forall i :: 0 <= i < |ks| ==> ks[i] < n
  {
    if n == 0 then []
    else
      var ks := KeptIndices(chunks, n - 1);
      if AllSpace(chunks[n - 1].1) then ks else ks + [n - 1]
  }

  /** The kept indices are increasing and are exactly those of the non-blank chunks. */
  lemma {:induction false} KeptIndicesExact(chunks: seq<(string, string)>, n: nat)
    requires n <= |chunks|
    ensures var ks := KeptIndices(chunks, n);
      && (forall i, j :: 0 <= i < j < |ks| ==> ks[i] < ks[j])
      && (forall j :: 0 <= j < n ==> (j in ks <==> !AllSpace(chunks[j].1)))
  {
    if n > 0 {
      KeptIndicesExact(chunks, n - 1);
    }
  }

  /**
   * What a file sends to the store: one entry per non-blank chunk, in chunk
   * order, with the text of that chunk, the id `path::sha256::idx` and the
   * metadata naming the same index.
   */
  lemma {:induction false} BatchOfShape(chunks: seq<(string, string)>, rec: Record, n: nat)
    requires n <= |chunks|
    ensures var b := BatchOf(chunks, rec, n);
      var ks := KeptIndices(chunks, n);
      && |ks| == |b.ids|
      && (forall i :: 0 <= i < |ks| ==>
            && b.texts[i] == chunks[ks[i]].1
            && b.ids[i] == MakeChunkId(rec.path, rec.sha256, ks[i])
            && b.metas[i] == ChunkMeta(rec.path, rec.sha256, ks[i], rec.mtime))
  {
    if n > 0 {
      BatchOfShape(chunks, rec, n - 1);
      var b0 := BatchOf(chunks, rec, n - 1);
      var ks0 := KeptIndices(chunks, n - 1);
      if !AllSpace(chunks[n - 1].1) {
        var b := BatchOf(chunks, rec, n);
        var ks := KeptIndices(chunks, n);
        assert ks == ks0 + [n - 1];
        assert b.texts == b0.texts + [chunks[n - 1].1];
        assert b.ids == b0.ids + [MakeChunkId(rec.path, rec.sha256, n - 1)];
        assert b.metas == b0.metas + [ChunkMeta(rec.path, rec.sha256, n - 1, rec.mtime)];
      }
    }
  }

  /** The ids of one file's batch never repeat, so the store's duplicate check never fires. */
  lemma BatchIdsDistinct(chunks: seq<(string, string)>, rec: Record, n: nat)
    requires n <= |chunks|
    ensures Distinct(BatchOf(chunks, rec, n).ids)
  {
    var b := BatchOf(chunks, rec, n);
    var ks := KeptIndices(chunks, n);
    BatchOfShape(chunks, rec, n);
    KeptIndicesExact(chunks, n);
    forall i, j | 0 <= i < j < |b.ids|
      ensures b.ids[i] != b.ids[j]
    {
      if b.ids[i] == b.ids[j] {
        MakeChunkIdInjective(rec.path, rec.sha256, ks[i], ks[j]);
      }
    }
  }

  /**
   * A file that is processed without error leaves each of its chunk ids in
   * the collection with the embedder's vector for that chunk and the chunk's
   * metadata, provided the embedder returned one vector per text.
   */
  lemma FileStepStoresChunks(p: Progress, env: Env, prevD: seq<Record>, rec: Record)
    requires ValidSizes(env)
    ensures var chunks := ChunksOf(env, rec);
      var b := BatchOf(chunks, rec, |chunks|);
      var vecs := env.embed(b.texts);
      var r := FileStep(p, env, prevD, rec);
      b.texts != [] && |vecs| == |b.ids| ==>
        && r.1.None?
        && forall k :: 0 <= k < |b.ids| ==> b.ids[k] in r.0.col && r.0.col[b.ids[k]] == Entry(vecs[k], Some(b.metas[k]))
  {
    var chunks := ChunksOf(env, rec);
    var b := BatchOf(chunks, rec, |chunks|);
    var vecs := env.embed(b.texts);
    if b.texts != [] && |vecs| == |b.ids| {
      BatchIdsDistinct(chunks, rec, |chunks|);
      var p1 := DeleteStep(p, rec, OldSha(env, prevD, rec));
      forall k | 0 <= k < |b.ids|
        ensures var u := Upserted(p1.col, b.ids, vecs, Some(b.metas));
          b.ids[k] in u && u[b.ids[k]] == Entry(vecs[k], Some(b.metas[k]))
      {
        UpsertEffect(p1.col, b.ids, vecs, Some(b.metas), b.ids[k]);
      }
    }
  }

  /** `chunks_added` and `vectors_upserted` move together: one id per embedded text. */
  lemma {:induction false} ChunksMatchUpserts(p: Progress, env: Env, prevD: seq<Record>, recs: seq<Record>)
    requires p.chunks == p.upserts
    ensures var q := ProcessFiles(p, env, prevD, recs).0; q.chunks == q.upserts
    decreases |recs|
  {
    if recs != [] {
      var r := FileStep(p, env, prevD, recs[0]);
      if r.1.None? {
        ChunksMatchUpserts(r.0, env, prevD, recs[1..]);
      }
    }
  }

  /** With old-version deletion off, processing only adds or overwrites ids. */
  lemma {:induction false} NoOldVersionDeletesKeepIds(p: Progress, env: Env, prevD: seq<Record>, recs: seq<Record>)
    requires !env.deleteOldVersions
    ensures var q := ProcessFiles(p, env, prevD, recs).0;
      p.col.Keys <= q.col.Keys && q.deletedOld == p.deletedOld
    decreases |recs|
  {
    if recs != [] {
      var r := FileStep(p, env, prevD, recs[0]);
      if ValidSizes(env) {
        var chunks := ChunksOf(env, recs[0]);
        var b := BatchOf(chunks, recs[0], |chunks|);
        var vecs := env.embed(b.texts);
        if b.ids != [] && vecs != [] && |b.ids| == |vecs| {
          UpsertKeys(p.col, b.ids, vecs, Some(b.metas));
        }
      }
      assert p.col.Keys <= r.0.col.Keys && r.0.deletedOld == p.deletedOld;
      if r.1.None? {
        NoOldVersionDeletesKeepIds(r.0, env, prevD, recs[1..]);
      }
    }
  }

  /** Deleting by a filter only removes ids, so fewer ids match any other filter. */
  lemma MatchingShrinks(col: Collection, gone: set<string>, f: Filter)
    ensures MatchingIds(col - gone, f) <= MatchingIds(col, f)
  {
  }

  /** The tombstone loop only removes entries. */
  lemma {:induction false} TombstonesOnlyRemove(col: Collection, tombs: seq<Record>, n: nat)
    requires n <= |tombs|
    ensures Tombed(col, tombs, n).Keys <= col.Keys
  {
    if n > 0 {
      TombstonesOnlyRemove(col, tombs, n - 1);
    }
  }

  /**
   * Deleting the tombstones one after another removes exactly the entries
   * that belong to some tombstoned file version, and keeps the rest as they were.
   */
  lemma {:induction false} TombedExactly(col: Collection, tombs: seq<Record>, n: nat, id: string)
    requires n <= |tombs|
    ensures id in Tombed(col, tombs, n) <==>
      id in col && forall t :: t in tombs[..n] ==> !Matches(col[id], FileFilter(t.path, t.sha256))
    ensures id in Tombed(col, tombs, n) ==> Tombed(col, tombs, n)[id] == col[id]
  {
    if n > 0 {
      TombedExactly(col, tombs, n - 1, id);
      assert tombs[..n] == tombs[..n - 1] + [tombs[n - 1]];
    }
  }

  /** After the tombstone loop no entry of any tombstoned file version is left. */
  lemma {:induction false} TombstonesCleared(col: Collection, tombs: seq<Record>, n: nat)
    requires n <= |tombs|
    ensures forall t :: t in tombs[..n] ==> VersionIds(Tombed(col, tombs, n), t) == {}
  {
    if n > 0 {
      TombstonesCleared(col, tombs, n - 1);
      var c := Tombed(col, tombs, n - 1);
      var gone := VersionIds(c, tombs[n - 1]);
      DeleteLeavesNoMatch(c, FileFilter(tombs[n - 1].path, tombs[n - 1].sha256));
      forall t | t in tombs[..n]
        ensures VersionIds(c - gone, t) == {}
      {
        if t in tombs[..n - 1] {
          MatchingShrinks(c, gone, FileFilter(t.path, t.sha256));
        } else {
          assert t == tombs[n - 1];
        }
      }
    }
  }

  /** The manifest a run publishes lists this scan's records under version "1", stamped with `now`. */
  lemma PublishedManifest(docs: seq<Doc>, now: string)
    requires now != ""
    ensures var m := Stamp(NewManifest(RecordsOf(docs)), now);
      && m.Keys == {"version", "generated_at", "files"}
      && m["version"] == MJson(JStr("1"))
      && m["generated_at"] == MJson(JStr(now))
      && m["files"] == MFiles(RecordsOf(docs))
      && LoadManifest(ParsedObject(m)) == Ok(m)
  {
  }

  /**
   * Running again over the same scan with the manifest the last run
   * published processes nothing, deletes nothing and leaves the collection as
   * it is.
   */
  lemma RerunIsNoOp(mgr: Manager, docs: seq<Doc>, col: Collection, now: string,
                    chunkSize: int, overlap: int, readText: string -> string, embed: seq<string> -> seq<Vec>,
                    deleteOldVersions: bool, deleteTombstones: bool)
    requires now != ""
    ensures var stored := ParsedObject(Stamp(NewManifest(RecordsOf(docs)), now));
      RunSpec(mgr, docs, col, stored, chunkSize, overlap, readText, embed, deleteOldVersions, deleteTombstones)
         == Ok((IngestionStats(|docs|, 0, |ByPath(RecordsOf(docs))|, 0, 0, 0, 0, 0, "", 0), col))
  {
    var m := Stamp(NewManifest(RecordsOf(docs)), now);
    PublishedManifest(docs, now);
    RediffIsEmpty(RecordsOf(docs), Dict(m));
  }

  /**
   * A previous manifest whose "files" list holds an item `diff` cannot key
   * by path (a non-dict, a dict without "path") makes the run raise that
   * item's error before anything is stored or published.
   */
  lemma BadFilesItemFailsRun(mgr: Manager, docs: seq<Doc>, col: Collection, items: seq<Json>,
                             chunkSize: int, overlap: int, readText: string -> string, embed: seq<string> -> seq<Vec>,
                             deleteOldVersions: bool, deleteTombstones: bool)
    requires FirstBad(items).Some?
    ensures var stored := ParsedObject(map["files" := MJson(JList(items))]);
      && RunSpec(mgr, docs, col, stored, chunkSize, overlap, readText, embed, deleteOldVersions, deleteTombstones)
         == Err(ItemError(items[FirstBad(items).value]).value)
      && RunCol(mgr, docs, col, stored, chunkSize, overlap, readText, embed, deleteOldVersions, deleteTombstones) == col
  {
    var stored := ParsedObject(map["files" := MJson(JList(items))]);
    var m := LoadManifest(stored).value;
    assert m["files"] == MJson(JList(items));
  }

  /**
   * A successful run's statistics: every scanned path is either processed or
   * unchanged, one id is upserted per embedded chunk, and a disabled delete
   * deletes nothing.
   */
  lemma RunStats(mgr: Manager, docs: seq<Doc>, col: Collection, stored: Stored,
                 chunkSize: int, overlap: int, readText: string -> string, embed: seq<string> -> seq<Vec>,
                 deleteOldVersions: bool, deleteTombstones: bool)
    ensures var r := RunSpec(mgr, docs, col, stored, chunkSize, overlap, readText, embed, deleteOldVersions, deleteTombstones);
      r.Ok? ==>
        var st := r.value.0;
        && st.filesScanned == |docs|
        && st.toProcess + st.unchangedFiles == |ByPath(RecordsOf(docs))|
        && st.chunksAdded == st.vectorsUpserted
        && (!deleteOldVersions ==> st.deletedOldVersions == 0)
        && (!deleteTombstones ==> st.deletedTombstones == 0)
        && (!deleteOldVersions && !deleteTombstones ==> col.Keys <= r.value.1.Keys)
  {
    var r := RunSpec(mgr, docs, col, stored, chunkSize, overlap, readText, embed, deleteOldVersions, deleteTombstones);
    var loaded := LoadManifest(stored);
    if r.Ok? {
      var env := Env(mgr.docRoot, docs, readText, embed, chunkSize, overlap, deleteOldVersions);
      var d := DiffSpec(RecordsOf(docs), Dict(loaded.value));
      var prevD := ByPath(PrevFiles(Dict(loaded.value)));
      var p0 := Progress(col, 0, 0, 0, 0);
      DiffPartition(RecordsOf(docs), Dict(loaded.value));
      assert |multiset(d.toProcess)| + |multiset(d.unchangedRecs)| == |multiset(ByPath(RecordsOf(docs)))|;
      ChunksMatchUpserts(p0, env, prevD, d.toProcess);
      if !deleteOldVersions {
        NoOldVersionDeletesKeepIds(p0, env, prevD, d.toProcess);
      }
    }
  }

  /**
   * Bad chunking parameters are only noticed when a file has to be chunked:
   * with something to process the run fails with a ValueError, with nothing
   * to process it succeeds.
   */
  lemma InvalidSizesFailOnlyWithWork(mgr: Manager, docs: seq<Doc>, col: Collection, stored: Stored,
                                     chunkSize: int, overlap: int, readText: string -> string, embed: seq<string> -> seq<Vec>,
                                     deleteOldVersions: bool, deleteTombstones: bool)
    requires chunkSize <= 0 || overlap < 0 || overlap >= chunkSize
    requires LoadManifest(stored).Ok? && PrevFilesRead(Dict(LoadManifest(stored).value)).Ok?
    ensures var r := RunSpec(mgr, docs, col, stored, chunkSize, overlap, readText, embed, deleteOldVersions, deleteTombstones);
      var d := DiffSpec(RecordsOf(docs), Dict(LoadManifest(stored).value));
      && (d.toProcess != [] ==> r.Err? && r.error.ValueError?)
      && (d.toProcess == [] ==> r.Ok?)
  {
    var env := Env(mgr.docRoot, docs, readText, embed, chunkSize, overlap, deleteOldVersions);
    var loaded := LoadManifest(stored).value;
    var d := DiffSpec(RecordsOf(docs), Dict(loaded));
    InvalidSizesStopFirst(Progress(col, 0, 0, 0, 0), env, ByPath(PrevFiles(Dict(loaded))), d.toProcess);
  }

  /** With bad chunking parameters the loop stops at its first file, with the ValueError of `split`. */
  lemma InvalidSizesStopFirst(p: Progress, env: Env, prevD: seq<Record>, recs: seq<Record>)
    requires !ValidSizes(env)
    ensures var r := ProcessFiles(p, env, prevD, recs);
      && (recs == [] ==> r == (p, None))
      && (recs != [] ==> r.0 == p && r.1.Some? && r.1.value.ValueError?)
  {
  }
}
