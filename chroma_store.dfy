/*
 * The Chroma-backed document store: the argument guards of the base class
 * and the helpers of the "docs" subclass, over the collection seen as a map
 * from id to (embedding, metadata). Chroma's own nearest-neighbour ranking
 * is a parameter; a `where` filter is a conjunction of metadata equalities,
 * the `$and` form the ingestion manager writes. A plain dict with several
 * keys, which Chroma refuses, is `GetWherePlain`.
 */
module ChromaStore {
  import opened Common

  datatype Entry = Entry(vec: Vec, meta: Option<Meta>)

  type Collection = map<string, Entry>

  /** A metadata filter: every listed key must hold the listed value. */
  type Filter = map<string, Scalar>

  predicate Matches(e: Entry, f: Filter)
  {
    e.meta.Some? && forall k :: k in f ==> k in e.meta.value && e.meta.value[k] == f[k]
  }

  /** The ids a `get(where=f)` returns. */
  function MatchingIds(col: Collection, f: Filter): (ids: set<string>)
    ensures ids <= col.Keys
  {
    set id | id in col && Matches(col[id], f)
  }

  /** The filter selecting one version of one file. */
  function FileFilter(relPath: string, sha256: string): Filter
  {
    map["path" := SStr(relPath), "sha256" := SStr(sha256)]
  }

  /** The first position of `x` in `xs`. */
  function Pos<T(==)>(xs: seq<T>, x: T): (i: nat)
    requires x in xs
    ensures i < |xs| && xs[i] == x && forall j :: 0 <= j < i ==> xs[j] != x
  {
    if xs[0] == x then 0 else 1 + Pos(xs[1..], x)
  }

  /**
   * The entry an upsert leaves for `ids[i]`: the new vector, and the new
   * metadata when metadatas are given, otherwise the metadata already stored
   * (none for a new id).
   */
  function NewEntry(col: Collection, id: string, vec: Vec, metas: Option<seq<Meta>>, i: nat): Entry
    requires metas.Some? ==> i < |metas.value|
  {
    var meta := if metas.Some? then Some(metas.value[i]) else if id in col then col[id].meta else None;
    Entry(vec, meta)
  }

  /** Chroma's `upsert(ids, embeddings, metadatas)` on ids without repeats. */
  function Upserted(col: Collection, ids: seq<string>, vectors: seq<Vec>, metas: Option<seq<Meta>>): Collection
    requires |ids| == |vectors| && (metas.Some? ==> |metas.value| == |ids|)
  {
    map id | id in col.Keys + set i | 0 <= i < |ids| :: ids[i] ::
      if id in ids then NewEntry(col, id, vectors[Pos(ids, id)], metas, Pos(ids, id)) else col[id]
  }

  /** Which guard of `add`, if any, rejects the batch; Chroma itself rejects repeated ids. */
  function AddGuard(ids: seq<string>, vectors: seq<Vec>, metas: Option<seq<Meta>>): Option<Error>
  {
    if ids == [] || vectors == [] then None
    else if |ids| != |vectors| then Some(ValueError("ids and vectors length mismatch"))
    else if metas.Some? && |metas.value| != |ids| then Some(ValueError("metadatas length must match ids (or be None)"))
    else if !Distinct(ids) then Some(DuplicateIdError(ids[0]))
    else None
  }

  /** `max(1, int(k))`. */
  function AtLeastOne(k: int): (r: nat)
    ensures r >= 1 && (k >= 1 ==> r == k) && (k < 1 ==> r == 1)
  {
    if k < 1 then 1 else k
  }

  /** `None if not where else where`. */
  function NormalizeWhere(where: Option<Filter>): (r: Option<Filter>)
    ensures r.None? <==> where.None? || where.value == map[]
    ensures r.Some? ==> r == where
  {
    if where.None? || where.value == map[] then None else where
  }

  /** `make_chunk_id(rel_path, sha256, chunk_idx)`. */
  function MakeChunkId(relPath: string, sha256: string, chunkIdx: int): string
  {
    relPath + "::" + sha256 + "::" + IntToString(chunkIdx)
  }

  /** A chunk id reads `rel_path`, "::", `sha256`, "::" and the decimal index, in that order. */
  lemma MakeChunkIdShape(relPath: string, sha256: string, chunkIdx: int)
    ensures var id := MakeChunkId(relPath, sha256, chunkIdx);
      && |id| == |relPath| + 2 + |sha256| + 2 + |IntToString(chunkIdx)|
      && id[..|relPath|] == relPath && id[|relPath|..|relPath| + 2] == "::"
      && id[|relPath| + 2..|relPath| + 2 + |sha256|] == sha256
      && id[|id| - |IntToString(chunkIdx)| - 2..] == "::" + IntToString(chunkIdx)
  {
  }

  class VectorStoreChroma {
    var collectionName: string
    var col: Collection

    /**
     * Opening (or creating) the collection `collectionName` under the store
     * directory; `persisted` is what that collection already holds.
     */
    constructor(persisted: Collection, collectionName: string := "docs")
      ensures this.collectionName == collectionName && col == persisted
    {
      this.collectionName := collectionName;
      col := persisted;
    }

    /** The `name` property. */
    function Name(): string
      reads this
    {
      collectionName
    }

    /** `count()`: the number of stored ids. */
    function Count(): nat
      reads this
    {
      |col|
    }

    /**
     * `add(ids, vectors, metadatas)`: an empty batch returns before any check;
     * the default `_pre_add`/`_post_add` hooks pass the batch through.
     */
    method Add(ids: seq<string>, vectors: seq<Vec>, metadatas: Option<seq<Meta>>) returns (err: Option<Error>)
      modifies this
      ensures err == AddGuard(ids, vectors, metadatas)
      ensures collectionName == old(collectionName)
      ensures err.Some? || ids == [] || vectors == [] ==> col == old(col)
      ensures err.None? && ids != [] && vectors != [] ==> col == Upserted(old(col), ids, vectors, metadatas)
    {
      if ids == [] || vectors == [] {
        return None;
      }
      if |ids| != |vectors| {
        return Some(ValueError("ids and vectors length mismatch"));
      }
      if metadatas.Some? && |metadatas.value| != |ids| {
        return Some(ValueError("metadatas length must match ids (or be None)"));
      }
      if !Distinct(ids) {
        return Some(DuplicateIdError(ids[0]));
      }
      col := Upserted(col, ids, vectors, metadatas);
      return None;
    }

    /**
     * `query(vector, k, where)`: an empty vector is a ValueError; otherwise the
     * ids `search` ranks for at least one neighbour and the normalised filter.
     */
    method Query(vector: Vec, k: int, where: Option<Filter>,
                 search: (Collection, Vec, nat, Option<Filter>) -> seq<string>) returns (r: Result<seq<string>>)
      ensures vector == [] <==> r.Err?
      ensures r.Err? ==> r.error.ValueError?
      ensures r.Ok? ==> r.value == search(col, vector, AtLeastOne(k), NormalizeWhere(where))
    {
      if vector == [] {
        return Err(ValueError("query vector must be a non-empty 1D list[float]"));
      }
      var kk := AtLeastOne(k);
      var w := NormalizeWhere(where);
      return Ok(search(col, vector, kk, w));
    }

    /** `delete_where(where)`: look the matching ids up, then delete them. */
    method DeleteWhere(where: Filter)
      modifies this
      ensures collectionName == old(collectionName)
      ensures where == map[] ==> col == old(col)
      ensures where != map[] ==> col == old(col) - MatchingIds(old(col), where)
    {
      if where == map[] {
        return;
      }
      var ids := MatchingIds(col, where);
      if ids != {} {
        col := col - ids;
      }
    }

    /**
     * `delete_file_version(rel_path, sha256)` with its filter written as the
     * `$and` of the two equalities: the number of ids removed.
     */
    method DeleteFileVersion(relPath: string, sha256: string) returns (n: nat)
      modifies this
      ensures collectionName == old(collectionName)
      ensures n == |MatchingIds(old(col), FileFilter(relPath, sha256))|
      ensures col == old(col) - MatchingIds(old(col), FileFilter(relPath, sha256))
      ensures Count() == old(Count()) - n
    {
      var ids := MatchingIds(col, FileFilter(relPath, sha256));
      if ids != {} {
        col := col - ids;
      }
      n := |ids|;
      RemoveCount(old(col), ids);
    }
  }

  /** Removing a set of stored keys shrinks the map by that many. */
  lemma RemoveCount(col: Collection, ids: set<string>)
    requires ids <= col.Keys
    ensures |col - ids| == |col| - |ids|
  {
    assert (col - ids).Keys == col.Keys - ids;
    assert |col.Keys - ids| == |col.Keys| - |ids|;
  }

  // ---------------------------------------------------------------------
  // What an upsert and a delete promise.

  lemma PosOfDistinct<T>(xs: seq<T>, i: nat)
    requires Distinct(xs) && i < |xs|
    ensures Pos(xs, xs[i]) == i
  {
  }

  /**
   * After an upsert of distinct ids each id holds its new vector (and its new
   * metadata, when given), and every other id is untouched.
   */
  lemma UpsertEffect(col: Collection, ids: seq<string>, vectors: seq<Vec>, metas: Option<seq<Meta>>, id: string)
    requires |ids| == |vectors| && (metas.Some? ==> |metas.value| == |ids|)
    requires Distinct(ids)
    ensures var u := Upserted(col, ids, vectors, metas);
      && (id in u <==> id in col || id in ids)
      && (id !in ids && id in col ==> u[id] == col[id])
      && (forall i :: 0 <= i < |ids| && ids[i] == id ==>
            u[id].vec == vectors[i]
            && u[id].meta == (if metas.Some? then Some(metas.value[i]) else if id in col then col[id].meta else None))
  {
    var u := Upserted(col, ids, vectors, metas);
    if id in ids {
      var p := Pos(ids, id);
      assert id == ids[p];
      forall i | 0 <= i < |ids| && ids[i] == id
        ensures i == p
      {
        PosOfDistinct(ids, i);
      }
    }
  }

  /** The upserted collection holds the old ids and the batch's ids, nothing else. */
  lemma UpsertKeys(col: Collection, ids: seq<string>, vectors: seq<Vec>, metas: Option<seq<Meta>>)
    requires |ids| == |vectors| && (metas.Some? ==> |metas.value| == |ids|)
    ensures Upserted(col, ids, vectors, metas).Keys == col.Keys + set i | 0 <= i < |ids| :: ids[i]
  {
  }

  /** An empty filter never reaches the lookup, so `delete_where({})` keeps every entry. */
  lemma DeleteWhereRemovesExactly(col: Collection, where: Filter, id: string)
    requires where != map[]
    ensures id in col - MatchingIds(col, where) <==> id in col && !Matches(col[id], where)
  {
  }

  /** Chunk ids of one file version differ exactly when their indices differ. */
  lemma {:induction false} MakeChunkIdInjective(relPath: string, sha256: string, i: int, j: int)
    requires MakeChunkId(relPath, sha256, i) == MakeChunkId(relPath, sha256, j)
    ensures i == j
  {
    var prefix := relPath + "::" + sha256 + "::";
    assert MakeChunkId(relPath, sha256, i) == prefix + IntToString(i);
    assert MakeChunkId(relPath, sha256, j) == prefix + IntToString(j);
    assert (prefix + IntToString(i))[|prefix|..] == IntToString(i);
    assert (prefix + IntToString(j))[|prefix|..] == IntToString(j);
    IntToStringInjective(i, j);
  }

  /** The ids `path::sha::0 .. path::sha::n-1` are pairwise distinct. */
  lemma ChunkIdsDistinct(relPath: string, sha256: string, ids: seq<string>)
    requires forall k :: 0 <= k < |ids| ==> ids[k] == MakeChunkId(relPath, sha256, k)
    ensures Distinct(ids)
  {
    forall a, b | 0 <= a < b < |ids|
      ensures ids[a] != ids[b]
    {
      if ids[a] == ids[b] {
        MakeChunkIdInjective(relPath, sha256, a, b);
      }
    }
  }

  // ---------------------------------------------------------------------
  // `delete_file_version` as written.

  /**
   * `get(where=d)` for a plain metadata dict `d`, as Chroma validates it: a
   * `where` must hold exactly one top-level key (one field, or one operator
   * such as `$and`), else ValueError; a one-field dict is an equality.
   */
  function GetWherePlain(col: Collection, d: Filter): (r: Result<set<string>>)
    ensures r.Err? <==> |d| != 1
    ensures r.Err? ==> r.error.ValueError?
    ensures r.Ok? ==> r.value == MatchingIds(col, d)
  {
    if |d| != 1 then Err(ValueError("Expected where to have exactly one operator"))
    else Ok(MatchingIds(col, d))
  }

  /**
   * `delete_file_version` as written: it passes the two-key dict
   * `{"path": rel_path, "sha256": sha256}`, so the lookup raises before
   * anything is deleted, whatever the collection holds.
   */
  function DeleteFileVersionAsWritten(col: Collection, relPath: string, sha256: string): (r: Result<(nat, Collection)>)
    ensures r.Err? && r.error.ValueError?
  {
    var d := FileFilter(relPath, sha256);
    assert d.Keys == {"path", "sha256"};
    assert |d| == 2;
    Err(GetWherePlain(col, d).error)
  }
}
