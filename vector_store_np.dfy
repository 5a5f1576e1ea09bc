/*
 * The NumPy-only exact-cosine store: parallel lists of ids, metadata dicts
 * and embedding rows, plus a dict from id to row index. `add` upserts a
 * batch (known ids are overwritten in place, new ids appended), `query`
 * returns the ids of the k best-scoring rows.
 */
module VectorStoreNp {
  import opened Common

  /** The store's four fields as one value, for stating what `add` does. */
  datatype Store = Store(ids: seq<string>, meta: seq<Meta>, emb: seq<Vec>, id2idx: map<string, nat>)

  /**
   * The layout every operation keeps: the three lists have one entry per
   * row, the map sends each known id to a row holding that id, and every
   * row's id is known.
   */
  predicate ValidStore(s: Store)
  {
    && |s.meta| == |s.ids|
    && |s.emb| == |s.ids|
    && (forall k :: k in s.id2idx ==> s.id2idx[k] < |s.ids| && s.ids[s.id2idx[k]] == k)
    && (forall i :: 0 <= i < |s.ids| ==> s.ids[i] in s.id2idx)
  }

  /** Ids are unique: the map sends the id of row `i` back to `i`. */
  predicate Indexed(s: Store)
  {
    ValidStore(s) && forall i :: 0 <= i < |s.ids| ==> s.id2idx[s.ids[i]] == i
  }

  lemma IndexedDistinct(s: Store)
    requires Indexed(s)
    ensures Distinct(s.ids)
  {
    forall i, j | 0 <= i < j < |s.ids|
      ensures s.ids[i] != s.ids[j]
    {
      assert s.id2idx[s.ids[i]] == i && s.id2idx[s.ids[j]] == j;
    }
  }

  /** All rows of the batch have one width, so `np.asarray` yields a 2-D array. */
  predicate Rectangular(vs: seq<Vec>)
  {
    forall i, j :: 0 <= i < |vs| && 0 <= j < |vs| ==> |vs[i]| == |vs[j]|
  }

  /** `meta[i] if meta else {}`. */
  function MetaAt(metas: seq<Meta>, i: nat): Meta
    requires metas == [] || i < |metas|
  {
    if metas == [] then map[] else metas[i]
  }

  /** The last position before `n` where `xs` holds `x`. */
  function LastIndex<T(==)>(xs: seq<T>, x: T, n: nat): (r: Option<nat>)
    requires n <= |xs|
    ensures r.Some? ==> r.value < n && xs[r.value] == x && forall j :: r.value < j < n ==> xs[j] != x
    ensures r.None? ==> forall j :: 0 <= j < n ==> xs[j] != x
  {
    if n == 0 then None else if xs[n - 1] == x then Some(n - 1) else LastIndex(xs, x, n - 1)
  }

  datatype Row = Row(id: string, meta: Meta, vec: Vec)

  function RowIds(rows: seq<Row>): (r: seq<string>)
    ensures |r| == |rows| && forall i :: 0 <= i < |rows| ==> r[i] == rows[i].id
  {
    seq(|rows|, i requires 0 <= i < |rows| => rows[i].id)
  }

  function RowMetas(rows: seq<Row>): (r: seq<Meta>)
    ensures |r| == |rows| && forall i :: 0 <= i < |rows| ==> r[i] == rows[i].meta
  {
    seq(|rows|, i requires 0 <= i < |rows| => rows[i].meta)
  }

  function RowVecs(rows: seq<Row>): (r: seq<Vec>)
    ensures |r| == |rows| && forall i :: 0 <= i < |rows| ==> r[i] == rows[i].vec
  {
    seq(|rows|, i requires 0 <= i < |rows| => rows[i].vec)
  }

  /**
   * The batch rows, among the first `n`, whose id the store did not know
   * before the call, in batch order (repeats included).
   */
  function FreshRows(bIds: seq<string>, vectors: seq<Vec>, metas: seq<Meta>, known: map<string, nat>, n: nat): (rows: seq<Row>)
    requires n <= |bIds| == |vectors| && (metas == [] || |metas| == |bIds|)
    ensures forall r :: 0 <= r < |rows| ==> rows[r].id !in known
  {
    if n == 0 then []
    else
      var rows := FreshRows(bIds, vectors, metas, known, n - 1);
      if bIds[n - 1] in known then rows else rows + [Row(bIds[n - 1], MetaAt(metas, n - 1), vectors[n - 1])]
  }

  /** The first `n` in-place overwrites of the first loop of `add`. */
  function Overwrite(s: Store, bIds: seq<string>, vectors: seq<Vec>, metas: seq<Meta>, n: nat): (t: Store)
    requires ValidStore(s)
    requires n <= |bIds| == |vectors| && (metas == [] || |metas| == |bIds|)
    ensures t.ids == s.ids && t.id2idx == s.id2idx && |t.emb| == |s.emb| && |t.meta| == |s.meta|
  {
    if n == 0 then s
    else
      var t := Overwrite(s, bIds, vectors, metas, n - 1);
      var id := bIds[n - 1];
      if id in s.id2idx then
        t.(emb := t.emb[s.id2idx[id] := vectors[n - 1]], meta := t.meta[s.id2idx[id] := MetaAt(metas, n - 1)])
      else t
  }

  /** `_id2idx[id_] = start + j` for the first `n` appended ids. */
  function IndexNew(m: map<string, nat>, newIds: seq<string>, start: nat, n: nat): map<string, nat>
    requires n <= |newIds|
  {
    if n == 0 then m else IndexNew(m, newIds, start, n - 1)[newIds[n - 1] := start + n - 1]
  }

  /** Appending the new rows after the overwrites. */
  function Append(s: Store, rows: seq<Row>): Store
  {
    Store(s.ids + RowIds(rows), s.meta + RowMetas(rows), s.emb + RowVecs(rows),
          IndexNew(s.id2idx, RowIds(rows), |s.ids|, |rows|))
  }

  /** The store after a successful `add` of a non-empty batch. */
  function AddSpec(s: Store, bIds: seq<string>, vectors: seq<Vec>, metas: seq<Meta>): Store
    requires ValidStore(s)
    requires |bIds| == |vectors| && (metas == [] || |metas| == |bIds|)
  {
    Append(Overwrite(s, bIds, vectors, metas, |bIds|), FreshRows(bIds, vectors, metas, s.id2idx, |bIds|))
  }

  /** The checks `add` makes on a non-empty batch before it touches the store. */
  predicate BatchRejected(bIds: seq<string>, vectors: seq<Vec>, metas: seq<Meta>)
  {
    bIds != [] && vectors != []
    && (|bIds| != |vectors| || (metas != [] && |metas| != |bIds|) || !Rectangular(vectors))
  }

  /** The width `D` of the stored `(N, D)` array; None while `_emb` is None. */
  function Width(s: Store): Option<nat>
  {
    if s.emb == [] then None else Some(|s.emb[0]|)
  }

  /** Every row has width `d`. */
  predicate Uniform(vs: seq<Vec>, d: nat)
  {
    forall i :: 0 <= i < |vs| ==> |vs[i]| == d
  }

  /**
   * `row[:] = x` into a stored row of width `d`: NumPy broadcasts a
   * one-element vector over the whole row.
   */
  function FitTo(v: Vec, d: Option<nat>): (r: Vec)
    ensures d.Some? && (|v| == d.value || |v| == 1) ==> |r| == d.value
    ensures d.None? || |v| != 1 || d.value == 1 ==> r == v
    ensures forall i :: 0 <= i < |r| ==> r[i] == v[if |v| == 1 then 0 else i]
  {
    if d.Some? && |v| == 1 && d.value != 1 then seq(d.value, _ => v[0]) else v
  }

  /** The batch rows as they land in stored rows of width `d`. */
  function Fitted(vectors: seq<Vec>, d: Option<nat>): (r: seq<Vec>)
    ensures |r| == |vectors| && forall i :: 0 <= i < |vectors| ==> r[i] == FitTo(vectors[i], d)
  {
    seq(|vectors|, i requires 0 <= i < |vectors| => FitTo(vectors[i], d))
  }

  /** The batch rows have the stored width (or nothing is stored): they land unchanged. */
  lemma FittedUnchanged(vectors: seq<Vec>, d: Option<nat>)
    requires d.None? || Uniform(vectors, d.value)
    ensures Fitted(vectors, d) == vectors
  {
  }

  /** A 2-D batch of the stored width (or any batch into an empty store) lands unchanged. */
  lemma SameWidthFitted(vectors: seq<Vec>, d: Option<nat>)
    requires vectors != [] && Rectangular(vectors) && (d.None? || |vectors[0]| == d.value)
    ensures Fitted(vectors, d) == vectors
  {
    if d.Some? {
      assert forall i :: 0 <= i < |vectors| ==> |vectors[i]| == |vectors[0]|;
    }
    FittedUnchanged(vectors, d);
  }

  /** The batch width differs from the width of the stored array. */
  predicate WidthClash(s: Store, vectors: seq<Vec>)
  {
    vectors != [] && Width(s).Some? && |vectors[0]| != Width(s).value
  }

  /** Some batch id is already stored. */
  predicate AnyKnown(bIds: seq<string>, known: map<string, nat>)
  {
    exists i :: 0 <= i < |bIds| && bIds[i] in known
  }

  /** Some batch id is not stored yet. */
  predicate AnyFresh(bIds: seq<string>, known: map<string, nat>)
  {
    exists i :: 0 <= i < |bIds| && bIds[i] !in known
  }

  /**
   * The in-place row assignment raises: the batch rows neither have the
   * stored width nor one element, and some batch id is stored.
   */
  predicate KnownClash(s: Store, bIds: seq<string>, vectors: seq<Vec>)
  {
    WidthClash(s, vectors) && |vectors[0]| != 1 && AnyKnown(bIds, s.id2idx)
  }

  /**
   * `np.concatenate` would raise: some rows are new, and their width is not
   * the stored one. It is reached only when the assignment did not raise.
   */
  predicate ConcatClash(s: Store, bIds: seq<string>, vectors: seq<Vec>)
  {
    WidthClash(s, vectors) && AnyFresh(bIds, s.id2idx)
  }

  /** Whether `add` raises: a rejected batch, a broadcast that fails, or a concatenation that fails. */
  predicate AddFails(s: Store, bIds: seq<string>, vectors: seq<Vec>, metas: seq<Meta>)
  {
    BatchRejected(bIds, vectors, metas)
    || (bIds != [] && (KnownClash(s, bIds, vectors) || ConcatClash(s, bIds, vectors)))
  }

  class VectorStoreNP {
    var ids: seq<string>
    var meta: seq<Meta>
    var emb: seq<Vec>
    var id2idx: map<string, nat>

    function State(): Store
      reads this
    {
      Store(ids, meta, emb, id2idx)
    }

    /** The layout, and `_emb` is a 2-D array: all rows have one width. */
    predicate Valid()
      reads this
    {
      ValidStore(State()) && Rectangular(emb)
    }

    /** A store whose pickle file does not exist yet starts empty. */
    constructor()
      ensures State() == Store([], [], [], map[])
      ensures Valid() && Indexed(State())
    {
      ids := [];
      meta := [];
      emb := [];
      id2idx := map[];
    }

    /**
     * `add(ids, vectors, meta)`. A batch whose width differs from the
     * stored one raises ValueError: at the first stored id when its row
     * cannot be broadcast (nothing changed yet), or at the concatenation
     * of the new rows, after the stored rows were overwritten.
     */
    method Add(bIds: seq<string>, vectors: seq<Vec>, metas: seq<Meta>) returns (err: Option<Error>)
      requires Valid()
      modifies this
      ensures Valid()
      ensures err.Some? <==> AddFails(old(State()), bIds, vectors, metas)
      ensures err.Some? ==> err.value.ValueError?
      ensures bIds == [] || vectors == [] || BatchRejected(bIds, vectors, metas) || KnownClash(old(State()), bIds, vectors)
              ==> State() == old(State())
      ensures !BatchRejected(bIds, vectors, metas) && bIds != [] && !KnownClash(old(State()), bIds, vectors)
              && ConcatClash(old(State()), bIds, vectors)
              ==> State() == Overwrite(old(State()), bIds, Fitted(vectors, Width(old(State()))), metas, |bIds|)
      ensures err.None? && bIds != [] && vectors != []
              ==> State() == AddSpec(old(State()), bIds, Fitted(vectors, Width(old(State()))), metas)
    {
      if bIds == [] || vectors == [] {
        return None;
      }
      if |bIds| != |vectors| {
        return Some(ValueError("ids and vectors length mismatch"));
      }
      if metas != [] && |metas| != |bIds| {
        return Some(ValueError("meta length must match ids (or be empty)"));
      }
      if !Rectangular(vectors) {
        return Some(ValueError("vectors must be 2D [N, D]"));
      }
      err := Upsert(bIds, vectors, metas);
    }

    /** `add` once the batch passed its checks: the two loops and the concatenation. */
    method Upsert(bIds: seq<string>, vectors: seq<Vec>, metas: seq<Meta>) returns (err: Option<Error>)
      requires Valid()
      requires |bIds| == |vectors| && (metas == [] || |metas| == |bIds|) && vectors != [] && Rectangular(vectors)
      modifies this
      ensures Valid()
      ensures err.Some? <==> KnownClash(old(State()), bIds, vectors) || ConcatClash(old(State()), bIds, vectors)
      ensures err.Some? ==> err.value.ValueError?
      ensures KnownClash(old(State()), bIds, vectors) ==> State() == old(State())
      ensures !KnownClash(old(State()), bIds, vectors) && ConcatClash(old(State()), bIds, vectors)
              ==> State() == Overwrite(old(State()), bIds, Fitted(vectors, Width(old(State()))), metas, |bIds|)
      ensures err.None? ==> State() == AddSpec(old(State()), bIds, Fitted(vectors, Width(old(State()))), metas)
    {
      ghost var s0 := State();
      var d: Option<nat> := if emb == [] then None else Some(|emb[0]|);
      assert d == Width(s0);
      var newRows, clash := OverwriteKnown(bIds, vectors, metas, d);
      if clash {
        return Some(ValueError("could not broadcast input array into the stored row"));
      }
      ClashKeepsValid(s0, bIds, vectors, metas);
      FreshRowsEmptyIff(bIds, vectors, metas, s0.id2idx, |bIds|);
      assert newRows == [] <==> !AnyFresh(bIds, s0.id2idx);
      err := AppendQueued(s0, bIds, vectors, metas, d, newRows);
    }

    /**
     * The second half of `add` after the overwrites: the queued rows are
     * concatenated to the stored ones, which raises when their widths differ.
     */
    method AppendQueued(ghost s0: Store, bIds: seq<string>, vectors: seq<Vec>, metas: seq<Meta>, d: Option<nat>,
                        newRows: seq<Row>) returns (err: Option<Error>)
      requires ValidStore(s0) && Rectangular(s0.emb) && d == Width(s0)
      requires |bIds| == |vectors| && (metas == [] || |metas| == |bIds|) && vectors != [] && Rectangular(vectors)
      requires !KnownClash(s0, bIds, vectors)
      requires State() == Overwrite(s0, bIds, Fitted(vectors, d), metas, |bIds|) && Valid()
      requires newRows == FreshRows(bIds, vectors, metas, s0.id2idx, |bIds|)
      requires newRows == [] <==> !AnyFresh(bIds, s0.id2idx)
      modifies this
      ensures Valid()
      ensures err.Some? <==> ConcatClash(s0, bIds, vectors)
      ensures err.Some? ==> err.value.ValueError? && State() == old(State())
      ensures err.None? ==> State() == AddSpec(s0, bIds, Fitted(vectors, d), metas)
    {
      ghost var t := State();
      ghost var fv := Fitted(vectors, d);
      if newRows != [] {
        if d.Some? && |vectors[0]| != d.value {
          assert ConcatClash(s0, bIds, vectors);
          return Some(ValueError("all the input array dimensions except for the concatenation axis must match exactly"));
        }
        assert !ConcatClash(s0, bIds, vectors);
        SameWidthFitted(vectors, d);
        AddKeepsWidth(s0, bIds, vectors, metas);
        AppendRows(newRows);
        assert State() == Append(t, FreshRows(bIds, fv, metas, s0.id2idx, |bIds|));
      } else {
        AddKeepsWidth(s0, bIds, vectors, metas);
        FreshRowsEmptyIff(bIds, fv, metas, s0.id2idx, |bIds|);
        assert Append(t, []) == t;
      }
      return None;
    }

    /**
     * The first loop of `add`: rows of known ids are overwritten where the
     * map points (broadcast to the stored width `d`), the other batch
     * entries are set aside in order. The assignment raises at the first
     * known id whose row cannot be broadcast, before anything changed.
     */
    method OverwriteKnown(bIds: seq<string>, vectors: seq<Vec>, metas: seq<Meta>, d: Option<nat>)
      returns (newRows: seq<Row>, clash: bool)
      requires ValidStore(State()) && d == Width(State())
      requires |bIds| == |vectors| && (metas == [] || |metas| == |bIds|) && vectors != []
      modifies this
      ensures clash <==> KnownClash(old(State()), bIds, vectors)
      ensures clash ==> State() == old(State())
      ensures !clash ==> State() == Overwrite(old(State()), bIds, Fitted(vectors, d), metas, |bIds|)
                         && newRows == FreshRows(bIds, vectors, metas, old(id2idx), |bIds|)
    {
      ghost var s0 := State();
      ghost var fv := Fitted(vectors, d);
      var fits := d.None? || |vectors[0]| == d.value || |vectors[0]| == 1;
      newRows := [];
      var i := 0;
      while i < |bIds|
        invariant 0 <= i <= |bIds|
        invariant State() == Overwrite(s0, bIds, fv, metas, i)
        invariant newRows == FreshRows(bIds, vectors, metas, s0.id2idx, i)
        invariant !fits ==> forall j :: 0 <= j < i ==> bIds[j] !in s0.id2idx
      {
        var m := MetaAt(metas, i);
        var id := bIds[i];
        if id in id2idx {
          if !fits {
            OverwriteNoKnown(s0, bIds, fv, metas, i);
            return [], true;
          }
          SetRow(id2idx[id], FitTo(vectors[i], d), m);
        } else {
          newRows := newRows + [Row(id, m, vectors[i])];
        }
        i := i + 1;
      }
      clash := false;
    }

    /** `self._emb[idx] = x` and `self._meta[idx] = m`. */
    method SetRow(idx: nat, v: Vec, m: Meta)
      requires idx < |emb| && idx < |meta|
      modifies this
      ensures State() == old(State()).(emb := old(emb)[idx := v], meta := old(meta)[idx := m])
    {
      emb := emb[idx := v];
      meta := meta[idx := m];
    }

    /** The second half of `add`: extend the three lists, then map each new id to its row. */
    method AppendRows(newRows: seq<Row>)
      modifies this
      ensures State() == Append(old(State()), newRows)
    {
      var start := |ids|;
      var newIds := RowIds(newRows);
      emb := emb + RowVecs(newRows);
      ids := ids + newIds;
      meta := meta + RowMetas(newRows);
      ghost var m0 := id2idx;
      var j := 0;
      while j < |newIds|
        invariant 0 <= j <= |newIds|
        invariant ids == old(ids) + newIds && meta == old(meta) + RowMetas(newRows) && emb == old(emb) + RowVecs(newRows)
        invariant id2idx == IndexNew(m0, newIds, start, j)
      {
        id2idx := id2idx[newIds[j] := start + j];
        j := j + 1;
      }
    }

    /**
     * `query(vector, k)`: the ids of the `max(1, min(k, N))` rows scoring
     * highest under `cosine(row, vector)`, best first. `A @ q` raises
     * ValueError when the query's length is not the stored width.
     */
    method Query(vector: Vec, k: int, cosine: (Vec, Vec) -> real) returns (r: Result<seq<string>>)
      requires Valid()
      ensures ids == [] ==> r == Ok([])
      ensures ids != [] ==> (r.Err? <==> |vector| != |emb[0]|)
      ensures r.Err? ==> r.error.ValueError?
      ensures ids != [] && r.Ok? ==>
        |r.value| == Clamp(k, |ids|)
        && exists idx :: IsTopK(Scores(emb, vector, cosine), Clamp(k, |ids|), idx) && r.value == Pick(ids, idx)
      ensures r.Ok? && Indexed(State()) ==> Distinct(r.value)
    {
      if |ids| == 0 {
        return Ok([]);
      }
      if |vector| != |emb[0]| {
        return Err(ValueError("matmul: Input operand 1 has a mismatch in its core dimension 0"));
      }
      var sims := Scores(emb, vector, cosine);
      var kk := if k < |sims| then k else |sims|;
      kk := if 1 < kk then kk else 1;
      var idx := TopK(sims, kk);
      var picked := Pick(ids, idx);
      if Indexed(State()) {
        forall a, b | 0 <= a < b < |picked|
          ensures picked[a] != picked[b]
        {
          assert id2idx[ids[idx[a]]] == idx[a] && id2idx[ids[idx[b]]] == idx[b];
        }
      }
      return Ok(picked);
    }
  }

  /** `max(1, min(k, n))`. */
  function Clamp(k: int, n: nat): int
  {
    var m := if k < n then k else n;
    if 1 < m then m else 1
  }

  /** The similarity of every row to the query vector. */
  function Scores(emb: seq<Vec>, vector: Vec, cosine: (Vec, Vec) -> real): (sims: seq<real>)
    ensures |sims| == |emb|
  {
    seq(|emb|, i requires 0 <= i < |emb| => cosine(emb[i], vector))
  }

  function Pick(ids: seq<string>, idx: seq<nat>): (r: seq<string>)
    requires forall a :: 0 <= a < |idx| ==> idx[a] < |ids|
    ensures |r| == |idx| && forall a :: 0 <= a < |idx| ==> r[a] == ids[idx[a]]
  {
    seq(|idx|, a requires 0 <= a < |idx| => ids[idx[a]])
  }

  /**
   * `idx` holds `k` distinct row indices in non-increasing score order, and
   * every chosen row scores at least as high as every row left out.
   */
  predicate IsTopK(sims: seq<real>, k: int, idx: seq<nat>)
  {
    && |idx| == k
    && (forall a :: 0 <= a < |idx| ==> idx[a] < |sims|)
    && (forall a, b :: 0 <= a < b < |idx| ==> idx[a] != idx[b])
    && (forall a, b :: 0 <= a < b < |idx| ==> sims[idx[a]] >= sims[idx[b]])
    && (forall a, j :: 0 <= a < |idx| && 0 <= j < |sims| && j !in idx ==> sims[idx[a]] >= sims[j])
  }

  /**
   * `argpartition` followed by `argsort` on the negated scores, as a partial
   * selection sort over a permutation of the row indices; ties are broken
   * towards the earlier position, where numpy leaves their order open.
   */
  method TopK(sims: seq<real>, k: nat) returns (idx: seq<nat>)
    requires 1 <= k <= |sims|
    ensures IsTopK(sims, k, idx)
  {
    var n := |sims|;
    var perm: seq<nat> := seq(n, i requires 0 <= i < n => i);
    forall j | 0 <= j < n
      ensures j in perm
    {
      assert perm[j] == j;
    }
    var t := 0;
    while t < k
      invariant 0 <= t <= k
      invariant IsPerm(perm, n)
      invariant Selected(sims, perm, t)
    {
      var m := ArgMaxFrom(sims, perm, t);
      SelectStep(sims, perm, t, m);
      perm := Swap(perm, t, m);
      t := t + 1;
    }
    idx := perm[..k];
    forall a, j | 0 <= a < k && 0 <= j < n && j !in idx
      ensures sims[idx[a]] >= sims[j]
    {
      assert j in perm;
    }
  }

  /** `perm` lists each of `0 .. n-1` exactly once. */
  predicate IsPerm(perm: seq<nat>, n: nat)
  {
    && |perm| == n
    && (forall a :: 0 <= a < n ==> perm[a] < n)
    && (forall a, b :: 0 <= a < b < n ==> perm[a] != perm[b])
    && (forall j :: 0 <= j < n ==> j in perm)
  }

  /** The position, at `t` or later, of a best-scoring index in `perm`. */
  method ArgMaxFrom(sims: seq<real>, perm: seq<nat>, t: nat) returns (m: nat)
    requires t < |perm| && forall a :: 0 <= a < |perm| ==> perm[a] < |sims|
    ensures t <= m < |perm|
    ensures forall b :: t <= b < |perm| ==> sims[perm[m]] >= sims[perm[b]]
  {
    m := t;
    var j := t + 1;
    while j < |perm|
      invariant t <= m < j <= |perm|
      invariant forall b :: t <= b < j ==> sims[perm[m]] >= sims[perm[b]]
    {
      if sims[perm[j]] > sims[perm[m]] {
        m := j;
      }
      j := j + 1;
    }
  }

  function Swap(perm: seq<nat>, t: nat, m: nat): (r: seq<nat>)
    requires t < |perm| && m < |perm|
    ensures |r| == |perm| && r[t] == perm[m] && r[m] == perm[t]
    ensures forall a :: 0 <= a < |perm| && a != t && a != m ==> r[a] == perm[a]
  {
    perm[t := perm[m]][m := perm[t]]
  }

  /** Swapping two positions keeps a permutation a permutation. */
  lemma SwapPerm(perm: seq<nat>, n: nat, t: nat, m: nat)
    requires IsPerm(perm, n) && t < n && m < n
    ensures IsPerm(Swap(perm, t, m), n)
  {
    var r := Swap(perm, t, m);
    forall j | 0 <= j < n
      ensures j in r
    {
      assert j in perm;
      var p :| 0 <= p < n && perm[p] == j;
      if p == t {
        assert r[m] == j;
      } else if p == m {
        assert r[t] == j;
      } else {
        assert r[p] == j;
      }
    }
  }

  /** The first `t` positions of `perm` hold best scores, in descending order. */
  predicate Selected(sims: seq<real>, perm: seq<nat>, t: nat)
    requires IsPerm(perm, |sims|) && t <= |sims|
  {
    && (forall a, b :: 0 <= a < b < t ==> sims[perm[a]] >= sims[perm[b]])
    && (forall a, b :: 0 <= a < t <= b < |perm| ==> sims[perm[a]] >= sims[perm[b]])
  }

  /** Swapping a best remaining score into position `t` selects one more. */
  lemma SelectStep(sims: seq<real>, perm: seq<nat>, t: nat, m: nat)
    requires IsPerm(perm, |sims|) && t <= m < |sims|
    requires Selected(sims, perm, t)
    requires forall b :: t <= b < |perm| ==> sims[perm[m]] >= sims[perm[b]]
    ensures IsPerm(Swap(perm, t, m), |sims|) && Selected(sims, Swap(perm, t, m), t + 1)
  {
    SwapPerm(perm, |sims|, t, m);
    var r := Swap(perm, t, m);
    forall a, b | 0 <= a < t + 1 <= b < |r|
      ensures sims[r[a]] >= sims[r[b]]
    {
      if a < t {
        assert r[a] == perm[a];
        if b == m {
          assert r[b] == perm[t];
        } else {
          assert r[b] == perm[b];
        }
      } else if b == m {
        assert r[b] == perm[t];
      } else {
        assert r[b] == perm[b];
      }
    }
    forall a, b | 0 <= a < b < t + 1
      ensures sims[r[a]] >= sims[r[b]]
    {
      assert r[a] == perm[a];
    }
  }

  // ---------------------------------------------------------------------
  // What `add` promises.

  /** The overwrites touch a row only through the map, with the batch's last value for its id. */
  lemma {:induction false} OverwriteRow(s: Store, bIds: seq<string>, vectors: seq<Vec>, metas: seq<Meta>, n: nat, r: nat)
    requires ValidStore(s)
    requires n <= |bIds| == |vectors| && (metas == [] || |metas| == |bIds|)
    requires r < |s.ids|
    ensures var t := Overwrite(s, bIds, vectors, metas, n);
      var last := LastIndex(bIds, s.ids[r], n);
      if s.id2idx[s.ids[r]] == r && last.Some? then
        t.emb[r] == vectors[last.value] && t.meta[r] == MetaAt(metas, last.value)
      else
        t.emb[r] == s.emb[r] && t.meta[r] == s.meta[r]
  {
    if n > 0 {
      OverwriteRow(s, bIds, vectors, metas, n - 1, r);
      var id := bIds[n - 1];
      if id in s.id2idx && s.id2idx[id] == r {
        assert id == s.ids[r];
        assert LastIndex(bIds, s.ids[r], n) == Some(n - 1);
      } else {
        assert Overwrite(s, bIds, vectors, metas, n).emb[r] == Overwrite(s, bIds, vectors, metas, n - 1).emb[r];
      }
    }
  }

  lemma {:induction false} FreshRowIds(bIds: seq<string>, vectors: seq<Vec>, metas: seq<Meta>, known: map<string, nat>, n: nat)
    requires n <= |bIds| == |vectors| && (metas == [] || |metas| == |bIds|)
    ensures var rows := FreshRows(bIds, vectors, metas, known, n);
      forall j :: 0 <= j < n && bIds[j] !in known ==> bIds[j] in RowIds(rows)
  {
    if n > 0 {
      FreshRowIds(bIds, vectors, metas, known, n - 1);
      var rows := FreshRows(bIds, vectors, metas, known, n - 1);
      if bIds[n - 1] !in known {
        var rows' := rows + [Row(bIds[n - 1], MetaAt(metas, n - 1), vectors[n - 1])];
        forall j | 0 <= j < n && bIds[j] !in known
          ensures bIds[j] in RowIds(rows')
        {
          if j < n - 1 {
            var q :| 0 <= q < |rows| && rows[q].id == bIds[j];
            assert rows'[q].id == bIds[j];
          } else {
            assert rows'[|rows|].id == bIds[j];
          }
        }
      }
    }
  }

  /** Each appended id is mapped to its last position among the appended rows. */
  lemma {:induction false} IndexNewAt(m: map<string, nat>, newIds: seq<string>, start: nat, n: nat, k: string)
    requires n <= |newIds|
    ensures var r := IndexNew(m, newIds, start, n);
      match LastIndex(newIds, k, n)
      case Some(j) => k in r && r[k] == start + j
      case None => (k in r <==> k in m) && (k in m ==> r[k] == m[k])
  {
    if n > 0 {
      IndexNewAt(m, newIds, start, n - 1, k);
    }
  }

  /** With no stored id among the first `n`, the overwrites change nothing. */
  lemma {:induction false} OverwriteNoKnown(s: Store, bIds: seq<string>, vectors: seq<Vec>, metas: seq<Meta>, n: nat)
    requires ValidStore(s)
    requires n <= |bIds| == |vectors| && (metas == [] || |metas| == |bIds|)
    requires forall j :: 0 <= j < n ==> bIds[j] !in s.id2idx
    ensures Overwrite(s, bIds, vectors, metas, n) == s
  {
    if n > 0 {
      OverwriteNoKnown(s, bIds, vectors, metas, n - 1);
    }
  }

  /** No row is queued exactly when every batch id is stored; the vectors play no part. */
  lemma {:induction false} FreshRowsEmptyIff(bIds: seq<string>, vectors: seq<Vec>, metas: seq<Meta>, known: map<string, nat>, n: nat)
    requires n <= |bIds| == |vectors| && (metas == [] || |metas| == |bIds|)
    ensures FreshRows(bIds, vectors, metas, known, n) == [] <==> forall j :: 0 <= j < n ==> bIds[j] in known
  {
    if n > 0 {
      FreshRowsEmptyIff(bIds, vectors, metas, known, n - 1);
    }
  }

  /** Overwriting rows of width `d` with vectors of width `d` keeps every row at width `d`. */
  lemma {:induction false} OverwriteUniform(s: Store, bIds: seq<string>, vectors: seq<Vec>, metas: seq<Meta>, n: nat, d: nat)
    requires ValidStore(s) && Uniform(s.emb, d)
    requires n <= |bIds| == |vectors| && (metas == [] || |metas| == |bIds|)
    requires forall j :: 0 <= j < n && bIds[j] in s.id2idx ==> |vectors[j]| == d
    ensures Uniform(Overwrite(s, bIds, vectors, metas, n).emb, d)
  {
    if n > 0 {
      OverwriteUniform(s, bIds, vectors, metas, n - 1, d);
    }
  }

  /** The queued rows carry batch vectors, so they have the batch width. */
  lemma {:induction false} FreshRowsUniform(bIds: seq<string>, vectors: seq<Vec>, metas: seq<Meta>, known: map<string, nat>, n: nat, d: nat)
    requires n <= |bIds| == |vectors| && (metas == [] || |metas| == |bIds|)
    requires Uniform(vectors, d)
    ensures Uniform(RowVecs(FreshRows(bIds, vectors, metas, known, n)), d)
  {
    if n > 0 {
      FreshRowsUniform(bIds, vectors, metas, known, n - 1, d);
    }
  }

  lemma UniformRectangular(vs: seq<Vec>, d: nat)
    requires Uniform(vs, d)
    ensures Rectangular(vs) && (vs != [] ==> |vs[0]| == d)
  {
  }

  /**
   * Unless the in-place assignment raises, the overwrites keep the layout
   * and the stored width: a stored id's row is either of that width or a
   * single element broadcast to it.
   */
  lemma ClashKeepsValid(s: Store, bIds: seq<string>, vectors: seq<Vec>, metas: seq<Meta>)
    requires ValidStore(s) && Rectangular(s.emb)
    requires |bIds| == |vectors| && (metas == [] || |metas| == |bIds|) && vectors != [] && Rectangular(vectors)
    requires !KnownClash(s, bIds, vectors)
    ensures var t := Overwrite(s, bIds, Fitted(vectors, Width(s)), metas, |bIds|);
      && ValidStore(t) && Rectangular(t.emb) && Width(t) == Width(s)
      && (s.emb == [] ==> t == s)
      && (s.emb != [] ==> Uniform(t.emb, |s.emb[0]|))
  {
    var fv := Fitted(vectors, Width(s));
    var t := Overwrite(s, bIds, fv, metas, |bIds|);
    OverwriteKeepsValid(s, bIds, fv, metas, |bIds|);
    if s.emb == [] {
      EmptyStoreKnowsNothing(s, bIds);
      OverwriteNoKnown(s, bIds, fv, metas, |bIds|);
    } else {
      var d := |s.emb[0]|;
      KnownRowsFit(s, bIds, vectors);
      OverwriteUniform(s, bIds, fv, metas, |bIds|, d);
      UniformRectangular(t.emb, d);
    }
  }

  /** The overwrites keep the layout: they change no id and no length. */
  lemma OverwriteKeepsValid(s: Store, bIds: seq<string>, vectors: seq<Vec>, metas: seq<Meta>, n: nat)
    requires ValidStore(s)
    requires n <= |bIds| == |vectors| && (metas == [] || |metas| == |bIds|)
    ensures ValidStore(Overwrite(s, bIds, vectors, metas, n))
  {
  }

  /** An empty store knows no id. */
  lemma EmptyStoreKnowsNothing(s: Store, bIds: seq<string>)
    requires ValidStore(s) && s.emb == []
    ensures forall j :: 0 <= j < |bIds| ==> bIds[j] !in s.id2idx
  {
    assert |s.ids| == 0;
    assert forall k :: k in s.id2idx ==> s.id2idx[k] < |s.ids|;
  }

  /** Unless the assignment raises, each stored id's batch row lands with the stored width. */
  lemma KnownRowsFit(s: Store, bIds: seq<string>, vectors: seq<Vec>)
    requires s.emb != [] && |bIds| == |vectors| && vectors != [] && Rectangular(vectors)
    requires !KnownClash(s, bIds, vectors)
    ensures var fv := Fitted(vectors, Width(s));
      forall j :: 0 <= j < |bIds| && bIds[j] in s.id2idx ==> |fv[j]| == |s.emb[0]|
  {
    var fv := Fitted(vectors, Width(s));
    forall j | 0 <= j < |bIds| && bIds[j] in s.id2idx
      ensures |fv[j]| == |s.emb[0]|
    {
      assert AnyKnown(bIds, s.id2idx);
      assert |vectors[j]| == |vectors[0]|;
    }
  }

  /**
   * A successful `add` keeps `_emb` a 2-D array: an empty store takes the
   * batch width, a non-empty one keeps its width.
   */
  lemma AddKeepsWidth(s: Store, bIds: seq<string>, vectors: seq<Vec>, metas: seq<Meta>)
    requires ValidStore(s) && Rectangular(s.emb)
    requires |bIds| == |vectors| && (metas == [] || |metas| == |bIds|) && vectors != [] && Rectangular(vectors)
    requires !KnownClash(s, bIds, vectors) && !ConcatClash(s, bIds, vectors)
    ensures var u := AddSpec(s, bIds, Fitted(vectors, Width(s)), metas);
      && ValidStore(u) && Rectangular(u.emb)
      && (s.emb != [] ==> Width(u) == Width(s))
      && (s.emb == [] && u.emb != [] ==> Width(u) == Some(|vectors[0]|))
  {
    var fv := Fitted(vectors, Width(s));
    var t := Overwrite(s, bIds, fv, metas, |bIds|);
    var rows := FreshRows(bIds, fv, metas, s.id2idx, |bIds|);
    ClashKeepsValid(s, bIds, vectors, metas);
    AddKeepsValid(s, bIds, fv, metas);
    var d := if s.emb == [] then |vectors[0]| else |s.emb[0]|;
    if s.emb == [] || |vectors[0]| == d {
      SameWidthFitted(vectors, Width(s));
      RectangularUniform(vectors);
      FreshRowsUniform(bIds, fv, metas, s.id2idx, |bIds|, d);
    } else {
      FreshRowsEmptyIff(bIds, fv, metas, s.id2idx, |bIds|);
    }
    AppendUniform(t, rows, d);
  }

  lemma RectangularUniform(vs: seq<Vec>)
    requires vs != [] && Rectangular(vs)
    ensures Uniform(vs, |vs[0]|)
  {
  }

  /** Appending rows of width `d` to rows of width `d`. */
  lemma AppendUniform(t: Store, rows: seq<Row>, d: nat)
    requires Uniform(t.emb, d) && Uniform(RowVecs(rows), d)
    ensures Append(t, rows).emb == t.emb + RowVecs(rows)
    ensures Uniform(Append(t, rows).emb, d) && Rectangular(Append(t, rows).emb)
    ensures Append(t, rows).emb != [] ==> Width(Append(t, rows)) == Some(d)
  {
    UniformRectangular(Append(t, rows).emb, d);
  }

  /**
   * A one-element row sent for a stored id and a new id, into a store of
   * width 2: the stored row is overwritten with the broadcast value, then
   * the concatenation raises, and the new id is not stored.
   */
  lemma BroadcastThenConcatFails(x: real, y: real, z: real)
    ensures var s := Store(["a"], [map[]], [[x, y]], map["a" := 0]);
      && ValidStore(s) && ConcatClash(s, ["a", "b"], [[z], [z]])
      && Overwrite(s, ["a", "b"], Fitted([[z], [z]], Width(s)), [], 2) == Store(["a"], [map[]], [[z, z]], map["a" := 0])
  {
    var s := Store(["a"], [map[]], [[x, y]], map["a" := 0]);
    assert ["a", "b"][1] !in s.id2idx;
    assert !AnyKnown(["a", "b"], s.id2idx) || |[[z], [z]][0]| == 1;
    var fv := Fitted([[z], [z]], Width(s));
    assert fv[0] == [z, z];
    assert Overwrite(s, ["a", "b"], fv, [], 1) == Store(["a"], [map[]], [[z, z]], map["a" := 0]);
  }

  /** Appending rows keeps the layout. */
  lemma AppendKeepsValid(t: Store, rows: seq<Row>)
    requires ValidStore(t)
    ensures ValidStore(Append(t, rows))
  {
    var newIds := RowIds(rows);
    var u := Append(t, rows);
    assert u.ids == t.ids + newIds;
    forall k | k in u.id2idx
      ensures u.id2idx[k] < |u.ids| && u.ids[u.id2idx[k]] == k
    {
      IndexNewAt(t.id2idx, newIds, |t.ids|, |rows|, k);
      match LastIndex(newIds, k, |rows|)
      case Some(j) =>
        assert u.ids[|t.ids| + j] == newIds[j];
      case None =>
    }
    forall i | 0 <= i < |u.ids|
      ensures u.ids[i] in u.id2idx
    {
      if i >= |t.ids| {
        assert u.ids[i] == newIds[i - |t.ids|];
        IndexNewAt(t.id2idx, newIds, |t.ids|, |rows|, newIds[i - |t.ids|]);
      } else {
        assert u.ids[i] == t.ids[i];
        IndexNewAt(t.id2idx, newIds, |t.ids|, |rows|, t.ids[i]);
      }
    }
  }

  /** `add` keeps the layout, whatever the batch. */
  lemma AddKeepsValid(s: Store, bIds: seq<string>, vectors: seq<Vec>, metas: seq<Meta>)
    requires ValidStore(s)
    requires |bIds| == |vectors| && (metas == [] || |metas| == |bIds|)
    ensures ValidStore(AddSpec(s, bIds, vectors, metas))
  {
    var t := Overwrite(s, bIds, vectors, metas, |bIds|);
    AppendKeepsValid(t, FreshRows(bIds, vectors, metas, s.id2idx, |bIds|));
  }

  /**
   * A known id keeps its row index; its vector and metadata become those of
   * its last occurrence in the batch.
   */
  lemma AddOverwritesKnown(s: Store, bIds: seq<string>, vectors: seq<Vec>, metas: seq<Meta>, k: string)
    requires Indexed(s)
    requires |bIds| == |vectors| && (metas == [] || |metas| == |bIds|)
    requires k in s.id2idx
    ensures var u := AddSpec(s, bIds, vectors, metas);
      var r := s.id2idx[k];
      var last := LastIndex(bIds, k, |bIds|);
      && k in u.id2idx && u.id2idx[k] == r && u.ids[r] == k
      && (last.Some? ==> u.emb[r] == vectors[last.value] && u.meta[r] == MetaAt(metas, last.value))
      && (last.None? ==> u.emb[r] == s.emb[r] && u.meta[r] == s.meta[r])
  {
    var rows := FreshRows(bIds, vectors, metas, s.id2idx, |bIds|);
    var r := s.id2idx[k];
    OverwriteRow(s, bIds, vectors, metas, |bIds|, r);
    IndexNewAt(s.id2idx, RowIds(rows), |s.ids|, |rows|, k);
    assert LastIndex(RowIds(rows), k, |rows|).None?;
  }

  /**
   * The ids the store did not know are appended in batch order, and the map
   * sends each to its (last) new position.
   */
  lemma AddAppendsFresh(s: Store, bIds: seq<string>, vectors: seq<Vec>, metas: seq<Meta>, k: string)
    requires ValidStore(s)
    requires |bIds| == |vectors| && (metas == [] || |metas| == |bIds|)
    requires k in bIds && k !in s.id2idx
    ensures var u := AddSpec(s, bIds, vectors, metas);
      var newIds := RowIds(FreshRows(bIds, vectors, metas, s.id2idx, |bIds|));
      && u.ids == s.ids + newIds
      && k in newIds
      && LastIndex(newIds, k, |newIds|).Some?
      && k in u.id2idx && u.id2idx[k] == |s.ids| + LastIndex(newIds, k, |newIds|).value
      && u.ids[u.id2idx[k]] == k
  {
    var rows := FreshRows(bIds, vectors, metas, s.id2idx, |bIds|);
    FreshRowIds(bIds, vectors, metas, s.id2idx, |bIds|);
    AppendAt(Overwrite(s, bIds, vectors, metas, |bIds|), rows, k);
  }

  /** An appended id is mapped to its last position among the appended rows. */
  lemma AppendAt(t: Store, rows: seq<Row>, k: string)
    requires k in RowIds(rows)
    ensures var u := Append(t, rows);
      var newIds := RowIds(rows);
      && u.ids == t.ids + newIds
      && LastIndex(newIds, k, |newIds|).Some?
      && k in u.id2idx && u.id2idx[k] == |t.ids| + LastIndex(newIds, k, |newIds|).value
      && u.ids[u.id2idx[k]] == k
  {
    var newIds := RowIds(rows);
    IndexNewAt(t.id2idx, newIds, |t.ids|, |rows|, k);
    var q :| 0 <= q < |newIds| && newIds[q] == k;
    assert LastIndex(newIds, k, |newIds|).Some?;
  }

  /** With an empty meta list every appended row gets the metadata `{}`. */
  lemma {:induction false} EmptyMetaRows(bIds: seq<string>, vectors: seq<Vec>, known: map<string, nat>, n: nat)
    requires n <= |bIds| == |vectors|
    ensures forall r :: 0 <= r < |FreshRows(bIds, vectors, [], known, n)| ==> FreshRows(bIds, vectors, [], known, n)[r].meta == map[]
  {
    if n > 0 {
      EmptyMetaRows(bIds, vectors, known, n - 1);
    }
  }

  /** The ids of the fresh rows, in batch order. */
  lemma {:induction false} FreshIdsDistinctIndexed(s: Store, newIds: seq<string>, n: nat)
    requires Indexed(s) && n <= |newIds|
    requires Distinct(newIds) && forall j :: 0 <= j < |newIds| ==> newIds[j] !in s.id2idx
    ensures var m := IndexNew(s.id2idx, newIds, |s.ids|, n);
      forall j :: 0 <= j < n ==> newIds[j] in m && m[newIds[j]] == |s.ids| + j
    ensures var m := IndexNew(s.id2idx, newIds, |s.ids|, n);
      forall i :: 0 <= i < |s.ids| ==> s.ids[i] in m && m[s.ids[i]] == i
  {
    if n > 0 {
      FreshIdsDistinctIndexed(s, newIds, n - 1);
      forall i | 0 <= i < |s.ids|
        ensures s.ids[i] != newIds[n - 1]
      {
        assert s.ids[i] in s.id2idx;
      }
    }
  }

  /** When the batch's new ids are distinct, ids stay unique. */
  lemma AddKeepsIndexed(s: Store, bIds: seq<string>, vectors: seq<Vec>, metas: seq<Meta>)
    requires Indexed(s)
    requires |bIds| == |vectors| && (metas == [] || |metas| == |bIds|)
    requires Distinct(RowIds(FreshRows(bIds, vectors, metas, s.id2idx, |bIds|)))
    ensures Indexed(AddSpec(s, bIds, vectors, metas))
  {
    AddKeepsValid(s, bIds, vectors, metas);
    var rows := FreshRows(bIds, vectors, metas, s.id2idx, |bIds|);
    var newIds := RowIds(rows);
    var u := AddSpec(s, bIds, vectors, metas);
    FreshIdsDistinctIndexed(s, newIds, |rows|);
    forall i | 0 <= i < |u.ids|
      ensures u.id2idx[u.ids[i]] == i
    {
      if i >= |s.ids| {
        assert u.ids[i] == newIds[i - |s.ids|];
      } else {
        assert u.ids[i] == s.ids[i];
      }
    }
  }

  /**
   * The flaw of the source: a new id repeated inside one batch is appended
   * twice, so the store no longer has unique ids.
   */
  lemma DuplicateNewIdAppendedTwice(v: Vec)
    ensures var u := AddSpec(Store([], [], [], map[]), ["a", "a"], [v, v], []);
      u.ids == ["a", "a"] && u.id2idx == map["a" := 1] && !Indexed(u)
  {
    var s := Store([], [], [], map[]);
    var rows := FreshRows(["a", "a"], [v, v], [], s.id2idx, 2);
    assert FreshRows(["a", "a"], [v, v], [], s.id2idx, 1) == [Row("a", map[], v)];
    assert rows == [Row("a", map[], v), Row("a", map[], v)];
    assert RowIds(rows) == ["a", "a"];
  }
}
