// The hot tier: a row-major buffer of unit vectors with a reverse map, which
// behaves as a map from id to normalised vector.

module MemoryIndex {
  import opened Wrappers
  import opened VectorMath
  import opened TopK

  datatype IndexError = WrongDim(id: string, length: nat, expected: nat)

  type Entries = map<string, Vector>

  // ---------------------------------------------------------------------
  // Rows of the flat buffer
  // ---------------------------------------------------------------------

  lemma RowFits(i: nat, n: nat, dim: nat)
    requires i < n
    ensures 0 <= i * dim <= i * dim + dim <= n * dim
  {
    assert (i + 1) * dim <= n * dim;
  }

  function Row(vectors: Vector, n: nat, dim: nat, i: nat): (r: Vector)
    requires |vectors| == n * dim && i < n
    ensures |r| == dim
  {
    RowFits(i, n, dim);
    vectors[i * dim..i * dim + dim]
  }

  /** `copy_from_slice` into row `i`. */
  function WithRow(vectors: Vector, n: nat, dim: nat, i: nat, v: Vector): (r: Vector)
    requires |vectors| == n * dim && i < n && |v| == dim
    ensures |r| == |vectors|
  {
    RowFits(i, n, dim);
    vectors[..i * dim] + v + vectors[i * dim + dim..]
  }

  lemma RowBefore(vectors: Vector, n: nat, dim: nat, i: nat, v: Vector, j: nat)
    requires |vectors| == n * dim && j < i < n && |v| == dim
    ensures Row(WithRow(vectors, n, dim, i, v), n, dim, j) == Row(vectors, n, dim, j)
  {
    RowFits(i, n, dim);
    RowFits(j, i, dim);
  }

  lemma RowAfter(vectors: Vector, n: nat, dim: nat, i: nat, v: Vector, j: nat)
    requires |vectors| == n * dim && i < j < n && |v| == dim
    ensures Row(WithRow(vectors, n, dim, i, v), n, dim, j) == Row(vectors, n, dim, j)
  {
    RowFits(j, n, dim);
    RowFits(i, j, dim);
  }

  lemma RowOfWithRow(vectors: Vector, n: nat, dim: nat, i: nat, v: Vector, j: nat)
    requires |vectors| == n * dim && i < n && j < n && |v| == dim
    ensures Row(WithRow(vectors, n, dim, i, v), n, dim, j) == if j == i then v else Row(vectors, n, dim, j)
  {
    RowFits(i, n, dim);
    if j < i { RowBefore(vectors, n, dim, i, v, j); }
    if i < j { RowAfter(vectors, n, dim, i, v, j); }
  }

  lemma RowOfExtended(vectors: Vector, n: nat, dim: nat, v: Vector, j: nat)
    requires |vectors| == n * dim && |v| == dim && j <= n
    ensures |vectors + v| == (n + 1) * dim
    ensures Row(vectors + v, n + 1, dim, j) == if j == n then v else Row(vectors, n, dim, j)
  {
    assert (n + 1) * dim == n * dim + dim;
    if j < n { RowFits(j, n, dim); }
  }

  lemma RowOfTruncated(vectors: Vector, n: nat, dim: nat, j: nat)
    requires |vectors| == n * dim && j + 1 < n
    ensures 0 <= (n - 1) * dim <= |vectors|
    ensures Row(vectors[..(n - 1) * dim], n - 1, dim, j) == Row(vectors, n, dim, j)
  {
    RowFits(n - 1, n, dim);
    RowFits(j, n - 1, dim);
  }

  // ---------------------------------------------------------------------
  // The structure
  // ---------------------------------------------------------------------

  ghost predicate Consistent(vectors: Vector, ids: seq<string>, byId: map<string, nat>, dim: nat) {
    && |vectors| == |ids| * dim
    && (forall i :: 0 <= i < |ids| ==> ids[i] in byId && byId[ids[i]] == i)
    && (forall id :: id in byId ==> byId[id] < |ids| && ids[byId[id]] == id)
  }

  /** The map from id to vector that the three parts stand for. */
  ghost function EntriesOf(vectors: Vector, ids: seq<string>, byId: map<string, nat>, dim: nat): Entries
    requires Consistent(vectors, ids, byId, dim)
  {
    map id | id in byId :: Row(vectors, |ids|, dim, byId[id])
  }

  lemma OverwriteEntry(vectors: Vector, ids: seq<string>, byId: map<string, nat>, dim: nat, id: string, v: Vector)
    requires Consistent(vectors, ids, byId, dim) && |v| == dim && id in byId
    ensures var vectors' := WithRow(vectors, |ids|, dim, byId[id], v);
            && Consistent(vectors', ids, byId, dim)
            && EntriesOf(vectors', ids, byId, dim) == EntriesOf(vectors, ids, byId, dim)[id := v]
  {
    forall other | other in byId
      ensures Row(WithRow(vectors, |ids|, dim, byId[id], v), |ids|, dim, byId[other]) ==
              if other == id then v else Row(vectors, |ids|, dim, byId[other])
    {
      RowOfWithRow(vectors, |ids|, dim, byId[id], v, byId[other]);
    }
  }

  lemma AppendEntry(vectors: Vector, ids: seq<string>, byId: map<string, nat>, dim: nat, id: string, v: Vector)
    requires Consistent(vectors, ids, byId, dim) && |v| == dim && id !in byId
    ensures var byId' := byId[id := |ids|];
            && Consistent(vectors + v, ids + [id], byId', dim)
            && EntriesOf(vectors + v, ids + [id], byId', dim) == EntriesOf(vectors, ids, byId, dim)[id := v]
  {
    var byId' := byId[id := |ids|];
    RowOfExtended(vectors, |ids|, dim, v, |ids|);
    forall other | other in byId
      ensures Row(vectors + v, |ids| + 1, dim, byId[other]) == Row(vectors, |ids|, dim, byId[other])
    {
      RowOfExtended(vectors, |ids|, dim, v, byId[other]);
    }
  }

  /** Dropping the last row. */
  lemma DropLast(vectors: Vector, ids: seq<string>, byId: map<string, nat>, dim: nat)
    requires Consistent(vectors, ids, byId, dim) && ids != []
    ensures var last := |ids| - 1;
            && 0 <= last * dim <= |vectors|
            && Consistent(vectors[..last * dim], ids[..last], byId - {ids[last]}, dim)
            && EntriesOf(vectors[..last * dim], ids[..last], byId - {ids[last]}, dim) ==
               EntriesOf(vectors, ids, byId, dim) - {ids[last]}
  {
    var last := |ids| - 1;
    RowFits(last, |ids|, dim);
    forall other | other in byId - {ids[last]}
      ensures Row(vectors[..last * dim], last, dim, byId[other]) == Row(vectors, |ids|, dim, byId[other])
    {
      RowOfTruncated(vectors, |ids|, dim, byId[other]);
    }
  }

  function WithoutRow(vectors: Vector, n: nat, dim: nat, i: nat): (r: Vector)
    requires |vectors| == n * dim && i + 1 < n
    ensures |r| == (n - 1) * dim
  {
    RowFits(n - 1, n, dim);
    WithRow(vectors, n, dim, i, Row(vectors, n, dim, n - 1))[..(n - 1) * dim]
  }

  lemma RowOfWithoutRow(vectors: Vector, n: nat, dim: nat, i: nat, j: nat)
    requires |vectors| == n * dim && i + 1 < n && j + 1 < n
    ensures Row(WithoutRow(vectors, n, dim, i), n - 1, dim, j) == Row(vectors, n, dim, if j == i then n - 1 else j)
  {
    var last := Row(vectors, n, dim, n - 1);
    RowOfTruncated(WithRow(vectors, n, dim, i, last), n, dim, j);
    RowOfWithRow(vectors, n, dim, i, last, j);
  }

  /** Dropping row `i` by moving the last row into it. */
  lemma SwapRemove(vectors: Vector, ids: seq<string>, byId: map<string, nat>, dim: nat, i: nat)
    requires Consistent(vectors, ids, byId, dim) && i + 1 < |ids|
    ensures var last := |ids| - 1;
            var vectors' := WithoutRow(vectors, |ids|, dim, i);
            var byId' := (byId - {ids[i]})[ids[last] := i];
            && Consistent(vectors', ids[i := ids[last]][..last], byId', dim)
            && EntriesOf(vectors', ids[i := ids[last]][..last], byId', dim) ==
               EntriesOf(vectors, ids, byId, dim) - {ids[i]}
  {
    var last := |ids| - 1;
    var byId' := (byId - {ids[i]})[ids[last] := i];
    forall other | other in byId'
      ensures byId'[other] < last
      ensures Row(WithoutRow(vectors, |ids|, dim, i), last, dim, byId'[other]) == Row(vectors, |ids|, dim, byId[other])
    {
      RowOfWithoutRow(vectors, |ids|, dim, i, byId'[other]);
    }
  }

  /** What a search compares: every entry's dot product with the normalised query. */
  ghost function HotScores(sqrt: real -> real, entries: Entries, query: Vector): map<string, real> {
    DotsWith(Normalized(sqrt, query), entries)
  }

  ghost function DotsWith(q: Vector, entries: Entries): map<string, real> {
    map id | id in entries && |entries[id]| == |q| :: Dot(q, entries[id])
  }

  /** The first rows of the buffer, scored in order. */
  ghost function Scan(q: Vector, vectors: Vector, ids: seq<string>, dim: nat, n: nat): (s: seq<Scored>)
    requires |vectors| == |ids| * dim && |q| == dim && n <= |ids|
    ensures |s| == n
    ensures forall i :: 0 <= i < n ==> s[i] == Scored(ids[i], Dot(q, Row(vectors, |ids|, dim, i)))
  {
    if n == 0 then []
    else Scan(q, vectors, ids, dim, n - 1) + [Scored(ids[n - 1], Dot(q, Row(vectors, |ids|, dim, n - 1)))]
  }

  lemma ScanNext(q: Vector, vectors: Vector, ids: seq<string>, dim: nat, n: nat)
    requires |vectors| == |ids| * dim && |q| == dim && n < |ids|
    ensures multiset(Scan(q, vectors, ids, dim, n + 1)) ==
            multiset(Scan(q, vectors, ids, dim, n)) + multiset{Scored(ids[n], Dot(q, Row(vectors, |ids|, dim, n)))}
  {
  }

  lemma ScanCoversIndex(q: Vector, vectors: Vector, ids: seq<string>, byId: map<string, nat>, dim: nat)
    requires Consistent(vectors, ids, byId, dim) && |q| == dim
    ensures multiset(Scan(q, vectors, ids, dim, |ids|)) == Candidates(DotsWith(q, EntriesOf(vectors, ids, byId, dim)))
  {
    var scan := Scan(q, vectors, ids, dim, |ids|);
    var scores := DotsWith(q, EntriesOf(vectors, ids, byId, dim));
    forall x: Scored ensures x in scan <==> x.id in scores && scores[x.id] == x.score {
      if x.id in byId { assert scan[byId[x.id]].id == x.id; }
    }
    ScanIsCandidates(scan, scores);
  }

  /** The linear scan of a search. */
  method BestRows(q: Vector, vectors: Vector, ids: seq<string>, dim: nat, k: nat) returns (top: seq<Scored>)
    requires |vectors| == |ids| * dim && |q| == dim && k > 0
    ensures Best(multiset(Scan(q, vectors, ids, dim, |ids|)), k, top)
  {
    var n := |ids|;
    var cap := Min(k, n);
    top := [];
    for row := 0 to n
      invariant Best(multiset(Scan(q, vectors, ids, dim, row)), cap, top)
    {
      var c := Scored(ids[row], Dot(q, Row(vectors, n, dim, row)));
      top := PushTopk(top, cap, c, multiset(Scan(q, vectors, ids, dim, row)));
      ScanNext(q, vectors, ids, dim, row);
    }
    CapIsEnough(multiset(Scan(q, vectors, ids, dim, n)), k, n, top);
  }

  class MemoryIndex {
    const sqrt: real -> real
    const dim: nat
    var vectors: Vector
    var ids: seq<string>
    var byId: map<string, nat>

    ghost predicate Valid()
      reads this
    {
      dim > 0 && Consistent(vectors, ids, byId, dim)
    }

    ghost function Contents(): Entries
      reads this
      requires Valid()
    {
      EntriesOf(vectors, ids, byId, dim)
    }

    constructor (sqrt: real -> real, dim: nat)
      requires dim > 0
      ensures Valid() && Contents() == map[] && this.dim == dim && this.sqrt == sqrt
    {
      this.sqrt, this.dim := sqrt, dim;
      vectors, ids, byId := [], [], map[];
    }

    method Insert(id: string, vector: Vector) returns (r: Result<(), IndexError>)
      requires Valid()
      modifies this
      ensures Valid()
      ensures r == if |vector| == dim then Ok(()) else Err(WrongDim(id, |vector|, dim))
      ensures Contents() == if |vector| == dim then old(Contents())[id := Normalized(sqrt, vector)] else old(Contents())
    {
      if |vector| != dim {
        return Err(WrongDim(id, |vector|, dim));
      }
      var v := new real[dim](i requires 0 <= i < dim => vector[i]);
      assert v[..] == vector;
      NormalizeInPlace(sqrt, v);
      var unit := v[..];
      if id in byId {
        OverwriteEntry(vectors, ids, byId, dim, id, unit);
        vectors := WithRow(vectors, |ids|, dim, byId[id], unit);
      } else {
        AppendEntry(vectors, ids, byId, dim, id, unit);
        vectors := vectors + unit;
        byId := byId[id := |ids|];
        ids := ids + [id];
      }
      r := Ok(());
    }

    method Remove(id: string)
      requires Valid()
      modifies this
      ensures Valid()
      ensures Contents() == old(Contents()) - {id}
    {
      if id !in byId {
        return;
      }
      var row, last := byId[id], |ids| - 1;
      if row != last {
        SwapRemove(vectors, ids, byId, dim, row);
        vectors := WithRow(vectors, |ids|, dim, row, Row(vectors, |ids|, dim, last));
        byId := (byId - {id})[ids[last] := row];
        ids := ids[row := ids[last]];
      } else {
        DropLast(vectors, ids, byId, dim);
        byId := byId - {id};
      }
      vectors := vectors[..last * dim];
      ids := ids[..last];
    }

    /** The k entries most similar to the query; no entry is comparable to a query of the wrong length. */
    method Search(query: Vector, k: nat) returns (r: seq<Scored>)
      requires Valid()
      ensures IsTopK(Candidates(HotScores(sqrt, Contents(), query)), k, r)
    {
      if k == 0 || |query| != dim {
        assert |query| != dim ==> Items(HotScores(sqrt, Contents(), query)) == {};
        return [];
      }
      var q := Normalized(sqrt, query);
      var top := BestRows(q, vectors, ids, dim, k);
      ScanCoversIndex(q, vectors, ids, byId, dim);
      SortKeepsBest(Candidates(DotsWith(q, Contents())), k, top);
      r := SortDesc(top);
    }
  }
}
