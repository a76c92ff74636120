// The cold tier: a table of encoded embeddings, searched by a streaming scan.

module EmbeddingStore {
  import opened Wrappers
  import opened Codec
  import opened VectorMath
  import opened TopK
  import Sorting

  /** An embedding handed to the store. */
  datatype Record = Record(id: string, sessionKey: string, vector: seq<Word>, eventType: string)

  /** A row of `event_embeddings`; the id is its primary key. */
  datatype Row = Row(id: string, sessionKey: string, blob: seq<Byte>, eventType: string, createdAt: int)

  datatype StoredEmbedding = StoredEmbedding(id: string, sessionKey: string, vector: seq<Word>, eventType: string, createdAt: int)

  datatype StoreError = LengthMismatch(length: nat, expected: nat)

  /** The number a 32-bit pattern stands for. */
  type Reading = Word -> real

  function Values(value: Reading, v: seq<Word>): (r: Vector)
    ensures |r| == |v| && forall i :: 0 <= i < |v| ==> r[i] == value(v[i])
  {
    seq(|v|, i requires 0 <= i < |v| => value(v[i]))
  }

  predicate HasId(rows: seq<Row>, id: string) { exists i :: 0 <= i < |rows| && rows[i].id == id }

  ghost predicate UniqueKeys(rows: seq<Row>) {
    forall i, j :: 0 <= i < j < |rows| ==> rows[i].id != rows[j].id
  }

  predicate Readable(row: Row) { |row.blob| % 4 == 0 }

  /** What the readable rows hold. */
  function Vectors(rows: seq<Row>): map<string, seq<Word>> {
    if rows == [] then map[]
    else
      var last := rows[|rows| - 1];
      var before := Vectors(rows[..|rows| - 1]);
      if Readable(last) then before[last.id := Decode(last.blob)] else before
  }

  /** Every row was written by this store. */
  ghost predicate Intact(rows: seq<Row>, dim: nat) {
    forall i :: 0 <= i < |rows| ==> |rows[i].blob| == 4 * dim
  }

  function RowOf(item: Record, now: int): Row {
    Row(item.id, item.sessionKey, Encode(item.vector), item.eventType, now)
  }

  /** `INSERT OR IGNORE` of each item in turn. */
  function Saved(rows: seq<Row>, items: seq<Record>, now: int): seq<Row> {
    if items == [] then rows
    else
      var before := Saved(rows, items[..|items| - 1], now);
      var item := items[|items| - 1];
      if HasId(before, item.id) then before else before + [RowOf(item, now)]
  }

  predicate Fits(items: seq<Record>, dim: nat) {
    forall i :: 0 <= i < |items| ==> |items[i].vector| == dim
  }

  /** The similarity of every readable row to the query. */
  ghost function StoreScores(sqrt: real -> real, value: Reading, rows: seq<Row>, query: Vector): map<string, real> {
    map id | id in Vectors(rows) :: Cosine(sqrt, query, Values(value, Vectors(rows)[id]))
  }

  // ---------------------------------------------------------------------
  // Lemmas about the table
  // ---------------------------------------------------------------------

  lemma {:induction false} VectorsHave(rows: seq<Row>, i: nat)
    requires UniqueKeys(rows) && i < |rows|
    ensures rows[i].id in Vectors(rows) <==> Readable(rows[i])
    ensures Readable(rows[i]) ==> Vectors(rows)[rows[i].id] == Decode(rows[i].blob)
  {
    var front, last := rows[..|rows| - 1], rows[|rows| - 1];
    VectorsLast(rows);
    if i < |front| {
      VectorsHave(front, i);
      assert front[i] == rows[i] && last.id != rows[i].id;
    } else {
      VectorsOnly(front, last.id);
    }
  }

  lemma VectorsLast(rows: seq<Row>)
    requires rows != []
    ensures var front, last := rows[..|rows| - 1], rows[|rows| - 1];
            Vectors(rows) == if Readable(last) then Vectors(front)[last.id := Decode(last.blob)] else Vectors(front)
  {
  }

  lemma {:induction false} VectorsOnly(rows: seq<Row>, id: string)
    ensures id in Vectors(rows) ==> exists i :: 0 <= i < |rows| && rows[i].id == id && Readable(rows[i])
  {
    if rows != [] {
      var front, last := rows[..|rows| - 1], rows[|rows| - 1];
      VectorsOnly(front, id);
      if id in Vectors(front) {
        var i :| 0 <= i < |front| && front[i].id == id && Readable(front[i]);
        assert rows[i].id == id && Readable(rows[i]);
      } else if last.id == id && Readable(last) {
        assert rows[|rows| - 1].id == id && Readable(rows[|rows| - 1]);
      }
    }
  }

  lemma {:induction false} SavedKeepsKeys(rows: seq<Row>, items: seq<Record>, now: int, dim: nat)
    requires UniqueKeys(rows)
    ensures UniqueKeys(Saved(rows, items, now))
    ensures Intact(rows, dim) && Fits(items, dim) ==> Intact(Saved(rows, items, now), dim)
  {
    if items != [] { SavedKeepsKeys(rows, items[..|items| - 1], now, dim); }
  }

  /** The ids present in an intact table. */
  lemma IntactIds(rows: seq<Row>, dim: nat, id: string)
    requires UniqueKeys(rows) && Intact(rows, dim)
    ensures HasId(rows, id) <==> id in Vectors(rows)
    ensures id in Vectors(rows) ==> |Vectors(rows)[id]| == dim
  {
    VectorsOnly(rows, id);
    if HasId(rows, id) {
      var i :| 0 <= i < |rows| && rows[i].id == id;
      VectorsHave(rows, i);
    }
  }

  /** Each new id is recorded, and an id once recorded keeps its vector. */
  function FirstWins(vectors: map<string, seq<Word>>, items: seq<Record>): map<string, seq<Word>> {
    if items == [] then vectors
    else
      var before := FirstWins(vectors, items[..|items| - 1]);
      var item := items[|items| - 1];
      if item.id in before then before else before[item.id := item.vector]
  }

  lemma OneReadsBack(rows: seq<Row>, item: Record, now: int, dim: nat)
    requires UniqueKeys(rows) && Intact(rows, dim)
    ensures HasId(rows, item.id) <==> item.id in Vectors(rows)
    ensures Vectors(rows + [RowOf(item, now)]) == Vectors(rows)[item.id := item.vector]
  {
    IntactIds(rows, dim, item.id);
    VectorsPush(rows, RowOf(item, now));
    DecodeEncode(item.vector);
  }

  /** A saved batch reads back bit for bit, and earlier rows win over later ones with the same id. */
  lemma {:induction false} SavedReadsBack(rows: seq<Row>, items: seq<Record>, now: int, dim: nat)
    requires UniqueKeys(rows) && Intact(rows, dim) && Fits(items, dim)
    ensures Vectors(Saved(rows, items, now)) == FirstWins(Vectors(rows), items)
  {
    if items != [] {
      var front := items[..|items| - 1];
      SavedReadsBack(rows, front, now, dim);
      SavedKeepsKeys(rows, front, now, dim);
      OneReadsBack(Saved(rows, front, now), items[|items| - 1], now, dim);
    }
  }

  lemma VectorsPush(rows: seq<Row>, row: Row)
    requires Readable(row)
    ensures Vectors(rows + [row]) == Vectors(rows)[row.id := Decode(row.blob)]
  {
    assert (rows + [row])[..|rows|] == rows;
  }

  // ---------------------------------------------------------------------
  // The streaming scan
  // ---------------------------------------------------------------------

  /** What the scan makes of a row. */
  ghost function Hits(sqrt: real -> real, value: Reading, query: Vector, minScore: real, exclude: set<string>, rows: seq<Row>): seq<Scored> {
    if rows == [] then []
    else
      var row := rows[|rows| - 1];
      var before := Hits(sqrt, value, query, minScore, exclude, rows[..|rows| - 1]);
      if row.id !in exclude && Readable(row) && Cosine(sqrt, query, Values(value, Decode(row.blob))) >= minScore
      then before + [Scored(row.id, Cosine(sqrt, query, Values(value, Decode(row.blob))))]
      else before
  }

  lemma {:induction false} HitsOnly(sqrt: real -> real, value: Reading, query: Vector, minScore: real, exclude: set<string>, rows: seq<Row>, x: Scored)
    requires UniqueKeys(rows)
    ensures x in Hits(sqrt, value, query, minScore, exclude, rows) <==>
            var passing := Passing(StoreScores(sqrt, value, rows, query), minScore, exclude);
            x.id in passing && passing[x.id] == x.score
  {
    if rows != [] {
      var n := |rows| - 1;
      HitsOnly(sqrt, value, query, minScore, exclude, rows[..n], x);
      VectorsOnly(rows[..n], rows[n].id);
    }
  }

  lemma {:induction false} HitsDistinct(sqrt: real -> real, value: Reading, query: Vector, minScore: real, exclude: set<string>, rows: seq<Row>)
    requires UniqueKeys(rows)
    ensures DistinctIds(Hits(sqrt, value, query, minScore, exclude, rows))
  {
    if rows != [] {
      var front, last := rows[..|rows| - 1], rows[|rows| - 1];
      HitsDistinct(sqrt, value, query, minScore, exclude, front);
      var before := Hits(sqrt, value, query, minScore, exclude, front);
      forall x | x in before ensures x.id != last.id {
        HitsOnly(sqrt, value, query, minScore, exclude, front, x);
        VectorsOnly(front, x.id);
      }
    }
  }

  lemma HitsAreCandidates(sqrt: real -> real, value: Reading, query: Vector, minScore: real, exclude: set<string>, rows: seq<Row>)
    requires UniqueKeys(rows)
    ensures multiset(Hits(sqrt, value, query, minScore, exclude, rows)) ==
            Candidates(Passing(StoreScores(sqrt, value, rows, query), minScore, exclude))
  {
    var scores := Passing(StoreScores(sqrt, value, rows, query), minScore, exclude);
    var scan := Hits(sqrt, value, query, minScore, exclude, rows);
    HitsDistinct(sqrt, value, query, minScore, exclude, rows);
    forall x: Scored ensures x in scan <==> x.id in scores && scores[x.id] == x.score {
      HitsOnly(sqrt, value, query, minScore, exclude, rows, x);
    }
    ScanIsCandidates(scan, scores);
  }

  method BestHits(sqrt: real -> real, value: Reading, query: Vector, k: nat, minScore: real, exclude: set<string>, rows: seq<Row>)
    returns (top: seq<Scored>)
    requires k > 0
    ensures Best(multiset(Hits(sqrt, value, query, minScore, exclude, rows)), k, top)
  {
    top := [];
    var buffer: seq<Word> := [];
    for i := 0 to |rows|
      invariant Best(multiset(Hits(sqrt, value, query, minScore, exclude, rows[..i])), k, top)
    {
      assert rows[..i + 1][..i] == rows[..i];
      var row := rows[i];
      if row.id in exclude { continue; }
      var decoded;
      decoded, buffer := BytesToEmbeddingInto(row.blob, []);
      if decoded.Err? { continue; }
      var similarity := Cosine(sqrt, query, Values(value, buffer));
      if similarity < minScore { continue; }
      ghost var seen := multiset(Hits(sqrt, value, query, minScore, exclude, rows[..i]));
      top := PushTopk(top, k, Scored(row.id, similarity), seen);
    }
    assert rows[..|rows|] == rows;
  }

  // ---------------------------------------------------------------------
  // The store
  // ---------------------------------------------------------------------

  /** The rows a full load returns: the unreadable ones are skipped. */
  function Loaded(rows: seq<Row>): seq<StoredEmbedding> {
    if rows == [] then []
    else
      var row := rows[|rows| - 1];
      Loaded(rows[..|rows| - 1]) +
      if Readable(row) then [StoredEmbedding(row.id, row.sessionKey, Decode(row.blob), row.eventType, row.createdAt)] else []
  }

  /** A load returns the rows with whole words, each with its own fields. */
  lemma {:induction false} LoadedFieldByField(rows: seq<Row>, x: StoredEmbedding)
    ensures x in Loaded(rows) <==>
            exists r :: r in rows && |r.blob| % 4 == 0 && x.id == r.id && x.sessionKey == r.sessionKey &&
                        x.vector == Decode(r.blob) && x.eventType == r.eventType && x.createdAt == r.createdAt
  {
    if rows != [] {
      var front, last := rows[..|rows| - 1], rows[|rows| - 1];
      LoadedFieldByField(front, x);
      assert rows == front + [last];
      assert forall r :: r in rows <==> r in front || r == last;
    }
  }

  predicate Newer(x: Row, y: Row) { x.createdAt > y.createdAt }

  /** `ORDER BY created_at DESC LIMIT ?` */
  function Recent(rows: seq<Row>, limit: nat): seq<Row> {
    var sorted := Sorting.Sort(Newer, rows);
    if limit < |sorted| then sorted[..limit] else sorted
  }

  method DecodeRows(rows: seq<Row>) returns (loaded: seq<StoredEmbedding>)
    ensures loaded == Loaded(rows)
  {
    loaded := [];
    for i := 0 to |rows|
      invariant loaded == Loaded(rows[..i])
    {
      assert rows[..i + 1][..i] == rows[..i];
      var row := rows[i];
      var decoded, vector := BytesToEmbeddingInto(row.blob, []);
      if decoded.Err? { continue; }
      loaded := loaded + [StoredEmbedding(row.id, row.sessionKey, vector, row.eventType, row.createdAt)];
    }
    assert rows[..|rows|] == rows;
  }

  lemma {:induction false} UniqueKeysOccurOnce(rows: seq<Row>, x: Row)
    requires UniqueKeys(rows)
    ensures multiset(rows)[x] <= 1
  {
    if rows != [] {
      var front, last := rows[..|rows| - 1], rows[|rows| - 1];
      UniqueKeysOccurOnce(front, x);
      Sorting.LastSplits(rows);
      assert last !in front;
    }
  }

  lemma UniqueKeysPermute(a: seq<Row>, b: seq<Row>)
    requires multiset(a) == multiset(b) && UniqueKeys(b)
    ensures UniqueKeys(a)
  {
    forall i, j | 0 <= i < j < |a| ensures a[i].id != a[j].id {
      assert a[i] in multiset(b) && a[j] in multiset(b);
      UniqueKeysOccurOnce(b, a[i]);
      assert a == a[..j] + a[j..] && a[..j][i] == a[i] && a[j..][0] == a[j];
      assert a[i] in multiset(a[..j]) && a[j] in multiset(a[j..]);
    }
  }

  /** The most recent rows are rows of the table, and none left out is newer. */
  lemma RecentRows(rows: seq<Row>, limit: nat)
    requires UniqueKeys(rows)
    ensures UniqueKeys(Recent(rows, limit)) && |Recent(rows, limit)| == Min(limit, |rows|)
    ensures forall r :: r in Recent(rows, limit) ==> r in rows
    ensures forall r, q :: r in Recent(rows, limit) && q in rows && q !in Recent(rows, limit) ==> r.createdAt >= q.createdAt
  {
    var sorted := Sorting.Sort(Newer, rows);
    Sorting.SortPermutes(Newer, rows);
    Sorting.SortLength(Newer, rows);
    Sorting.SortSorts(Newer, rows);
    UniqueKeysPermute(sorted, rows);
    forall r ensures r in sorted <==> r in rows { assert r in multiset(sorted) <==> r in multiset(rows); }
  }

  lemma VectorsOfPart(part: seq<Row>, rows: seq<Row>, id: string)
    requires UniqueKeys(part) && UniqueKeys(rows) && forall r :: r in part ==> r in rows
    requires id in Vectors(part)
    ensures id in Vectors(rows) && Vectors(rows)[id] == Vectors(part)[id]
  {
    VectorsOnly(part, id);
    var i :| 0 <= i < |part| && part[i].id == id && Readable(part[i]);
    VectorsHave(part, i);
    assert part[i] in rows;
    var j :| 0 <= j < |rows| && rows[j] == part[i];
    VectorsHave(rows, j);
  }

  lemma VectorsOfSame(a: seq<Row>, b: seq<Row>)
    requires UniqueKeys(a) && UniqueKeys(b) && forall r :: r in a <==> r in b
    ensures Vectors(a) == Vectors(b)
  {
    forall id | id in Vectors(a) ensures id in Vectors(b) && Vectors(b)[id] == Vectors(a)[id] { VectorsOfPart(a, b, id); }
    forall id | id in Vectors(b) ensures id in Vectors(a) { VectorsOfPart(b, a, id); }
  }

  class EmbeddingStore {
    const sqrt: real -> real
    const value: Reading
    const dim: nat
    var rows: seq<Row>

    ghost predicate Valid()
      reads this
    {
      dim > 0 && UniqueKeys(rows)
    }

    constructor (sqrt: real -> real, value: Reading, dim: nat)
      requires dim > 0
      ensures Valid() && rows == [] && this.sqrt == sqrt && this.value == value && this.dim == dim
    {
      this.sqrt, this.value, this.dim := sqrt, value, dim;
      rows := [];
    }

    /** One transaction: a vector of the wrong length leaves nothing of the batch behind. */
    method SaveBatch(items: seq<Record>, now: int) returns (r: Result<(), StoreError>)
      requires Valid()
      modifies this
      ensures Valid()
      ensures r.Ok? <==> Fits(items, dim)
      ensures rows == if Fits(items, dim) then Saved(old(rows), items, now) else old(rows)
      ensures r.Err? ==> exists i :: 0 <= i < |items| && Fits(items[..i], dim) && |items[i].vector| != dim &&
                                     r == Err(LengthMismatch(|items[i].vector|, dim))
    {
      var pending := rows;
      for i := 0 to |items|
        invariant rows == old(rows)
        invariant Fits(items[..i], dim) && pending == Saved(rows, items[..i], now)
      {
        var item := items[i];
        if |item.vector| != dim {
          return Err(LengthMismatch(|item.vector|, dim));
        }
        assert items[..i + 1][..i] == items[..i];
        var blob := EmbeddingToBytes(item.vector);
        if !HasId(pending, item.id) {
          pending := pending + [Row(item.id, item.sessionKey, blob, item.eventType, now)];
        }
      }
      assert items[..|items|] == items;
      SavedKeepsKeys(rows, items, now, dim);
      rows := pending;
      r := Ok(());
    }

    method Exists(id: string) returns (found: bool)
      ensures found <==> HasId(rows, id)
    {
      found := HasId(rows, id);
    }

    method LoadAll() returns (loaded: seq<StoredEmbedding>)
      ensures loaded == Loaded(rows)
    {
      loaded := DecodeRows(rows);
    }

    method LoadRecent(limit: nat) returns (loaded: seq<StoredEmbedding>)
      ensures loaded == Loaded(Recent(rows, limit))
    {
      loaded := DecodeRows(Recent(rows, limit));
    }

    /** The k rows most similar to the query among those not excluded and reaching the threshold. */
    method SearchSimilar(query: Vector, k: nat, minScore: real, exclude: set<string>) returns (r: seq<Scored>)
      requires Valid()
      ensures query == [] ==> r == []
      ensures query != [] ==>
                IsTopK(Candidates(Passing(StoreScores(sqrt, value, rows, query), minScore, exclude)), k, r)
    {
      if k == 0 || query == [] {
        return [];
      }
      var top := BestHits(sqrt, value, query, k, minScore, exclude, rows);
      HitsAreCandidates(sqrt, value, query, minScore, exclude, rows);
      SortKeepsBest(multiset(Hits(sqrt, value, query, minScore, exclude, rows)), k, top);
      r := SortDesc(top);
    }
  }
}
