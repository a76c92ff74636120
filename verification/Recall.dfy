// Two-tier recall: an overfetched search of the hot index, a threshold, and a
// cold search for what is still missing.

module Recall {
  import opened Wrappers
  import opened VectorMath
  import opened TopK
  import opened EmbeddingStore
  import opened MemoryIndex

  type Scores = map<string, real>

  /** `(2 * top_k).max(1)` */
  function Overfetch(k: nat): (n: nat)
    ensures n >= 1 && n >= 2 * k && (k > 0 ==> n == 2 * k)
  {
    if 2 * k > 1 then 2 * k else 1
  }

  /** The hits that reach the threshold. */
  function Reaching(s: seq<Scored>, minScore: real): seq<Scored> {
    if s == [] then []
    else Reaching(s[..|s| - 1], minScore) + if s[|s| - 1].score >= minScore then [s[|s| - 1]] else []
  }

  function Ids(s: seq<Scored>): set<string> { set x | x in s :: x.id }

  /** The cold tier sees a query only if it is not empty. */
  ghost function ColdScores(store: EmbeddingStore, query: Vector): Scores
    reads store
  {
    if query == [] then map[] else StoreScores(store.sqrt, store.value, store.rows, query)
  }

  /** How an answer comes about from what the two tiers hold. */
  ghost predicate Recalled(hot: Scores, cold: Scores, k: nat, minScore: real, hotTop: seq<Scored>, extra: seq<Scored>, r: seq<Scored>) {
    var kept := Reaching(hotTop, minScore);
    && IsTopK(Candidates(hot), Overfetch(k), hotTop)
    && (if |kept| < k then IsTopK(Candidates(Passing(cold, minScore, Ids(kept))), k - |kept|, extra) else extra == [])
    && r == SortDesc(kept + extra)[..Min(k, |SortDesc(kept + extra)|)]
  }

  /** The second tier, consulted for as many hits as are still missing. */
  method FillFromCold(store: EmbeddingStore, query: Vector, k: nat, minScore: real, kept: seq<Scored>) returns (extra: seq<Scored>)
    requires store.Valid()
    ensures if |kept| < k
            then IsTopK(Candidates(Passing(ColdScores(store, query), minScore, Ids(kept))), k - |kept|, extra)
            else extra == []
  {
    var needed := if |kept| < k then k - |kept| else 0;
    extra := [];
    if needed > 0 {
      extra := store.SearchSimilar(query, needed, minScore, Ids(kept));
      NothingInNothing(needed, minScore, Ids(kept));
    }
  }

  /** `embedded` is the provider's answer for the query text. */
  method RecallIds<E>(index: MemoryIndex, store: EmbeddingStore, embedded: Result<Vector, E>, k: nat, minScore: real)
    returns (r: Result<seq<Scored>, E>, ghost hotTop: seq<Scored>, ghost extra: seq<Scored>)
    requires index.Valid() && store.Valid()
    ensures r.Ok? <==> embedded.Ok?
    ensures r.Err? ==> r.error == embedded.error
    ensures r.Ok? ==> Recalled(HotScores(index.sqrt, index.Contents(), embedded.value), ColdScores(store, embedded.value),
                               k, minScore, hotTop, extra, r.value)
  {
    if embedded.Err? {
      return Err(embedded.error), [], [];
    }
    var query := embedded.value;
    var hotRaw := index.Search(query, Overfetch(k));
    var results := Reaching(hotRaw, minScore);
    var cold := FillFromCold(store, query, k, minScore, results);
    hotTop, extra := hotRaw, cold;
    results := SortDesc(results + cold);
    r := Ok(results[..Min(k, |results|)]);
    Assembled(HotScores(index.sqrt, index.Contents(), query), ColdScores(store, query), k, minScore, hotTop, extra);
  }

  lemma NothingInNothing(k: nat, minScore: real, exclude: set<string>)
    ensures IsTopK(Candidates(Passing(map[], minScore, exclude)), k, [])
  {
    assert Items(Passing(map[], minScore, exclude)) == {};
  }

  lemma Assembled(hot: Scores, cold: Scores, k: nat, minScore: real, hotTop: seq<Scored>, extra: seq<Scored>)
    requires IsTopK(Candidates(hot), Overfetch(k), hotTop)
    requires var kept := Reaching(hotTop, minScore);
             if |kept| < k then IsTopK(Candidates(Passing(cold, minScore, Ids(kept))), k - |kept|, extra) else extra == []
    ensures var merged := SortDesc(Reaching(hotTop, minScore) + extra);
            Recalled(hot, cold, k, minScore, hotTop, extra, merged[..Min(k, |merged|)])
  {
  }

  // ---------------------------------------------------------------------
  // The threshold
  // ---------------------------------------------------------------------

  lemma {:induction false} ReachingOnly(s: seq<Scored>, minScore: real, x: Scored)
    ensures x in Reaching(s, minScore) <==> x in s && x.score >= minScore
  {
    if s != [] {
      ReachingOnly(s[..|s| - 1], minScore, x);
      assert s == s[..|s| - 1] + [s[|s| - 1]];
    }
  }

  /** On a descending list the threshold cuts off a tail. */
  lemma {:induction false} ReachingIsPrefix(s: seq<Scored>, minScore: real)
    requires Descending(s)
    ensures |Reaching(s, minScore)| <= |s| && Reaching(s, minScore) == s[..|Reaching(s, minScore)|]
    ensures |Reaching(s, minScore)| < |s| ==> s[|Reaching(s, minScore)|].score < minScore
  {
    if s != [] {
      var front := s[..|s| - 1];
      ReachingIsPrefix(front, minScore);
      var n := |Reaching(front, minScore)|;
      if n < |front| { assert s[n] == front[n]; }
    }
  }

  /** Cutting a selection at the threshold selects among the entries that reach it. */
  lemma ThresholdOfSelection(hot: Scores, n: nat, minScore: real, top: seq<Scored>)
    requires Selects(hot, n, top)
    ensures Selects(Passing(hot, minScore, {}), n, Reaching(top, minScore))
  {
    var kept, passing := Reaching(top, minScore), Passing(hot, minScore, {});
    ReachingIsPrefix(top, minScore);
    forall x | x in kept ensures x.id in passing && passing[x.id] == x.score {
      ReachingOnly(top, minScore, x);
    }
    forall id | id in passing
      ensures Scored(id, passing[id]) in kept || (|kept| == n && forall y :: y in kept ==> passing[id] <= y.score)
    {
      ReachingOnly(top, minScore, Scored(id, hot[id]));
      if |kept| < |top| { assert top[|kept|] in top; }
    }
  }

  // ---------------------------------------------------------------------
  // Sorting and cutting the merged hits
  // ---------------------------------------------------------------------

  function AsScores(s: seq<Scored>): Scores {
    if s == [] then map[] else AsScores(s[..|s| - 1])[s[|s| - 1].id := s[|s| - 1].score]
  }

  lemma {:induction false} AsScoresScans(s: seq<Scored>)
    requires DistinctIds(s)
    ensures Scans(s, AsScores(s))
  {
    if s != [] {
      var front, last := s[..|s| - 1], s[|s| - 1];
      AsScoresScans(front);
      assert s == front + [last];
      assert last.id !in Ids(front);
      forall x: Scored ensures x in s <==> x.id in AsScores(s) && AsScores(s)[x.id] == x.score {
        assert x in s <==> x in front || x == last;
        if last.id in AsScores(front) { assert Scored(last.id, AsScores(front)[last.id]) in front; }
      }
    }
  }

  /** Sorting and cutting selects the best of the merged hits. */
  lemma CutSelects(s: seq<Scored>, k: nat)
    requires DistinctIds(s)
    ensures Selects(AsScores(s), k, SortDesc(s)[..Min(k, |SortDesc(s)|)])
  {
    AsScoresScans(s);
    ScanIsCandidates(s, AsScores(s));
    SortAndTakeIsTopK(s, k);
    TopKMeansSelects(AsScores(s), k, SortDesc(s)[..Min(k, |SortDesc(s)|)]);
  }

  /** What a recall keeps from each tier, and what it answers with, entry by entry. */
  lemma RecallSelects(hot: Scores, cold: Scores, k: nat, minScore: real, hotTop: seq<Scored>, extra: seq<Scored>, r: seq<Scored>)
    requires Recalled(hot, cold, k, minScore, hotTop, extra, r)
    ensures var kept := Reaching(hotTop, minScore);
            && Selects(Passing(hot, minScore, {}), Overfetch(k), kept)
            && (|kept| < k ==> Selects(Passing(cold, minScore, Ids(kept)), k - |kept|, extra))
            && DistinctIds(kept + extra)
            && Scans(kept + extra, AsScores(kept + extra))
            && Selects(AsScores(kept + extra), k, r)
  {
    var kept := Reaching(hotTop, minScore);
    TopKMeansSelects(hot, Overfetch(k), hotTop);
    ThresholdOfSelection(hot, Overfetch(k), minScore, hotTop);
    if |kept| < k {
      TopKMeansSelects(Passing(cold, minScore, Ids(kept)), k - |kept|, extra);
      KeepApart(kept, extra);
    } else {
      assert kept + extra == kept;
    }
    CutSelects(kept + extra, k);
    AsScoresScans(kept + extra);
  }

  lemma KeepApart(kept: seq<Scored>, extra: seq<Scored>)
    requires DistinctIds(kept) && DistinctIds(extra) && forall x :: x in extra ==> x.id !in Ids(kept)
    ensures DistinctIds(kept + extra)
  {
    var all := kept + extra;
    forall i, j | 0 <= i < j < |all| ensures all[i].id != all[j].id {
      if i < |kept| <= j {
        assert all[i] in kept && all[j] in extra;
      }
    }
  }

  // ---------------------------------------------------------------------
  // What every answer satisfies
  // ---------------------------------------------------------------------

  /** At most k distinct ids in descending order, all at or above the threshold and scored by the tier they came from. */
  lemma RecallIsSound(hot: Scores, cold: Scores, k: nat, minScore: real, hotTop: seq<Scored>, extra: seq<Scored>, r: seq<Scored>)
    requires Recalled(hot, cold, k, minScore, hotTop, extra, r)
    ensures |r| <= k && DistinctIds(r) && Descending(r)
    ensures forall x :: x in r ==>
              && x.score >= minScore
              && ((x.id in hot && hot[x.id] == x.score) || (x.id in cold && cold[x.id] == x.score))
  {
    RecallSelects(hot, cold, k, minScore, hotTop, extra, r);
    var kept := Reaching(hotTop, minScore);
    forall x | x in r
      ensures x.score >= minScore
      ensures (x.id in hot && hot[x.id] == x.score) || (x.id in cold && cold[x.id] == x.score)
    {
      assert x in kept + extra;
      if x in kept { HitOfTier(hot, minScore, {}, Overfetch(k), kept, x); }
      if x in extra { HitOfTier(cold, minScore, Ids(kept), k - |kept|, extra, x); }
    }
  }

  lemma HitOfTier(scores: Scores, minScore: real, exclude: set<string>, n: nat, hits: seq<Scored>, x: Scored)
    requires Selects(Passing(scores, minScore, exclude), n, hits) && x in hits
    ensures x.id in scores && scores[x.id] == x.score && x.score >= minScore
  {
  }

  /** When the cold store is consulted, every hot entry that passes the threshold is already in the answer. */
  lemma ColdOnlyWhenHotIsExhausted(hot: Scores, cold: Scores, k: nat, minScore: real, hotTop: seq<Scored>, extra: seq<Scored>, r: seq<Scored>)
    requires Recalled(hot, cold, k, minScore, hotTop, extra, r) && |Reaching(hotTop, minScore)| < k
    ensures forall id :: id in hot && hot[id] >= minScore ==> Scored(id, hot[id]) in Reaching(hotTop, minScore)
    ensures forall x :: x in r <==> x in Reaching(hotTop, minScore) || x in extra
  {
    RecallSelects(hot, cold, k, minScore, hotTop, extra, r);
    var kept := Reaching(hotTop, minScore);
    forall id | id in hot && hot[id] >= minScore ensures Scored(id, hot[id]) in kept {
      assert id in Passing(hot, minScore, {});
    }
    NothingCut(kept + extra, k);
  }

  lemma NothingCut(s: seq<Scored>, k: nat)
    requires |s| <= k
    ensures forall x :: x in SortDesc(s)[..Min(k, |SortDesc(s)|)] <==> x in s
  {
    SortPermutes(s);
    assert |SortDesc(s)| == |multiset(SortDesc(s))| == |multiset(s)|;
    forall x ensures x in SortDesc(s) <==> x in s {
      assert x in multiset(SortDesc(s)) <==> x in multiset(s);
    }
  }

  /** A hot index that covers the store answers with the exact global top-k. */
  lemma ExactWhenHotCovers(hot: Scores, cold: Scores, k: nat, minScore: real, hotTop: seq<Scored>, extra: seq<Scored>, r: seq<Scored>)
    requires Recalled(hot, cold, k, minScore, hotTop, extra, r)
    requires forall id :: id in cold ==> id in hot && hot[id] == cold[id]
    ensures IsTopK(Candidates(Passing(hot, minScore, {})), k, r)
  {
    RecallSelects(hot, cold, k, minScore, hotTop, extra, r);
    var kept, passing := Reaching(hotTop, minScore), Passing(hot, minScore, {});
    if |kept| < k {
      ColdOnlyWhenHotIsExhausted(hot, cold, k, minScore, hotTop, extra, r);
      NothingNewInCold(hot, cold, k, minScore, kept, extra);
    } else {
      assert kept + extra == kept;
      HotOnly(passing, k, Overfetch(k), kept, r);
    }
    SelectsMeansTopK(passing, k, r);
  }

  lemma NothingNewInCold(hot: Scores, cold: Scores, k: nat, minScore: real, kept: seq<Scored>, extra: seq<Scored>)
    requires forall id :: id in cold ==> id in hot && hot[id] == cold[id]
    requires forall id :: id in hot && hot[id] >= minScore ==> Scored(id, hot[id]) in kept
    requires Selects(Passing(cold, minScore, Ids(kept)), k, extra)
    ensures forall x :: x !in extra
  {
    forall id | id in hot && hot[id] >= minScore ensures id in Ids(kept) {
      assert Scored(id, hot[id]) in kept;
    }
    assert forall x :: x in extra ==> x.id in Ids(kept);
  }

  /** The best k of the best n are the best k. */
  lemma HotOnly(scores: Scores, k: nat, n: nat, kept: seq<Scored>, r: seq<Scored>)
    requires Selects(scores, n, kept) && k <= |kept|
    requires Scans(kept, AsScores(kept)) && Selects(AsScores(kept), k, r)
    ensures Selects(scores, k, r) && |r| == k
  {
    ScanIsCandidates(kept, AsScores(kept));
    SelectsMeansTopK(AsScores(kept), k, r);
    assert |r| == Min(k, |multiset(kept)|) == k;
    forall id | id in scores
      ensures Scored(id, scores[id]) in r || (|r| == k && forall y :: y in r ==> scores[id] <= y.score)
    {
      var x := Scored(id, scores[id]);
      if x in kept { assert id in AsScores(kept); }
    }
  }
}
