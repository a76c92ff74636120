// When two-tier recall answers with the global top-k of both tiers together.

module RecallExactness {
  import opened VectorMath
  import Sorting
  import opened TopK
  import opened EmbeddingStore
  import opened MemoryIndex
  import opened Recall

  /** An id held by both tiers has the same score in both. */
  ghost predicate Agree(hot: Scores, cold: Scores) {
    forall id :: id in hot && id in cold ==> hot[id] == cold[id]
  }

  function Missing(k: nat, n: nat): nat { if n < k then k - n else 0 }

  function Above(scores: Scores, bound: real): set<string> { set id | id in scores && scores[id] > bound }

  ghost predicate FewAbove(hot: Scores, cold: Scores, k: nat, m: nat) {
    forall id :: id in hot && |Above(hot, hot[id])| < k ==> |Above(cold, hot[id])| <= m
  }

  /**
   * No passing hot hit that is among the best k of its tier is beaten by more
   * cold-only hits than the hot tier leaves room for.
   */
  ghost predicate NothingCrowdedOut(hot: Scores, cold: Scores, k: nat, minScore: real) {
    var passing := Passing(hot, minScore, {});
    FewAbove(passing, Passing(cold, minScore, hot.Keys), k, Missing(k, |passing|))
  }

  // ---------------------------------------------------------------------
  // Counting
  // ---------------------------------------------------------------------

  lemma {:induction false} IdsSize(s: seq<Scored>)
    requires DistinctIds(s)
    ensures |Ids(s)| == |s|
  {
    if s != [] {
      var front, last := s[..|s| - 1], s[|s| - 1];
      IdsSize(front);
      assert s == front + [last];
      assert Ids(s) == Ids(front) + {last.id};
      assert last.id !in Ids(front);
    }
  }

  lemma Smaller(a: set<string>, b: set<string>)
    requires a <= b
    ensures |a| <= |b|
  {
    assert b == a + (b - a);
  }

  lemma ScanSize(scan: seq<Scored>, scores: Scores)
    requires Scans(scan, scores)
    ensures |scan| == |scores|
  {
    IdsSize(scan);
    forall id | id in scores ensures id in Ids(scan) { assert Scored(id, scores[id]) in scan; }
    assert Ids(scan) == scores.Keys;
  }

  /** Whoever is left out is beaten by a full selection. */
  lemma LeftOutHasManyAbove(scores: Scores, m: nat, top: seq<Scored>, id: string, bound: real)
    requires Selects(scores, m, top)
    requires id in scores && scores[id] > bound && Scored(id, scores[id]) !in top
    ensures |Above(scores, bound)| > m
  {
    IdsSize(top);
    assert id !in Ids(top);
    Smaller(Ids(top) + {id}, Above(scores, bound));
  }

  /** If nobody above the bound is left out, there are few of them. */
  lemma NoneLeftOutMeansFewAbove(scores: Scores, m: nat, top: seq<Scored>, bound: real)
    requires Selects(scores, m, top)
    requires forall id :: id in scores && scores[id] > bound ==> Scored(id, scores[id]) in top
    ensures |Above(scores, bound)| <= m
  {
    IdsSize(top);
    forall id | id in Above(scores, bound) ensures id in Ids(top) {
      assert Scored(id, scores[id]) in top;
    }
    Smaller(Above(scores, bound), Ids(top));
  }

  lemma SelectedHasFewAbove(scores: Scores, k: nat, top: seq<Scored>, y: Scored)
    requires Selects(scores, k, top) && y in top
    ensures |Above(scores, y.score)| < k
  {
    IdsSize(top);
    forall id | id in Above(scores, y.score) ensures id in Ids(top) - {y.id} {
      assert Scored(id, scores[id]) in top;
    }
    Smaller(Above(scores, y.score), Ids(top) - {y.id});
  }

  lemma FewAboveIsReached(scores: Scores, k: nat, top: seq<Scored>, bound: real) returns (z: Scored)
    requires Selects(scores, k, top) && |top| == k
    requires |Above(scores, bound)| < k
    ensures z in top && z.score <= bound
  {
    IdsSize(top);
    if Ids(top) <= Above(scores, bound) {
      Smaller(Ids(top), Above(scores, bound));
      assert false;
    }
    var id :| id in Ids(top) && id !in Above(scores, bound);
    z :| z in top && z.id == id;
  }

  // ---------------------------------------------------------------------
  // The two cases
  // ---------------------------------------------------------------------

  /** The hot tier is exhausted and the cold tier fills what is missing. */
  lemma ExactWhenFilling(hot: Scores, cold: Scores, all: Scores, k: nat, kept: seq<Scored>, extra: seq<Scored>, r: seq<Scored>)
    requires hot.Keys !! cold.Keys && all == hot + cold
    requires Scans(kept, hot) && |kept| < k && Selects(cold, k - |kept|, extra)
    requires DistinctIds(r) && Descending(r) && |r| == |kept| + |extra|
    requires forall x :: x in r <==> x in kept || x in extra
    ensures Selects(all, k, r) <==> FewAbove(hot, cold, k, Missing(k, |hot|))
  {
    ScanSize(kept, hot);
    if Selects(all, k, r) {
      ExactMeansFewAbove(hot, cold, all, k, kept, extra, r);
    }
    if FewAbove(hot, cold, k, Missing(k, |hot|)) {
      FewAboveMeansExact(hot, cold, all, k, kept, extra, r);
    }
  }

  lemma ExactMeansFewAbove(hot: Scores, cold: Scores, all: Scores, k: nat, kept: seq<Scored>, extra: seq<Scored>, r: seq<Scored>)
    requires hot.Keys !! cold.Keys && all == hot + cold
    requires Scans(kept, hot) && |kept| < k && Selects(cold, k - |kept|, extra)
    requires forall x :: x in r <==> x in kept || x in extra
    requires Selects(all, k, r)
    ensures FewAbove(hot, cold, k, k - |kept|)
  {
    forall id | id in hot ensures |Above(cold, hot[id])| <= k - |kept| {
      assert Scored(id, hot[id]) in r;
      forall other | other in cold && cold[other] > hot[id] ensures Scored(other, cold[other]) in extra {
        assert other in all && all[other] == cold[other];
      }
      NoneLeftOutMeansFewAbove(cold, k - |kept|, extra, hot[id]);
    }
  }

  lemma FewAboveMeansExact(hot: Scores, cold: Scores, all: Scores, k: nat, kept: seq<Scored>, extra: seq<Scored>, r: seq<Scored>)
    requires hot.Keys !! cold.Keys && all == hot + cold
    requires Scans(kept, hot) && |kept| < k && |kept| == |hot| && Selects(cold, k - |kept|, extra)
    requires DistinctIds(r) && Descending(r) && |r| == |kept| + |extra|
    requires forall x :: x in r <==> x in kept || x in extra
    requires FewAbove(hot, cold, k, k - |kept|)
    ensures Selects(all, k, r)
  {
    forall id | id in all
      ensures Scored(id, all[id]) in r || (|r| == k && forall y :: y in r ==> all[id] <= y.score)
    {
      if id in cold && Scored(id, cold[id]) !in extra {
        forall y | y in r ensures cold[id] <= y.score {
          if y in kept && cold[id] > y.score {
            LeftOutHasManyAbove(cold, k - |kept|, extra, id, y.score);
            Smaller(Above(hot, y.score), hot.Keys);
          }
        }
      } else if id in hot {
        assert Scored(id, hot[id]) in kept;
      }
    }
  }

  /** The hot tier alone provides k hits. */
  lemma ExactWithoutCold(hot: Scores, cold: Scores, all: Scores, k: nat, r: seq<Scored>)
    requires hot.Keys !! cold.Keys && all == hot + cold
    requires Selects(hot, k, r) && |r| == k
    ensures Selects(all, k, r) <==> FewAbove(hot, cold, k, 0)
  {
    if Selects(all, k, r) {
      forall id | id in hot && |Above(hot, hot[id])| < k ensures |Above(cold, hot[id])| <= 0 {
        var z := FewAboveIsReached(hot, k, r, hot[id]);
        NoneAbove(hot, cold, all, k, r, z, hot[id]);
      }
    }
    if FewAbove(hot, cold, k, 0) {
      forall id | id in cold ensures forall y :: y in r ==> cold[id] <= y.score {
        forall y | y in r ensures cold[id] <= y.score {
          SelectedHasFewAbove(hot, k, r, y);
          assert |Above(cold, hot[y.id])| <= 0;
          assert id !in Above(cold, y.score);
        }
      }
    }
  }

  lemma NoneAbove(hot: Scores, cold: Scores, all: Scores, k: nat, r: seq<Scored>, z: Scored, bound: real)
    requires hot.Keys !! cold.Keys && all == hot + cold
    requires Selects(hot, k, r) && Selects(all, k, r) && z in r && z.score <= bound
    ensures Above(cold, bound) == {}
  {
    forall id | id in cold ensures cold[id] <= bound {
      assert id in all && Scored(id, all[id]) !in r;
    }
  }

  // ---------------------------------------------------------------------
  // The theorem
  // ---------------------------------------------------------------------

  lemma UnionSplits(hot: Scores, cold: Scores, minScore: real)
    requires Agree(hot, cold)
    ensures Passing(hot + cold, minScore, {}) == Passing(hot, minScore, {}) + Passing(cold, minScore, hot.Keys)
    ensures Passing(hot, minScore, {}).Keys !! Passing(cold, minScore, hot.Keys).Keys
  {
  }

  /** Excluding the kept hits excludes as much of the cold tier as excluding all hot ids would. */
  lemma ColdIsColdOnly(hot: Scores, cold: Scores, minScore: real, kept: seq<Scored>)
    requires Agree(hot, cold) && Scans(kept, Passing(hot, minScore, {}))
    ensures Passing(cold, minScore, Ids(kept)) == Passing(cold, minScore, hot.Keys)
  {
    forall id | id in cold && cold[id] >= minScore ensures id in Ids(kept) <==> id in hot {
      if id in hot { assert Scored(id, hot[id]) in kept; }
    }
  }

  /** The answer is the global top-k exactly when no better cold hit is crowded out by a hot one. */
  lemma ExactIffNothingCrowdedOut(hot: Scores, cold: Scores, k: nat, minScore: real, hotTop: seq<Scored>, extra: seq<Scored>, r: seq<Scored>)
    requires Recalled(hot, cold, k, minScore, hotTop, extra, r) && Agree(hot, cold)
    ensures IsTopK(Candidates(Passing(hot + cold, minScore, {})), k, r) <==> NothingCrowdedOut(hot, cold, k, minScore)
  {
    var all := Passing(hot + cold, minScore, {});
    if |Reaching(hotTop, minScore)| < k {
      FillingCase(hot, cold, k, minScore, hotTop, extra, r);
    } else {
      FullCase(hot, cold, k, minScore, hotTop, extra, r);
    }
    if Selects(all, k, r) { SelectsMeansTopK(all, k, r); }
    if IsTopK(Candidates(all), k, r) { TopKMeansSelects(all, k, r); }
  }

  lemma FillingCase(hot: Scores, cold: Scores, k: nat, minScore: real, hotTop: seq<Scored>, extra: seq<Scored>, r: seq<Scored>)
    requires Recalled(hot, cold, k, minScore, hotTop, extra, r) && Agree(hot, cold)
    requires |Reaching(hotTop, minScore)| < k
    ensures Selects(Passing(hot + cold, minScore, {}), k, r) <==> NothingCrowdedOut(hot, cold, k, minScore)
  {
    var kept, h := Reaching(hotTop, minScore), Passing(hot, minScore, {});
    RecallSelects(hot, cold, k, minScore, hotTop, extra, r);
    ColdOnlyWhenHotIsExhausted(hot, cold, k, minScore, hotTop, extra, r);
    assert Scans(kept, h);
    ColdIsColdOnly(hot, cold, minScore, kept);
    UnionSplits(hot, cold, minScore);
    NothingDropped(kept + extra, k, r);
    ExactWhenFilling(h, Passing(cold, minScore, hot.Keys), Passing(hot + cold, minScore, {}), k, kept, extra, r);
  }

  lemma NothingDropped(s: seq<Scored>, k: nat, r: seq<Scored>)
    requires |s| <= k && r == SortDesc(s)[..Min(k, |SortDesc(s)|)]
    ensures |r| == |s|
  {
    SortPermutes(s);
    assert |SortDesc(s)| == |multiset(SortDesc(s))| == |multiset(s)| == |s|;
  }

  lemma FullCase(hot: Scores, cold: Scores, k: nat, minScore: real, hotTop: seq<Scored>, extra: seq<Scored>, r: seq<Scored>)
    requires Recalled(hot, cold, k, minScore, hotTop, extra, r) && Agree(hot, cold)
    requires |Reaching(hotTop, minScore)| >= k
    ensures Selects(Passing(hot + cold, minScore, {}), k, r) <==> NothingCrowdedOut(hot, cold, k, minScore)
  {
    var kept, h := Reaching(hotTop, minScore), Passing(hot, minScore, {});
    RecallSelects(hot, cold, k, minScore, hotTop, extra, r);
    assert kept + extra == kept;
    HotOnly(h, k, Overfetch(k), kept, r);
    IdsSize(kept);
    Smaller(Ids(kept), h.Keys);
    UnionSplits(hot, cold, minScore);
    ExactWithoutCold(h, Passing(cold, minScore, hot.Keys), Passing(hot + cold, minScore, {}), k, r);
  }

  const PARTIAL_HOT: Scores := map["a" := 0.4]
  const FULL_COLD: Scores := map["a" := 0.4, "b" := 0.9, "c" := 0.8]

  /** A partial hot tier can hide a better cold hit: 0.4 takes the place of 0.8. */
  lemma HotHitCrowdsOutBetterColdHit()
    ensures var r := [Scored("b", 0.9), Scored("a", 0.4)];
            && Recalled(PARTIAL_HOT, FULL_COLD, 2, 0.3, [Scored("a", 0.4)], [Scored("b", 0.9)], r)
            && !IsTopK(Candidates(Passing(PARTIAL_HOT + FULL_COLD, 0.3, {})), 2, r)
  {
    var a, b := Scored("a", 0.4), Scored("b", 0.9);
    HotSearchFinds(a);
    ColdSearchFinds(b);
    TwoHitsRecalled(PARTIAL_HOT, FULL_COLD, 0.3, a, b);
    MissesBetterHit(a, b);
  }

  lemma TwoHitsRecalled(hot: Scores, cold: Scores, minScore: real, a: Scored, b: Scored)
    requires minScore <= a.score < b.score
    requires IsTopK(Candidates(hot), Overfetch(2), [a])
    requires IsTopK(Candidates(Passing(cold, minScore, {a.id})), 1, [b])
    ensures Recalled(hot, cold, 2, minScore, [a], [b], [b, a])
  {
    KeepsOne(a, minScore);
    assert Ids([a]) == {a.id};
    SortsTwo(a, b);
  }

  lemma HotSearchFinds(a: Scored)
    requires a == Scored("a", 0.4)
    ensures IsTopK(Candidates(PARTIAL_HOT), Overfetch(2), [a])
  {
    SelectsMeansTopK(PARTIAL_HOT, Overfetch(2), [a]);
  }

  lemma ColdSearchFinds(b: Scored)
    requires b == Scored("b", 0.9)
    ensures IsTopK(Candidates(Passing(FULL_COLD, 0.3, {"a"})), 1, [b])
  {
    SelectsMeansTopK(Passing(FULL_COLD, 0.3, {"a"}), 1, [b]);
  }

  lemma MissesBetterHit(a: Scored, b: Scored)
    requires a == Scored("a", 0.4) && b == Scored("b", 0.9)
    ensures !IsTopK(Candidates(Passing(PARTIAL_HOT + FULL_COLD, 0.3, {})), 2, [b, a])
  {
    var all := Passing(PARTIAL_HOT + FULL_COLD, 0.3, {});
    assert "c" in all && all["c"] == 0.8;
    assert Scored("c", 0.8) !in [b, a] && a in [b, a];
    if IsTopK(Candidates(all), 2, [b, a]) {
      TopKMeansSelects(all, 2, [b, a]);
    }
  }

  lemma KeepsOne(a: Scored, minScore: real)
    requires a.score >= minScore
    ensures Reaching([a], minScore) == [a]
  {
    assert [a][..0] == [];
  }

  lemma SortsTwo(a: Scored, b: Scored)
    requires a.score < b.score
    ensures SortDesc([a] + [b]) == [b, a]
  {
    Sorting.SortsTwo(Higher, a, b);
    assert [a] + [b] == [a, b];
  }

  // ---------------------------------------------------------------------
  // The tiers of the running system
  // ---------------------------------------------------------------------

  /** Whatever both tiers hold is the same vector, normalised in the index. */
  ghost predicate SameVectors(sqrt: real -> real, value: Reading, entries: Entries, rows: seq<Row>) {
    forall id :: id in entries && id in Vectors(rows) ==> entries[id] == Normalized(sqrt, Values(value, Vectors(rows)[id]))
  }

  /** Tiers with the same vectors score alike, so hits from both can be ranked together. */
  lemma TiersScoreAlike(sqrt: real -> real, value: Reading, entries: Entries, rows: seq<Row>, query: Vector)
    requires IsSqrt(sqrt) && SameVectors(sqrt, value, entries, rows)
    ensures Agree(HotScores(sqrt, entries, query), StoreScores(sqrt, value, rows, query))
  {
    var hot, cold := HotScores(sqrt, entries, query), StoreScores(sqrt, value, rows, query);
    forall id | id in hot && id in cold ensures hot[id] == cold[id] {
      NormalizedDotIsCosine(sqrt, query, Values(value, Vectors(rows)[id]));
    }
  }

  lemma FullTiersScoreTheSame(sqrt: real -> real, value: Reading, entries: Entries, rows: seq<Row>, query: Vector)
    requires IsSqrt(sqrt) && SameVectors(sqrt, value, entries, rows)
    requires entries.Keys == Vectors(rows).Keys && forall id :: id in entries ==> |entries[id]| == |query|
    ensures HotScores(sqrt, entries, query) == StoreScores(sqrt, value, rows, query)
  {
    TiersScoreAlike(sqrt, value, entries, rows, query);
  }

  /**
   * When the index holds every readable row of the store, recall answers with
   * the global top-k by cosine similarity of the raw vectors.
   */
  lemma FullIndexIsExact(sqrt: real -> real, value: Reading, entries: Entries, rows: seq<Row>, query: Vector, k: nat,
                         minScore: real, hotTop: seq<Scored>, extra: seq<Scored>, r: seq<Scored>)
    requires IsSqrt(sqrt) && SameVectors(sqrt, value, entries, rows)
    requires entries.Keys == Vectors(rows).Keys && forall id :: id in entries ==> |entries[id]| == |query|
    requires Recalled(HotScores(sqrt, entries, query), StoreScores(sqrt, value, rows, query), k, minScore, hotTop, extra, r)
    ensures IsTopK(Candidates(Passing(StoreScores(sqrt, value, rows, query), minScore, {})), k, r)
  {
    var hot, cold := HotScores(sqrt, entries, query), StoreScores(sqrt, value, rows, query);
    FullTiersScoreTheSame(sqrt, value, entries, rows, query);
    ExactWhenHotCovers(hot, cold, k, minScore, hotTop, extra, r);
  }
}
