// Indexing and recall together: what a user finds after any run of the indexer.

module SemanticRecall {
  import opened Wrappers
  import opened VectorMath
  import opened TopK
  import opened EmbeddingStore
  import opened MemoryIndex
  import opened Recall
  import opened RecallExactness
  import opened Indexer

  lemma PartHasSameVectors(s: Setup, t: Tiers)
    requires PartOf(s, t)
    ensures SameVectors(s.sqrt, s.value, t.entries, t.rows)
    ensures t.entries.Keys <= Vectors(t.rows).Keys
    ensures forall id :: id in t.entries ==> |t.entries[id]| == s.storeDim
  {
    forall id | id in t.entries ensures |t.entries[id]| == s.storeDim {
      IntactIds(t.rows, s.storeDim, id);
    }
  }

  /** What an answer over the two tiers is to be compared with: the stored vectors that reach the threshold. */
  ghost function Wanted(s: Setup, t: Tiers, query: Vector, minScore: real): multiset<Scored> {
    Candidates(Passing(StoreScores(s.sqrt, s.value, t.rows, query), minScore, {}))
  }

  ghost predicate Answered(s: Setup, t: Tiers, query: Vector, k: nat, minScore: real,
                           hotTop: seq<Scored>, extra: seq<Scored>, r: seq<Scored>) {
    Recalled(HotScores(s.sqrt, t.entries, query), StoreScores(s.sqrt, s.value, t.rows, query), k, minScore, hotTop, extra, r)
  }

  ghost predicate HotHidesNothing(s: Setup, t: Tiers, query: Vector, k: nat, minScore: real) {
    NothingCrowdedOut(HotScores(s.sqrt, t.entries, query), StoreScores(s.sqrt, s.value, t.rows, query), k, minScore)
  }

  lemma HotIsPartOfCold(s: Setup, t: Tiers, query: Vector)
    requires IsSqrt(s.sqrt) && PartOf(s, t)
    ensures var hot, cold := HotScores(s.sqrt, t.entries, query), StoreScores(s.sqrt, s.value, t.rows, query);
            Agree(hot, cold) && hot + cold == cold
  {
    PartHasSameVectors(s, t);
    TiersScoreAlike(s.sqrt, s.value, t.entries, t.rows, query);
  }

  /**
   * When the index holds some of the stored vectors, recall is the exact top-k
   * of the store, by cosine similarity, exactly when no better cold hit is
   * crowded out by a hot one.
   */
  lemma PartialIndexIsExactIff(s: Setup, t: Tiers, query: Vector, k: nat, minScore: real,
                               hotTop: seq<Scored>, extra: seq<Scored>, r: seq<Scored>)
    requires Answered(s, t, query, k, minScore, hotTop, extra, r)
    requires IsSqrt(s.sqrt) && PartOf(s, t)
    ensures IsTopK(Wanted(s, t, query, minScore), k, r) <==> HotHidesNothing(s, t, query, k, minScore)
  {
    var hot, cold := HotScores(s.sqrt, t.entries, query), StoreScores(s.sqrt, s.value, t.rows, query);
    HotIsPartOfCold(s, t, query);
    ExactIffNothingCrowdedOut(hot, cold, k, minScore, hotTop, extra, r);
  }

  lemma FullTiersAnswerExactly(s: Setup, t: Tiers, query: Vector, k: nat, minScore: real,
                               hotTop: seq<Scored>, extra: seq<Scored>, r: seq<Scored>)
    requires Answered(s, t, query, k, minScore, hotTop, extra, r)
    requires IsSqrt(s.sqrt) && InStep(s, t) && |query| == s.storeDim
    ensures IsTopK(Wanted(s, t, query, minScore), k, r)
  {
    PartHasSameVectors(s, t);
    FullIndexIsExact(s.sqrt, s.value, t.entries, t.rows, query, k, minScore, hotTop, extra, r);
  }

  /**
   * After any run of the indexer, failed batches included, from an index loaded
   * with any part of the store, recall is exact exactly when no better cold hit
   * is crowded out; and it is exact without condition when all was loaded.
   */
  lemma RecallAfterAnyRun(s: Setup, start: Tiers, inputs: seq<Input>, query: Vector, k: nat, minScore: real,
                          hotTop: seq<Scored>, extra: seq<Scored>, r: seq<Scored>)
    requires RunOk(inputs) && Answered(s, Run(s, start, inputs).tiers, query, k, minScore, hotTop, extra, r)
    requires IsSqrt(s.sqrt) && PartOf(s, start)
    ensures var t := Run(s, start, inputs).tiers;
            && (IsTopK(Wanted(s, t, query, minScore), k, r) <==> HotHidesNothing(s, t, query, k, minScore))
            && (InStep(s, start) && |query| == s.storeDim ==> IsTopK(Wanted(s, t, query, minScore), k, r))
  {
    RunStaysInStep(s, start, inputs);
    var t := Run(s, start, inputs).tiers;
    PartialIndexIsExactIff(s, t, query, k, minScore, hotTop, extra, r);
    if InStep(s, start) && |query| == s.storeDim {
      FullTiersAnswerExactly(s, t, query, k, minScore, hotTop, extra, r);
    }
  }

  /** The life of the program: a cold start of the index, limited or not, and then any run of the indexer. */
  lemma RecallAfterColdStart(s: Setup, rows: seq<Row>, limit: Option<nat>, inputs: seq<Input>, query: Vector, k: nat, minScore: real,
                             hotTop: seq<Scored>, extra: seq<Scored>, r: seq<Scored>)
    requires IsSqrt(s.sqrt) && s.indexDim == s.storeDim && UniqueKeys(rows) && Intact(rows, s.storeDim) && RunOk(inputs)
    requires var start := Tiers(rows, Rebuilt(s, map[], Loaded(Chosen(rows, limit))));
             Answered(s, Run(s, start, inputs).tiers, query, k, minScore, hotTop, extra, r)
    ensures var t := Run(s, Tiers(rows, Rebuilt(s, map[], Loaded(Chosen(rows, limit)))), inputs).tiers;
            && (IsTopK(Wanted(s, t, query, minScore), k, r) <==> HotHidesNothing(s, t, query, k, minScore))
            && ((limit.None? || limit.value >= |rows|) && |query| == s.storeDim ==> IsTopK(Wanted(s, t, query, minScore), k, r))
  {
    ColdStartIsPart(s, rows, limit);
    var start := Tiers(rows, Rebuilt(s, map[], Loaded(Chosen(rows, limit))));
    RecallAfterAnyRun(s, start, inputs, query, k, minScore, hotTop, extra, r);
  }

  /** The same for the objects: a recall beside a working indexer. */
  lemma LiveRecallIsExact(indexer: EmbeddingIndexer, query: Vector, k: nat, minScore: real,
                          hotTop: seq<Scored>, extra: seq<Scored>, r: seq<Scored>)
    requires indexer.Valid() && PartOf(indexer.s, indexer.View().tiers)
    requires IsSqrt(indexer.store.sqrt) && |query| == indexer.store.dim
    requires Recalled(HotScores(indexer.index.sqrt, indexer.index.Contents(), query), ColdScores(indexer.store, query),
                      k, minScore, hotTop, extra, r)
    ensures var s, t := indexer.s, indexer.View().tiers;
            && (IsTopK(Wanted(s, t, query, minScore), k, r) <==> HotHidesNothing(s, t, query, k, minScore))
            && (InStep(s, t) ==> IsTopK(Wanted(s, t, query, minScore), k, r))
  {
    var s, t := indexer.s, indexer.View().tiers;
    PartialIndexIsExactIff(s, t, query, k, minScore, hotTop, extra, r);
    if InStep(s, t) { FullTiersAnswerExactly(s, t, query, k, minScore, hotTop, extra, r); }
  }
}
