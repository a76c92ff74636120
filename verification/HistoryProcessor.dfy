// Token-budget truncation of a conversation history.

module HistoryProcessor {
  /** `cachedTokens` is the count stored at write time, 0 when there is none. */
  datatype Event = Event(id: nat, content: string, cachedTokens: nat)

  /** A token budget of 0 means unlimited. */
  datatype Config = Config(maxEvents: nat, tokenBudget: nat, recentKeep: nat)

  datatype Processed = Processed(
    events: seq<Event>, estimatedTokens: nat, filteredCount: nat, evicted: seq<Event>)

  /** The tokenizer is a parameter: any function from text to a count. */
  type Tokenizer = string -> nat

  function TokenLen(count: Tokenizer, event: Event): nat {
    if event.cachedTokens > 0 then event.cachedTokens else count(event.content)
  }

  function Tokens(count: Tokenizer, events: seq<Event>): nat {
    if events == [] then 0 else TokenLen(count, events[0]) + Tokens(count, events[1..])
  }

  /** The first index that `maxEvents` lets in. */
  function Start(config: Config, n: nat): nat {
    if n <= config.maxEvents then 0 else n - config.maxEvents
  }

  /** The first index that is kept whatever it costs. */
  function Protected(config: Config, n: nat): nat {
    var start := Start(config, n);
    if n - start <= config.recentKeep then start else n - config.recentKeep
  }

  /** Keeping everything from `k` on respects the limits. */
  ghost predicate Admissible(config: Config, count: Tokenizer, history: seq<Event>, k: nat) {
    && Start(config, |history|) <= k <= Protected(config, |history|)
    && (k == Protected(config, |history|) || config.tokenBudget == 0 ||
        Tokens(count, history[k..]) <= config.tokenBudget)
  }

  /**
   * The result keeps the longest admissible suffix; what is dropped, evicted
   * and kept is the input, in order; and the two numbers describe it.
   */
  ghost predicate Longest(config: Config, count: Tokenizer, history: seq<Event>, r: Processed) {
    && |r.events| <= |history|
    && var k := |history| - |r.events|;
       var start := Start(config, |history|);
       && Admissible(config, count, history, k)
       && (forall j :: 0 <= j < k ==> !Admissible(config, count, history, j))
       && history == history[..start] + r.evicted + r.events
       && r.estimatedTokens == Tokens(count, r.events)
       && r.filteredCount == k
  }

  lemma TokensFrom(count: Tokenizer, history: seq<Event>, k: nat)
    requires k < |history|
    ensures Tokens(count, history[k..]) == TokenLen(count, history[k]) + Tokens(count, history[k + 1..])
  {
    assert history[k..][1..] == history[k + 1..];
  }

  /** A longer suffix never costs less. */
  lemma {:induction false} TokensMonotone(count: Tokenizer, history: seq<Event>, j: nat, k: nat)
    requires j <= k <= |history|
    ensures Tokens(count, history[k..]) <= Tokens(count, history[j..])
    decreases k - j
  {
    if j < k {
      TokensFrom(count, history, j);
      TokensMonotone(count, history, j + 1, k);
    }
  }

  /** Stopping where one more event would break the budget is stopping at the longest admissible suffix. */
  lemma SplitIsLongest(config: Config, count: Tokenizer, history: seq<Event>, k: nat)
    requires Start(config, |history|) <= k <= Protected(config, |history|)
    requires k == Protected(config, |history|) || config.tokenBudget == 0 || Tokens(count, history[k..]) <= config.tokenBudget
    requires k > Start(config, |history|) ==> config.tokenBudget > 0 && Tokens(count, history[k - 1..]) > config.tokenBudget
    ensures Admissible(config, count, history, k)
    ensures forall j :: 0 <= j < k ==> !Admissible(config, count, history, j)
  {
    forall j | 0 <= j < k ensures !Admissible(config, count, history, j) {
      if j >= Start(config, |history|) { TokensMonotone(count, history, j, k - 1); }
    }
  }

  lemma CutIsLongest(config: Config, count: Tokenizer, history: seq<Event>, offset: nat)
    requires Start(config, |history|) + offset <= Protected(config, |history|)
    requires var relevant := history[Start(config, |history|)..];
      && (config.tokenBudget == 0 || Start(config, |history|) + offset == Protected(config, |history|) ||
          Tokens(count, relevant[offset..]) <= config.tokenBudget)
      && (offset > 0 ==> config.tokenBudget > 0 && Tokens(count, relevant[offset - 1..]) > config.tokenBudget)
    ensures var relevant := history[Start(config, |history|)..];
      Longest(config, count, history,
              Processed(relevant[offset..], Tokens(count, relevant[offset..]), |history| - |relevant[offset..]|, relevant[..offset]))
  {
    var start := Start(config, |history|);
    var relevant := history[start..];
    var k := start + offset;
    assert relevant[offset..] == history[k..] && relevant[..offset] == history[start..k];
    if offset > 0 { assert relevant[offset - 1..] == history[k - 1..]; }
    SplitIsLongest(config, count, history, k);
  }

  /** Walk backwards from the newest event until an unprotected one would break the budget. */
  method WalkBack(relevant: seq<Event>, protectedStart: nat, config: Config, count: Tokenizer)
    returns (currentTokens: nat, splitOffset: nat)
    requires protectedStart <= |relevant|
    ensures splitOffset <= protectedStart && currentTokens == Tokens(count, relevant[splitOffset..])
    ensures config.tokenBudget == 0 || splitOffset == protectedStart || currentTokens <= config.tokenBudget
    ensures splitOffset > 0 ==> config.tokenBudget > 0 && Tokens(count, relevant[splitOffset - 1..]) > config.tokenBudget
  {
    currentTokens := 0;
    splitOffset := 0;
    var i := |relevant|;
    while i > 0
      invariant 0 <= i <= |relevant|
      invariant currentTokens == Tokens(count, relevant[i..])
      invariant i < protectedStart ==> config.tokenBudget == 0 || currentTokens <= config.tokenBudget
    {
      var eventTokens := TokenLen(count, relevant[i - 1]);
      TokensFrom(count, relevant, i - 1);
      if i - 1 >= protectedStart {
        currentTokens := currentTokens + eventTokens;
      } else if config.tokenBudget == 0 || currentTokens + eventTokens <= config.tokenBudget {
        currentTokens := currentTokens + eventTokens;
      } else {
        return currentTokens, i;
      }
      i := i - 1;
    }
  }

  lemma EmptyIsLongest(config: Config, count: Tokenizer)
    ensures Longest(config, count, [], Processed([], 0, 0, []))
  {
  }

  method ProcessHistory(history: seq<Event>, config: Config, count: Tokenizer) returns (r: Processed)
    ensures Longest(config, count, history, r)
  {
    var n := |history|;
    if n == 0 {
      EmptyIsLongest(config, count);
      return Processed([], 0, 0, []);
    }
    var total := if n <= config.maxEvents then n else config.maxEvents;
    var relevant := history[n - total..];
    var protectedStart := if total <= config.recentKeep then 0 else total - config.recentKeep;
    var currentTokens, splitOffset := WalkBack(relevant, protectedStart, config, count);

    CutIsLongest(config, count, history, splitOffset);
    var evicted, kept := relevant[..splitOffset], relevant[splitOffset..];
    r := Processed(kept, currentTokens, n - |kept|, evicted);
  }

  // ---------------------------------------------------------------------
  // What the contract is worth
  // ---------------------------------------------------------------------

  lemma SuffixOf(history: seq<Event>, start: nat, r: Processed)
    requires start <= |history| && history == history[..start] + r.evicted + r.events
    ensures r.events == history[|history| - |r.events|..]
    ensures r.evicted == history[start..|history| - |r.events|]
  {
  }

  /** The contract leaves no freedom: two correct results are equal. */
  lemma ResultIsUnique(config: Config, count: Tokenizer, history: seq<Event>, a: Processed, b: Processed)
    requires Longest(config, count, history, a) && Longest(config, count, history, b)
    ensures a == b
  {
    SuffixOf(history, Start(config, |history|), a);
    SuffixOf(history, Start(config, |history|), b);
  }

  /** The last `recentKeep` events survive, and no more than `maxEvents` do. */
  lemma RecentEventsSurvive(config: Config, count: Tokenizer, history: seq<Event>, r: Processed)
    requires Longest(config, count, history, r)
    ensures |r.events| <= config.maxEvents
    ensures forall i :: 0 <= i < |history| && |history| - i <= config.recentKeep && |history| - i <= config.maxEvents ==>
              i >= |history| - |r.events| && history[i] == r.events[i - (|history| - |r.events|)]
  {
    SuffixOf(history, Start(config, |history|), r);
  }

  /** Over budget only when everything kept is protected. */
  lemma BudgetHoldsOrAllProtected(config: Config, count: Tokenizer, history: seq<Event>, r: Processed)
    requires Longest(config, count, history, r) && config.tokenBudget > 0 && r.estimatedTokens > config.tokenBudget
    ensures |r.events| <= config.recentKeep
  {
    SuffixOf(history, Start(config, |history|), r);
  }

  /** Processing what was kept keeps all of it. */
  lemma ProcessingIsIdempotent(config: Config, count: Tokenizer, history: seq<Event>, r: Processed)
    requires Longest(config, count, history, r)
    ensures Longest(config, count, r.events, Processed(r.events, r.estimatedTokens, 0, []))
  {
    SuffixOf(history, Start(config, |history|), r);
    assert r.events[0..] == r.events;
  }

  /** A larger budget keeps at least as much. */
  lemma BudgetIsMonotone(config: Config, budget: nat, count: Tokenizer, history: seq<Event>, a: Processed, b: Processed)
    requires Longest(config, count, history, a) && Longest(config.(tokenBudget := budget), count, history, b)
    requires budget == 0 || 0 < config.tokenBudget <= budget
    ensures |a.events| <= |b.events|
  {
    var k := |history| - |a.events|;
    assert Admissible(config.(tokenBudget := budget), count, history, k);
  }

  lemma {:induction false} TokensAppend(count: Tokenizer, events: seq<Event>, e: Event)
    ensures Tokens(count, events + [e]) == Tokens(count, events) + TokenLen(count, e)
  {
    if events == [] {
      assert events + [e] == [e];
    } else {
      assert (events + [e])[1..] == events[1..] + [e];
      TokensAppend(count, events[1..], e);
    }
  }

  /** As the conversation grows, an event that fell out of the context never comes back. */
  lemma EvictedNeverReturns(config: Config, count: Tokenizer, history: seq<Event>, e: Event, a: Processed, b: Processed)
    requires Longest(config, count, history, a) && Longest(config, count, history + [e], b)
    ensures a.filteredCount <= b.filteredCount
  {
    var k, k' := a.filteredCount, b.filteredCount;
    if k' <= |history| {
      assert (history + [e])[k'..] == history[k'..] + [e];
      TokensAppend(count, history[k'..], e);
    }
    assert k' < k ==> !Admissible(config, count, history, k');
  }

  function Sum(ns: seq<nat>): nat { if ns == [] then 0 else ns[0] + Sum(ns[1..]) }

  /** A stored count wins over the tokenizer, which is asked only where there is none. */
  lemma {:induction false} TokensAreCounts(count: Tokenizer, events: seq<Event>, counts: seq<nat>)
    requires |counts| == |events|
    requires forall i :: 0 <= i < |events| && events[i].cachedTokens != 0 ==> counts[i] == events[i].cachedTokens
    requires forall i :: 0 <= i < |events| && events[i].cachedTokens == 0 ==> counts[i] == count(events[i].content)
    ensures Tokens(count, events) == Sum(counts)
  {
    if events != [] { TokensAreCounts(count, events[1..], counts[1..]); }
  }

  lemma {:induction false} StoredCountsDecideTokens(count: Tokenizer, other: Tokenizer, events: seq<Event>)
    requires forall e :: e in events ==> e.cachedTokens > 0
    ensures Tokens(count, events) == Tokens(other, events)
  {
    if events != [] { StoredCountsDecideTokens(count, other, events[1..]); }
  }

  /** When every event has a stored count, the tokenizer has no influence on the result. */
  lemma StoredCountsDecide(config: Config, count: Tokenizer, other: Tokenizer, history: seq<Event>, r: Processed)
    requires Longest(config, count, history, r) && forall e :: e in history ==> e.cachedTokens > 0
    ensures Longest(config, other, history, r)
  {
    forall k | 0 <= k <= |history| ensures Tokens(count, history[k..]) == Tokens(other, history[k..]) {
      StoredCountsDecideTokens(count, other, history[k..]);
    }
    forall j | 0 <= j <= |history|
      ensures Admissible(config, count, history, j) <==> Admissible(config, other, history, j) {}
    SuffixOf(history, Start(config, |history|), r);
  }

  /** An event is dropped only beyond the maximum, or because keeping it would exceed the budget. */
  lemma DroppedOnlyForAReason(config: Config, count: Tokenizer, history: seq<Event>, r: Processed)
    requires Longest(config, count, history, r) && |r.events| < |history| && |r.events| < config.maxEvents
    ensures config.tokenBudget > 0 && |r.events| >= config.recentKeep
    ensures Tokens(count, history[|history| - |r.events| - 1..]) > config.tokenBudget
  {
    var n, k := |history|, |history| - |r.events|;
    assert Start(config, n) < k <= Protected(config, n);
    assert !Admissible(config, count, history, k - 1);
    assert k - 1 == |history| - |r.events| - 1;
  }
}
