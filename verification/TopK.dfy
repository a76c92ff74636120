// Selecting the k best scored items: what a correct selection is, the
// replace-the-weakest step, and agreement with sorting and cutting.

module TopK {
  import Sorting

  datatype Scored = Scored(id: string, score: real)

  function Min(a: nat, b: nat): nat { if a <= b then a else b }

  ghost predicate Descending(s: seq<Scored>) {
    forall i, j :: 0 <= i < j < |s| ==> s[i].score >= s[j].score
  }

  /** `top` holds k of the candidates, or all if there are fewer, and none left out beats one kept. */
  ghost predicate Best(candidates: multiset<Scored>, k: nat, top: seq<Scored>) {
    && multiset(top) <= candidates
    && |top| == Min(k, |candidates|)
    && forall x, y :: x in candidates - multiset(top) && y in top ==> x.score <= y.score
  }

  ghost predicate IsTopK(candidates: multiset<Scored>, k: nat, top: seq<Scored>) {
    Best(candidates, k, top) && Descending(top)
  }

  // ---------------------------------------------------------------------
  // Replace the weakest
  // ---------------------------------------------------------------------

  /** The first of the weakest entries. */
  method MinIndex(top: seq<Scored>) returns (m: nat)
    requires top != []
    ensures m < |top|
    ensures forall i :: 0 <= i < |top| ==> top[m].score <= top[i].score
    ensures forall i :: 0 <= i < m ==> top[m].score < top[i].score
  {
    m := 0;
    for n := 1 to |top|
      invariant m < n
      invariant forall i :: 0 <= i < n ==> top[m].score <= top[i].score
      invariant forall i :: 0 <= i < m ==> top[m].score < top[i].score
    {
      if top[n].score < top[m].score { m := n; }
    }
  }

  lemma AppendKeepsBest(candidates: multiset<Scored>, k: nat, top: seq<Scored>, c: Scored)
    requires Best(candidates, k, top) && |top| < k
    ensures Best(candidates + multiset{c}, k, top + [c])
  {
    AllKept(candidates, top);
    assert multiset(top + [c]) == candidates + multiset{c};
  }

  /** While there is room, everything seen so far is kept. */
  lemma AllKept(candidates: multiset<Scored>, top: seq<Scored>)
    requires multiset(top) <= candidates && |top| == |candidates|
    ensures multiset(top) == candidates
  {
    assert |candidates| == |multiset(top)| + |candidates - multiset(top)|;
    assert candidates == multiset(top) + (candidates - multiset(top));
  }

  lemma SkipKeepsBest(candidates: multiset<Scored>, k: nat, top: seq<Scored>, c: Scored)
    requires Best(candidates, k, top) && |top| == k
    requires forall y :: y in top ==> c.score <= y.score
    ensures Best(candidates + multiset{c}, k, top)
  {
    forall x, y | x in candidates + multiset{c} - multiset(top) && y in top ensures x.score <= y.score {
      assert x == c || x in candidates - multiset(top);
    }
  }

  lemma ReplaceKeepsBest(candidates: multiset<Scored>, k: nat, top: seq<Scored>, c: Scored, m: nat)
    requires Best(candidates, k, top) && |top| == k && m < k
    requires forall i :: 0 <= i < k ==> top[m].score <= top[i].score
    requires top[m].score < c.score
    ensures Best(candidates + multiset{c}, k, top[m := c])
  {
    var next := top[m := c];
    assert multiset(next) == multiset(top) - multiset{top[m]} + multiset{c};
    forall x, y | x in candidates + multiset{c} - multiset(next) && y in next ensures x.score <= y.score {
      assert x == top[m] || x in candidates - multiset(top);
      var j :| 0 <= j < k && next[j] == y;
      assert top[m].score <= y.score;
      assert top[m] in top;
    }
  }

  /** Asking for more than there are candidates is asking for all of them. */
  lemma CapIsEnough(candidates: multiset<Scored>, k: nat, n: nat, top: seq<Scored>)
    requires Best(candidates, Min(k, n), top) && |candidates| <= n
    ensures Best(candidates, k, top)
  {
  }

  method PushTopk(top: seq<Scored>, k: nat, c: Scored, ghost candidates: multiset<Scored>) returns (next: seq<Scored>)
    requires k > 0
    requires Best(candidates, k, top)
    ensures Best(candidates + multiset{c}, k, next)
    ensures c in next || next == top
  {
    if |top| < k {
      AppendKeepsBest(candidates, k, top, c);
      return top + [c];
    }
    var m := MinIndex(top);
    if c.score > top[m].score {
      ReplaceKeepsBest(candidates, k, top, c, m);
      next := top[m := c];
      assert next[m] == c;
    } else {
      SkipKeepsBest(candidates, k, top, c);
      next := top;
    }
  }

  // ---------------------------------------------------------------------
  // Sorting
  // ---------------------------------------------------------------------

  predicate Higher(x: Scored, y: Scored) { x.score > y.score }

  function SortDesc(s: seq<Scored>): seq<Scored> { Sorting.Sort(Higher, s) }

  /** Sorting permutes. */
  lemma SortPermutes(s: seq<Scored>)
    ensures multiset(SortDesc(s)) == multiset(s)
    ensures |SortDesc(s)| == |s|
  {
    Sorting.SortPermutes(Higher, s);
    Sorting.SortLength(Higher, s);
  }

  lemma SortDescends(s: seq<Scored>)
    ensures Descending(SortDesc(s))
  {
    Sorting.SortSorts(Higher, s);
  }

  lemma SortKeepsBest(candidates: multiset<Scored>, k: nat, top: seq<Scored>)
    requires Best(candidates, k, top)
    ensures IsTopK(candidates, k, SortDesc(top))
  {
    SortPermutes(top);
    SortDescends(top);
    assert |SortDesc(top)| == |multiset(SortDesc(top))| == |multiset(top)|;
    forall y | y in SortDesc(top) ensures y in top {
      assert y in multiset(SortDesc(top));
    }
  }

  // ---------------------------------------------------------------------
  // Agreement with "sort and take k"
  // ---------------------------------------------------------------------

  lemma Split(s: seq<Scored>, i: nat)
    requires i <= |s|
    ensures multiset(s) == multiset(s[..i]) + multiset(s[i..])
  {
    assert s == s[..i] + s[i..];
  }

  lemma EarlierIsHigher(s: seq<Scored>, i: nat, x: Scored)
    requires Descending(s) && i < |s|
    ensures x in s[..i] ==> x.score >= s[i].score
    ensures x in s[..i + 1] ==> x.score >= s[i].score
    ensures x in s[i..] ==> x.score <= s[i].score
  {
  }

  lemma PrefixIsTopK(s: seq<Scored>, k: nat)
    requires Descending(s)
    ensures IsTopK(multiset(s), k, s[..Min(k, |s|)])
  {
    var m := Min(k, |s|);
    Split(s, m);
    assert multiset(s) - multiset(s[..m]) == multiset(s[m..]);
    forall x, y | x in s[m..] && y in s[..m] ensures x.score <= y.score {
      EarlierIsHigher(s, m, x);
      EarlierIsHigher(s, m, y);
    }
  }

  lemma SortAndTakeIsTopK(s: seq<Scored>, k: nat)
    ensures IsTopK(multiset(s), k, SortDesc(s)[..Min(k, |SortDesc(s)|)])
  {
    SortPermutes(s);
    SortDescends(s);
    PrefixIsTopK(SortDesc(s), k);
  }

  /** Candidates above the i-th score all sit before it. */
  lemma AboveMeansEarlier(candidates: multiset<Scored>, k: nat, b: seq<Scored>, i: nat, x: Scored)
    requires IsTopK(candidates, k, b) && i < |b| && x.score > b[i].score
    ensures candidates[x] == multiset(b[..i])[x]
  {
    Split(b, i);
    EarlierIsHigher(b, i, x);
    assert b[i] in b && x !in multiset(b[i..]);
    assert x !in candidates - multiset(b);
  }

  lemma NotAbove(candidates: multiset<Scored>, k: nat, a: seq<Scored>, b: seq<Scored>, i: nat)
    requires IsTopK(candidates, k, a) && IsTopK(candidates, k, b) && i < |a|
    ensures a[i].score <= b[i].score
  {
    if a[i].score > b[i].score {
      Split(a, i + 1);
      forall x | x in a[..i + 1] ensures multiset(a[..i + 1])[x] <= multiset(b[..i])[x] {
        EarlierIsHigher(a, i, x);
        AboveMeansEarlier(candidates, k, b, i, x);
      }
      Larger(a[..i + 1], b[..i]);
    }
  }

  lemma Larger(a: seq<Scored>, b: seq<Scored>)
    requires forall x :: x in a ==> multiset(a)[x] <= multiset(b)[x]
    ensures |a| <= |b|
  {
    assert multiset(a) <= multiset(b);
    assert multiset(b) == multiset(a) + (multiset(b) - multiset(a));
    assert |multiset(a)| == |a| && |multiset(b)| == |b|;
  }

  /** Ties may pick different items, but any two correct selections carry the same scores. */
  lemma ScoresAreDetermined(candidates: multiset<Scored>, k: nat, a: seq<Scored>, b: seq<Scored>)
    requires IsTopK(candidates, k, a) && IsTopK(candidates, k, b)
    ensures |a| == |b| && forall i :: 0 <= i < |a| ==> a[i].score == b[i].score
  {
    forall i | 0 <= i < |a| ensures a[i].score == b[i].score {
      NotAbove(candidates, k, a, b, i);
      NotAbove(candidates, k, b, a, i);
    }
  }

  /** A correct selection scores like sorting everything and cutting at k. */
  lemma AgreesWithSortAndTake(s: seq<Scored>, k: nat, top: seq<Scored>)
    requires IsTopK(multiset(s), k, top)
    ensures var sorted := SortDesc(s);
            |top| == Min(k, |s|) <= |sorted| && forall i :: 0 <= i < |top| ==> top[i].score == sorted[i].score
  {
    SortAndTakeIsTopK(s, k);
    SortPermutes(s);
    assert |SortDesc(s)| == |multiset(SortDesc(s))| == |multiset(s)| == |s|;
    ScoresAreDetermined(multiset(s), k, top, SortDesc(s)[..Min(k, |SortDesc(s)|)]);
  }

  // ---------------------------------------------------------------------
  // Candidates with distinct ids
  // ---------------------------------------------------------------------

  ghost predicate DistinctIds(s: seq<Scored>) {
    forall i, j :: 0 <= i < j < |s| ==> s[i].id != s[j].id
  }

  function Items(scores: map<string, real>): set<Scored> {
    set id | id in scores :: Scored(id, scores[id])
  }

  /** The scores that reach the threshold, some ids left aside. */
  function Passing(scores: map<string, real>, minScore: real, exclude: set<string>): map<string, real> {
    map id | id in scores && id !in exclude && scores[id] >= minScore :: scores[id]
  }

  /** Every scored id, once. */
  function Candidates(scores: map<string, real>): multiset<Scored> { multiset(Items(scores)) }

  /** The scan visits every scored id exactly once. */
  ghost predicate Scans(scan: seq<Scored>, scores: map<string, real>) {
    && DistinctIds(scan)
    && forall x :: x in scan <==> x.id in scores && scores[x.id] == x.score
  }

  lemma {:induction false} DistinctIsSet(s: seq<Scored>)
    requires DistinctIds(s)
    ensures multiset(s) == multiset(set x | x in s)
  {
    if s != [] {
      var front, last := s[..|s| - 1], s[|s| - 1];
      DistinctIsSet(front);
      assert s == front + [last];
      assert last !in front;
      assert (set x | x in s) == (set x | x in front) + {last};
    }
  }

  lemma ScanIsCandidates(scan: seq<Scored>, scores: map<string, real>)
    requires Scans(scan, scores)
    ensures multiset(scan) == Candidates(scores)
  {
    DistinctIsSet(scan);
    assert (set x | x in scan) == Items(scores);
  }

  /** A selection holds each id at most once, with its own score. */
  lemma SelectionIsDistinct(scores: map<string, real>, top: seq<Scored>)
    requires multiset(top) <= Candidates(scores)
    ensures DistinctIds(top)
    ensures forall x :: x in top ==> x.id in scores && scores[x.id] == x.score
  {
    forall x | x in top ensures x.id in scores && scores[x.id] == x.score {
      assert x in multiset(top);
      assert x in Candidates(scores);
    }
    forall i, j | 0 <= i < j < |top| ensures top[i].id != top[j].id {
      AtMostOnce(scores, top[i]);
      assert multiset(top)[top[i]] <= 1;
      if top[i] == top[j] { TwicePresent(top, i, j); }
    }
  }

  lemma AtMostOnce(scores: map<string, real>, x: Scored)
    ensures Candidates(scores)[x] <= 1
  {
  }

  /** The same selection, told entry by entry. */
  ghost predicate Selects(scores: map<string, real>, k: nat, top: seq<Scored>) {
    && DistinctIds(top)
    && Descending(top)
    && |top| <= k
    && (forall x :: x in top ==> x.id in scores && scores[x.id] == x.score)
    && (forall id :: id in scores ==>
          Scored(id, scores[id]) in top || (|top| == k && forall y :: y in top ==> scores[id] <= y.score))
  }

  lemma SelectsMeansTopK(scores: map<string, real>, k: nat, top: seq<Scored>)
    requires Selects(scores, k, top)
    ensures IsTopK(Candidates(scores), k, top)
  {
    DistinctIsSet(top);
    var kept := set x | x in top;
    assert |kept| == |multiset(kept)| == |multiset(top)| == |top|;
    assert kept <= Items(scores);
    assert |Items(scores)| == |kept| + |Items(scores) - kept|;
    if |top| < k { assert kept == Items(scores); }
  }

  lemma TopKMeansSelects(scores: map<string, real>, k: nat, top: seq<Scored>)
    requires IsTopK(Candidates(scores), k, top)
    ensures Selects(scores, k, top)
  {
    SelectionIsDistinct(scores, top);
    if |top| < k { AllKept(Candidates(scores), top); }
    forall id | id in scores
      ensures Scored(id, scores[id]) in top || (|top| == k && forall y :: y in top ==> scores[id] <= y.score)
    {
      var x := Scored(id, scores[id]);
      assert x in Candidates(scores);
      assert x in top || x in Candidates(scores) - multiset(top);
    }
  }

  lemma TwicePresent(s: seq<Scored>, i: nat, j: nat)
    requires i < j < |s| && s[i] == s[j]
    ensures multiset(s)[s[i]] >= 2
  {
    Split(s, j);
    assert s[..j][i] == s[i] && s[j..][0] == s[i];
  }
}
