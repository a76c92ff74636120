// Stable insertion sort by an arbitrary order: the `sort_by` of the program and
// the ORDER BY of its queries.

module Sorting {
  /** `before(x, y)`: x has to come first. Elements of equal rank are not before each other. */
  type Order<!T> = (T, T) -> bool

  ghost predicate IsOrder<T(!new)>(before: Order<T>) {
    && (forall x, y :: before(x, y) ==> !before(y, x))
    && (forall x, y, z :: !before(x, y) && !before(y, z) ==> !before(x, z))
  }

  ghost predicate Sorted<T>(before: Order<T>, s: seq<T>) {
    forall i, j :: 0 <= i < j < |s| ==> !before(s[j], s[i])
  }

  /** A new element stays behind its equals. */
  function Insert<T>(before: Order<T>, s: seq<T>, x: T): seq<T> {
    if s != [] && before(x, s[|s| - 1])
    then Insert(before, s[..|s| - 1], x) + [s[|s| - 1]]
    else s + [x]
  }

  function Sort<T>(before: Order<T>, s: seq<T>): seq<T> {
    if s == [] then [] else Insert(before, Sort(before, s[..|s| - 1]), s[|s| - 1])
  }

  lemma {:induction false} InsertPermutes<T>(before: Order<T>, s: seq<T>, x: T)
    ensures multiset(Insert(before, s, x)) == multiset(s) + multiset{x}
  {
    if s != [] && before(x, s[|s| - 1]) {
      InsertPermutes(before, s[..|s| - 1], x);
      LastSplits(s);
    }
  }

  lemma InsertMembers<T>(before: Order<T>, s: seq<T>, x: T, y: T)
    requires y in Insert(before, s, x)
    ensures y in s || y == x
  {
    InsertPermutes(before, s, x);
    assert y in multiset(Insert(before, s, x));
  }

  lemma {:induction false} InsertSorts<T(!new)>(before: Order<T>, s: seq<T>, x: T)
    requires IsOrder(before) && Sorted(before, s)
    ensures Sorted(before, Insert(before, s, x))
  {
    if s != [] {
      var front, last := s[..|s| - 1], s[|s| - 1];
      if before(x, last) {
        InsertSorts(before, front, x);
        forall y | y in Insert(before, front, x) ensures !before(last, y) { InsertMembers(before, front, x, y); }
      } else {
        forall y | y in s ensures !before(x, y) { assert !before(last, y); }
      }
    }
  }

  lemma LastSplits<T>(s: seq<T>)
    requires s != []
    ensures multiset(s) == multiset(s[..|s| - 1]) + multiset{s[|s| - 1]}
  {
    assert s == s[..|s| - 1] + [s[|s| - 1]];
  }

  /** Sorting loses and invents nothing. */
  lemma {:induction false} SortPermutes<T>(before: Order<T>, s: seq<T>)
    ensures multiset(Sort(before, s)) == multiset(s)
  {
    if s != [] {
      var front, last := s[..|s| - 1], s[|s| - 1];
      SortPermutes(before, front);
      InsertPermutes(before, Sort(before, front), last);
      LastSplits(s);
    }
  }

  lemma SortLength<T>(before: Order<T>, s: seq<T>)
    ensures |Sort(before, s)| == |s|
  {
    SortPermutes(before, s);
    assert |multiset(Sort(before, s))| == |multiset(s)|;
  }

  lemma {:induction false} SortSorts<T(!new)>(before: Order<T>, s: seq<T>)
    requires IsOrder(before)
    ensures Sorted(before, Sort(before, s))
  {
    if s != [] {
      SortSorts(before, s[..|s| - 1]);
      InsertSorts(before, Sort(before, s[..|s| - 1]), s[|s| - 1]);
    }
  }

  /** What is in order stays as it is. */
  lemma {:induction false} SortKeepsSorted<T>(before: Order<T>, s: seq<T>)
    requires Sorted(before, s)
    ensures Sort(before, s) == s
  {
    if s != [] {
      SortKeepsSorted(before, s[..|s| - 1]);
      assert s == s[..|s| - 1] + [s[|s| - 1]];
      assert |s| > 1 ==> !before(s[|s| - 1], s[|s| - 2]);
    }
  }

  lemma SortsTwo<T>(before: Order<T>, a: T, b: T)
    requires before(b, a)
    ensures Sort(before, [a, b]) == [b, a]
  {
    assert [a, b][..1] == [a] && [a][..0] == [];
    assert Sort(before, []) == [];
    assert Sort(before, [a]) == Insert(before, [], a) == [a];
    assert Insert(before, [a], b) == Insert(before, [], b) + [a];
  }

  lemma {:induction false} SameInsert<T(!new)>(before: Order<T>, other: Order<T>, s: seq<T>, x: T)
    requires forall y, z :: before(y, z) == other(y, z)
    ensures Insert(before, s, x) == Insert(other, s, x)
  {
    if s != [] { SameInsert(before, other, s[..|s| - 1], x); }
  }

  lemma {:induction false} SameSort<T(!new)>(before: Order<T>, other: Order<T>, s: seq<T>)
    requires forall y, z :: before(y, z) == other(y, z)
    ensures Sort(before, s) == Sort(other, s)
  {
    if s != [] {
      SameSort(before, other, s[..|s| - 1]);
      SameInsert(before, other, Sort(before, s[..|s| - 1]), s[|s| - 1]);
    }
  }

  /** The elements of the same rank as `x`, in order. */
  function Peers<T>(before: Order<T>, s: seq<T>, x: T): seq<T> {
    if s == [] then []
    else
      Peers(before, s[..|s| - 1], x) +
      if !before(x, s[|s| - 1]) && !before(s[|s| - 1], x) then [s[|s| - 1]] else []
  }

  lemma PeersPush<T>(before: Order<T>, s: seq<T>, y: T, x: T)
    ensures Peers(before, s + [y], x) == Peers(before, s, x) + if !before(x, y) && !before(y, x) then [y] else []
  {
    assert (s + [y])[..|s|] == s;
  }

  lemma {:induction false} InsertIsStable<T(!new)>(before: Order<T>, s: seq<T>, y: T, x: T)
    requires IsOrder(before)
    ensures Peers(before, Insert(before, s, y), x) == Peers(before, s + [y], x)
  {
    if s != [] && before(y, s[|s| - 1]) {
      var front, last := s[..|s| - 1], s[|s| - 1];
      InsertIsStable(before, front, y, x);
      PeersPush(before, Insert(before, front, y), last, x);
      PeersPush(before, front, y, x);
      PeersPush(before, s, y, x);
    }
  }

  /** Sorting is stable: elements of the same rank stay in order. */
  lemma {:induction false} SortIsStable<T(!new)>(before: Order<T>, s: seq<T>, x: T)
    requires IsOrder(before)
    ensures Peers(before, Sort(before, s), x) == Peers(before, s, x)
  {
    if s != [] {
      var front, last := s[..|s| - 1], s[|s| - 1];
      SortIsStable(before, front, x);
      InsertIsStable(before, Sort(before, front), last, x);
      PeersPush(before, Sort(before, front), last, x);
    }
  }
}
