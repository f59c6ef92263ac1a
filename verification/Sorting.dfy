/** Stable sorting, and when two ordered sequences must be the same. */
module Sorting {

  ghost predicate TotalPreorder<T(!new)>(leq: (T, T) -> bool) {
    && (forall a, b :: leq(a, b) || leq(b, a))
    && (forall a, b, c :: leq(a, b) && leq(b, c) ==> leq(a, c))
  }

  ghost predicate Ordered<T>(s: seq<T>, leq: (T, T) -> bool) {
    forall i, j | 0 <= i < j < |s| :: leq(s[i], s[j])
  }

  // Strictly ordered, ties excluded.
  ghost predicate Ascends<T>(s: seq<T>, less: (T, T) -> bool) {
    forall i, j | 0 <= i < j < |s| :: less(s[i], s[j])
  }

  ghost predicate Asymmetric<T(!new)>(less: (T, T) -> bool) {
    forall a, b :: less(a, b) ==> !less(b, a)
  }

  ghost predicate SameElements<T(!new)>(s: seq<T>, t: seq<T>) {
    forall x :: x in s <==> x in t
  }

  /******* Sorting *******/

  // Puts x after everything it does not precede.
  function Insert<T>(s: seq<T>, x: T, leq: (T, T) -> bool): seq<T> {
    if s == [] then [x]
    else if leq(s[|s| - 1], x) then s + [x]
    else Insert(s[..|s| - 1], x, leq) + [s[|s| - 1]]
  }

  function StableSort<T>(s: seq<T>, leq: (T, T) -> bool): seq<T> {
    if s == [] then [] else Insert(StableSort(s[..|s| - 1], leq), s[|s| - 1], leq)
  }

  lemma {:induction false} InsertKeeps<T(!new)>(s: seq<T>, x: T, leq: (T, T) -> bool)
    ensures multiset(Insert(s, x, leq)) == multiset(s) + multiset{x}
    ensures |Insert(s, x, leq)| == |s| + 1
    ensures forall y :: y in Insert(s, x, leq) <==> y in s || y == x
  {
    if s != [] {
      var front := s[..|s| - 1];
      assert s == front + [s[|s| - 1]];
      if !leq(s[|s| - 1], x) {
        InsertKeeps(front, x, leq);
      }
    }
  }

  lemma {:induction false} InsertOrders<T(!new)>(s: seq<T>, x: T, leq: (T, T) -> bool)
    requires TotalPreorder(leq) && Ordered(s, leq)
    ensures Ordered(Insert(s, x, leq), leq)
  {
    if s != [] {
      var front, last := s[..|s| - 1], s[|s| - 1];
      if leq(last, x) {
        assert forall y | y in s :: leq(y, x);
      } else {
        InsertOrders(front, x, leq);
        InsertKeeps(front, x, leq);
        assert forall y | y in Insert(front, x, leq) :: y in front || y == x;
        assert forall y | y in front :: leq(y, last);
        assert forall i | 0 <= i < |Insert(front, x, leq)| :: Insert(front, x, leq)[i] in Insert(front, x, leq);
      }
    }
  }

  lemma {:induction false} SortKeeps<T(!new)>(s: seq<T>, leq: (T, T) -> bool)
    ensures multiset(StableSort(s, leq)) == multiset(s)
    ensures |StableSort(s, leq)| == |s|
    ensures SameElements(StableSort(s, leq), s)
  {
    if s != [] {
      SortKeeps(s[..|s| - 1], leq);
      InsertKeeps(StableSort(s[..|s| - 1], leq), s[|s| - 1], leq);
      assert s == s[..|s| - 1] + [s[|s| - 1]];
    }
  }

  lemma {:induction false} SortOrders<T(!new)>(s: seq<T>, leq: (T, T) -> bool)
    requires TotalPreorder(leq)
    ensures Ordered(StableSort(s, leq), leq)
  {
    if s != [] {
      SortOrders(s[..|s| - 1], leq);
      InsertOrders(StableSort(s[..|s| - 1], leq), s[|s| - 1], leq);
    }
  }

  lemma {:induction false} SortLeavesOrdered<T(!new)>(s: seq<T>, leq: (T, T) -> bool)
    requires Ordered(s, leq)
    ensures StableSort(s, leq) == s
  {
    if s != [] {
      var front := s[..|s| - 1];
      SortLeavesOrdered(front, leq);
      assert s == front + [s[|s| - 1]];
      assert front != [] ==> leq(front[|front| - 1], s[|s| - 1]);
    }
  }

  /******* Ties stay in order *******/

  // Before by key, and by rank among equal keys; a rank rises along the original.
  ghost predicate RankedBefore<T>(a: T, b: T, leq: (T, T) -> bool, rank: T -> int) {
    leq(a, b) && (leq(b, a) ==> rank(a) < rank(b))
  }

  ghost predicate Ranked<T>(s: seq<T>, leq: (T, T) -> bool, rank: T -> int) {
    forall i, j | 0 <= i < j < |s| :: RankedBefore(s[i], s[j], leq, rank)
  }

  lemma {:induction false} InsertRanks<T(!new)>(s: seq<T>, x: T, leq: (T, T) -> bool, rank: T -> int)
    requires TotalPreorder(leq) && Ranked(s, leq, rank)
    requires forall y | y in s :: rank(y) < rank(x)
    ensures Ranked(Insert(s, x, leq), leq, rank)
  {
    if s != [] {
      var front, last := s[..|s| - 1], s[|s| - 1];
      if leq(last, x) {
        assert forall y | y in s :: RankedBefore(y, x, leq, rank) by {
          assert forall i | 0 <= i < |s| - 1 :: RankedBefore(s[i], last, leq, rank);
        }
      } else {
        InsertRanks(front, x, leq, rank);
        InsertKeeps(front, x, leq);
        var placed := Insert(front, x, leq);
        forall i | 0 <= i < |placed|
          ensures RankedBefore(placed[i], last, leq, rank)
        {
          assert placed[i] in placed;
          if placed[i] in front {
            var k :| 0 <= k < |front| && front[k] == placed[i];
            assert RankedBefore(s[k], s[|s| - 1], leq, rank);
          }
        }
      }
    }
  }

  // Sorting is stable: equal keys keep the order they had.
  lemma {:induction false} SortRanks<T(!new)>(s: seq<T>, leq: (T, T) -> bool, rank: T -> int)
    requires TotalPreorder(leq)
    requires forall i, j | 0 <= i < j < |s| :: rank(s[i]) < rank(s[j])
    ensures Ranked(StableSort(s, leq), leq, rank)
  {
    if s != [] {
      var front := s[..|s| - 1];
      SortRanks(front, leq, rank);
      SortKeeps(front, leq);
      InsertRanks(StableSort(front, leq), s[|s| - 1], leq, rank);
    }
  }

  /******* Uniqueness *******/

  lemma SomeElement<T(!new)>(s: seq<T>)
    ensures s == [] || exists x :: x in s
  {
    if s != [] {
      assert s[0] in s;
    }
  }

  // There is only one way to list given elements in strict order.
  lemma {:induction false} AscendingIsUnique<T(!new)>(s: seq<T>, t: seq<T>, less: (T, T) -> bool)
    requires Asymmetric(less) && Ascends(s, less) && Ascends(t, less) && SameElements(s, t)
    ensures s == t
  {
    if s == [] {
      SomeElement(t);
    } else if t == [] {
      SomeElement(s);
    } else {
      var a, b := |s| - 1, |t| - 1;
      assert s[a] in t && t[b] in s;
      var i :| 0 <= i < |t| && t[i] == s[a];
      var j :| 0 <= j < |s| && s[j] == t[b];
      assert i == b;
      forall x
        ensures x in s[..a] <==> x in t[..b]
      {
        FrontLosesLast(s, less, x);
        FrontLosesLast(t, less, x);
      }
      AscendingIsUnique(s[..a], t[..b], less);
      assert s == s[..a] + [s[a]] && t == t[..b] + [t[b]];
    }
  }

  lemma FrontLosesLast<T(!new)>(s: seq<T>, less: (T, T) -> bool, x: T)
    requires Asymmetric(less) && Ascends(s, less) && s != []
    ensures x in s[..|s| - 1] <==> x in s && x != s[|s| - 1]
  {
    if x in s[..|s| - 1] {
      var i :| 0 <= i < |s| - 1 && s[i] == x;
      assert less(s[i], s[|s| - 1]);
    }
  }

  ghost predicate NoDuplicates<T>(s: seq<T>) {
    forall i, j | 0 <= i < j < |s| :: s[i] != s[j]
  }

  lemma {:induction false} AtMostOnce<T(!new)>(s: seq<T>, x: T)
    requires NoDuplicates(s)
    ensures multiset(s)[x] <= 1
  {
    if s != [] {
      var front, last := s[..|s| - 1], s[|s| - 1];
      assert s == front + [last];
      AtMostOnce(front, x);
      assert last !in front;
    }
  }

  lemma Twice<T(!new)>(s: seq<T>, i: nat, j: nat)
    requires i < j < |s| && s[i] == s[j]
    ensures multiset(s)[s[i]] >= 2
  {
    assert s == s[..j] + [s[j]] + s[j + 1..];
    assert s[..j][i] == s[i];
  }

  // Distinct elements under an antisymmetric order end up in strict order.
  lemma SortAscends<T(!new)>(s: seq<T>, leq: (T, T) -> bool)
    requires TotalPreorder(leq) && NoDuplicates(s)
    ensures NoDuplicates(StableSort(s, leq)) && Ordered(StableSort(s, leq), leq)
  {
    var t := StableSort(s, leq);
    SortKeeps(s, leq);
    SortOrders(s, leq);
    forall i, j | 0 <= i < j < |t|
      ensures t[i] != t[j]
    {
      AtMostOnce(s, t[i]);
      if t[i] == t[j] {
        Twice(t, i, j);
      }
    }
  }

  /******* Text *******/

  // The order of strings by their characters.
  predicate TextLeq(a: string, b: string) {
    a == [] || (b != [] && (a[0] < b[0] || (a[0] == b[0] && TextLeq(a[1..], b[1..]))))
  }

  lemma {:induction false} TextTotal(a: string, b: string)
    ensures TextLeq(a, b) || TextLeq(b, a)
  {
    if a != [] && b != [] {
      TextTotal(a[1..], b[1..]);
    }
  }

  lemma {:induction false} TextTransitive(a: string, b: string, c: string)
    requires TextLeq(a, b) && TextLeq(b, c)
    ensures TextLeq(a, c)
  {
    if a != [] && a[0] == b[0] == c[0] {
      TextTransitive(a[1..], b[1..], c[1..]);
    }
  }

  lemma {:induction false} TextAntisymmetric(a: string, b: string)
    requires TextLeq(a, b) && TextLeq(b, a)
    ensures a == b
  {
    if a != [] {
      TextAntisymmetric(a[1..], b[1..]);
      assert a == [a[0]] + a[1..] && b == [b[0]] + b[1..];
    }
  }

  // The first character in which two strings differ decides, and a beginning comes first.
  ghost predicate FirstDifference(a: string, b: string, k: nat) {
    k < |a| && k < |b| && a[..k] == b[..k] && a[k] < b[k]
  }

  lemma SameUpTo(a: string, b: string, k: nat)
    requires FirstDifference(a, b, k)
    ensures k == 0 || a[0] == b[0]
  {
    if k > 0 {
      assert a[..k][0] == a[0] && b[..k][0] == b[0];
    }
  }

  lemma {:induction false} TextLeqIs(a: string, b: string)
    ensures TextLeq(a, b) <==> a <= b || exists k: nat :: FirstDifference(a, b, k)
  {
    if a != [] && b != [] && a[0] == b[0] {
      TextLeqIs(a[1..], b[1..]);
      assert a == [a[0]] + a[1..] && b == [b[0]] + b[1..];
      if k: nat :| FirstDifference(a[1..], b[1..], k) {
        assert a[..k + 1] == [a[0]] + a[1..][..k] && b[..k + 1] == [b[0]] + b[1..][..k];
        assert FirstDifference(a, b, k + 1);
      }
      if k: nat :| FirstDifference(a, b, k) {
        assert k > 0;
        assert a[1..][..k - 1] == a[..k][1..] && b[1..][..k - 1] == b[..k][1..];
        assert FirstDifference(a[1..], b[1..], k - 1);
      }
      assert a <= b <==> a[1..] <= b[1..];
    } else if a != [] && b != [] {
      assert a[..0] == b[..0];
      assert a[0] < b[0] ==> FirstDifference(a, b, 0);
      if k: nat :| FirstDifference(a, b, k) {
        SameUpTo(a, b, k);
      }
    }
  }

  lemma TextsCompare(a: string, b: string)
    ensures TextLeq(a, b) || TextLeq(b, a)
    ensures TextLeq(a, b) && TextLeq(b, a) ==> a == b
  {
    TextTotal(a, b);
    if TextLeq(a, b) && TextLeq(b, a) {
      TextAntisymmetric(a, b);
    }
  }

  lemma TextsChain(a: string, b: string, c: string)
    ensures TextLeq(a, b) && TextLeq(b, c) ==> TextLeq(a, c)
  {
    if TextLeq(a, b) && TextLeq(b, c) {
      TextTransitive(a, b, c);
    }
  }
}
