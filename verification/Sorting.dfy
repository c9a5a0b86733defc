/** The standard library's stable sort (`sort_by`, `sort_by_key`), which several cores
    rely on: the result is ordered, holds the same elements, and keeps the input order
    of elements that compare equal. */
module Sorting {
  import opened Prelude

  ghost predicate TotalPreorder<T(!new)>(le: (T, T) -> bool) {
    && (forall x, y :: le(x, y) || le(y, x))
    && (forall x, y, z :: le(x, y) && le(y, z) ==> le(x, z))
  }

  ghost predicate Ordered<T>(xs: seq<T>, le: (T, T) -> bool) {
    forall i, j :: 0 <= i < j < |xs| ==> le(xs[i], xs[j])
  }

  function Insert<T>(x: T, xs: seq<T>, le: (T, T) -> bool): seq<T> {
    if xs == [] then [x]
    else if le(x, xs[0]) then [x] + xs
    else [xs[0]] + Insert(x, xs[1..], le)
  }

  function StableSort<T>(xs: seq<T>, le: (T, T) -> bool): seq<T> {
    if xs == [] then [] else Insert(xs[0], StableSort(xs[1..], le), le)
  }

  lemma {:induction false} InsertElements<T>(x: T, xs: seq<T>, le: (T, T) -> bool)
    ensures multiset(Insert(x, xs, le)) == multiset{x} + multiset(xs)
  {
    if xs != [] {
      assert xs == [xs[0]] + xs[1..];
      if !le(x, xs[0]) {
        InsertElements(x, xs[1..], le);
      }
    }
  }

  lemma {:induction false} SortElements<T>(xs: seq<T>, le: (T, T) -> bool)
    ensures multiset(StableSort(xs, le)) == multiset(xs)
    ensures |StableSort(xs, le)| == |xs|
  {
    if xs != [] {
      assert xs == [xs[0]] + xs[1..];
      SortElements(xs[1..], le);
      InsertElements(xs[0], StableSort(xs[1..], le), le);
      assert |multiset(StableSort(xs, le))| == |multiset(xs)|;
    }
  }

  lemma {:induction false} InsertOrdered<T(!new)>(x: T, xs: seq<T>, le: (T, T) -> bool)
    requires TotalPreorder(le) && Ordered(xs, le)
    ensures Ordered(Insert(x, xs, le), le)
  {
    if xs != [] && !le(x, xs[0]) {
      var tail := Insert(x, xs[1..], le);
      InsertOrdered(x, xs[1..], le);
      InsertElements(x, xs[1..], le);
      forall j | 0 <= j < |tail| ensures le(xs[0], tail[j]) {
        assert tail[j] in multiset(tail);
        if tail[j] != x {
          assert tail[j] in xs[1..];
        }
      }
    }
  }

  lemma {:induction false} SortOrdered<T(!new)>(xs: seq<T>, le: (T, T) -> bool)
    requires TotalPreorder(le)
    ensures Ordered(StableSort(xs, le), le)
  {
    if xs != [] {
      SortOrdered(xs[1..], le);
      InsertOrdered(xs[0], StableSort(xs[1..], le), le);
    }
  }

  lemma {:induction false} InsertKeepsOrderOf<T(!new)>(x: T, xs: seq<T>, le: (T, T) -> bool, keep: T -> bool)
    requires keep(x) ==> forall y :: keep(y) ==> le(x, y)
    ensures Filter(Insert(x, xs, le), keep) == (if keep(x) then [x] else []) + Filter(xs, keep)
  {
    if xs == [] || le(x, xs[0]) {
      assert Insert(x, xs, le) == [x] + xs;
      FilterCons(x, xs, keep);
    } else {
      InsertKeepsOrderOf(x, xs[1..], le, keep);
      FilterCons(xs[0], Insert(x, xs[1..], le), keep);
    }
  }

  /** Stability: elements of one class of mutually equal elements keep their order. */
  lemma {:induction false} SortStable<T(!new)>(xs: seq<T>, le: (T, T) -> bool, keep: T -> bool)
    requires forall y, z :: keep(y) && keep(z) ==> le(y, z)
    ensures Filter(StableSort(xs, le), keep) == Filter(xs, keep)
  {
    if xs != [] {
      SortStable(xs[1..], le, keep);
      InsertKeepsOrderOf(xs[0], StableSort(xs[1..], le), le, keep);
    }
  }

  /** Looking for the first match after sorting: the match that is least in the order,
      the earliest of the input among equals. */
  function EarliestLeast<T>(xs: seq<T>, le: (T, T) -> bool, keep: T -> bool): Option<T> {
    if xs == [] then None
    else
      var rest := EarliestLeast(xs[1..], le, keep);
      if keep(xs[0]) && (rest.None? || le(xs[0], rest.value)) then Some(xs[0]) else rest
  }

  lemma {:induction false} InsertFirstMatch<T(!new)>(x: T, xs: seq<T>, le: (T, T) -> bool, keep: T -> bool)
    requires TotalPreorder(le) && Ordered(xs, le)
    ensures var rest := Find(xs, keep);
            Find(Insert(x, xs, le), keep)
            == if keep(x) && (rest.None? || le(x, rest.value)) then Some(x) else rest
  {
    if xs != [] {
      FindWitness(xs, keep);
      if le(x, xs[0]) {
        assert ([x] + xs)[1..] == xs;
      } else {
        var r := Insert(x, xs[1..], le);
        assert ([xs[0]] + r)[1..] == r;
        InsertFirstMatch(x, xs[1..], le, keep);
      }
    }
  }

  lemma {:induction false} SortFirstMatch<T(!new)>(xs: seq<T>, le: (T, T) -> bool, keep: T -> bool)
    requires TotalPreorder(le)
    ensures Find(StableSort(xs, le), keep) == EarliestLeast(xs, le, keep)
  {
    if xs != [] {
      SortFirstMatch(xs[1..], le, keep);
      SortOrdered(xs[1..], le);
      InsertFirstMatch(xs[0], StableSort(xs[1..], le), le, keep);
    }
  }

  lemma {:induction false} EarliestLeastIs<T(!new)>(xs: seq<T>, le: (T, T) -> bool, keep: T -> bool)
    requires TotalPreorder(le)
    ensures var r := EarliestLeast(xs, le, keep);
            && (r.None? <==> forall i :: 0 <= i < |xs| ==> !keep(xs[i]))
            && (r.Some? ==> exists i :: IsEarliestLeast(xs, le, keep, i) && xs[i] == r.value)
  {
    if xs != [] {
      var rest := xs[1..];
      EarliestLeastIs(rest, le, keep);
      var r := EarliestLeast(xs, le, keep);
      assert forall i :: 0 < i < |xs| ==> xs[i] == rest[i - 1];
      assert forall i :: 0 <= i < |rest| ==> rest[i] == xs[i + 1];
      if EarliestLeast(rest, le, keep).Some? {
        var i :| IsEarliestLeast(rest, le, keep, i) && rest[i] == EarliestLeast(rest, le, keep).value;
        assert keep(xs[i + 1]);
        if r == EarliestLeast(rest, le, keep) && !(keep(xs[0]) && le(xs[0], rest[i])) {
          assert IsEarliestLeast(xs, le, keep, i + 1);
        } else {
          assert IsEarliestLeast(xs, le, keep, 0);
        }
      } else if keep(xs[0]) {
        assert IsEarliestLeast(xs, le, keep, 0);
      }
    }
  }

  /** Position `i` holds a match, no match is strictly before it in the order, and every
      earlier match is strictly after it. */
  ghost predicate IsEarliestLeast<T>(xs: seq<T>, le: (T, T) -> bool, keep: T -> bool, i: int) {
    && 0 <= i < |xs|
    && keep(xs[i])
    && (forall j :: 0 <= j < |xs| && keep(xs[j]) ==> le(xs[i], xs[j]))
    && (forall j :: 0 <= j < i && keep(xs[j]) ==> !le(xs[j], xs[i]))
  }

  /** The first `k` of an ordered sequence are at least as good as all the others. */
  lemma PrefixIsBest<T>(ranked: seq<T>, k: nat, le: (T, T) -> bool, x: T, y: T)
    requires Ordered(ranked, le) && k <= |ranked|
    requires x in multiset(ranked) - multiset(ranked[..k]) && y in ranked[..k]
    ensures le(y, x)
  {
    assert ranked == ranked[..k] + ranked[k..];
    assert multiset(ranked) == multiset(ranked[..k]) + multiset(ranked[k..]);
    assert x in ranked[k..];
    var j :| 0 <= j < |ranked| - k && ranked[k..][j] == x;
    var i :| 0 <= i < k && ranked[i] == y;
    assert ranked[k + j] == x;
  }

  /** No two positions are alike. */
  ghost predicate PairwiseApart<T(!new)>(xs: seq<T>, alike: (T, T) -> bool) {
    forall i, j :: 0 <= i < j < |xs| ==> !alike(xs[i], xs[j])
  }

  lemma OccursTwice<T>(xs: seq<T>, i: nat, j: nat)
    requires i < j < |xs| && xs[i] == xs[j]
    ensures multiset(xs)[xs[i]] >= 2
  {
    assert xs == xs[..i] + [xs[i]] + xs[i + 1..j] + [xs[j]] + xs[j + 1..];
  }

  lemma OccursOnce<T(!new)>(xs: seq<T>, i: nat, alike: (T, T) -> bool)
    requires PairwiseApart(xs, alike) && i < |xs| && alike(xs[i], xs[i])
    ensures multiset(xs)[xs[i]] == 1
  {
    assert xs == xs[..i] + [xs[i]] + xs[i + 1..];
    assert xs[i] !in xs[..i] && xs[i] !in xs[i + 1..];
  }

  /** A rearrangement of elements no two of which are alike has no two alike either. */
  lemma PermutationStaysApart<T(!new)>(xs: seq<T>, ys: seq<T>, alike: (T, T) -> bool)
    requires PairwiseApart(xs, alike) && multiset(xs) == multiset(ys)
    requires forall x :: alike(x, x)
    requires forall x, y :: alike(x, y) ==> alike(y, x)
    ensures PairwiseApart(ys, alike)
  {
    forall i, j | 0 <= i < j < |ys| ensures !alike(ys[i], ys[j]) {
      assert ys[i] in multiset(xs) && ys[j] in multiset(xs);
      var a :| 0 <= a < |xs| && xs[a] == ys[i];
      var b :| 0 <= b < |xs| && xs[b] == ys[j];
      if alike(ys[i], ys[j]) {
        assert a == b;
        OccursTwice(ys, i, j);
        OccursOnce(xs, a, alike);
      }
    }
  }
}
