/** The stable sort of the language's standard library, with the facts its callers rely on. */
module Sorting {

  ghost predicate TotalPreorder<T(!new)>(le: (T, T) -> bool) {
    && (forall a, b :: le(a, b) || le(b, a))
    && (forall a, b, c :: le(a, b) && le(b, c) ==> le(a, c))
  }

  ghost predicate SortedBy<T>(xs: seq<T>, le: (T, T) -> bool) {
    forall i, j :: 0 <= i < j < |xs| ==> le(xs[i], xs[j])
  }

  ghost predicate Pairwise<T>(xs: seq<T>, related: (T, T) -> bool) {
    forall i, j :: 0 <= i < j < |xs| ==> related(xs[i], xs[j])
  }

  function SumOf<T>(xs: seq<T>, amount: T -> int): int {
    if xs == [] then 0 else SumOf(xs[..|xs| - 1], amount) + amount(xs[|xs| - 1])
  }

  /** Places `x` after every element that is not greater. */
  function Insert<T>(xs: seq<T>, x: T, le: (T, T) -> bool): seq<T> {
    if xs == [] || le(xs[|xs| - 1], x) then xs + [x]
    else Insert(xs[..|xs| - 1], x, le) + [xs[|xs| - 1]]
  }

  function Sort<T>(xs: seq<T>, le: (T, T) -> bool): seq<T> {
    if xs == [] then [] else Insert(Sort(xs[..|xs| - 1], le), xs[|xs| - 1], le)
  }

  lemma {:induction false} InsertElements<T>(xs: seq<T>, x: T, le: (T, T) -> bool)
    ensures multiset(Insert(xs, x, le)) == multiset(xs) + multiset{x}
    ensures forall y :: y in Insert(xs, x, le) <==> y in xs || y == x
    ensures |Insert(xs, x, le)| == |xs| + 1
  {
    if xs == [] || le(xs[|xs| - 1], x) {
    } else {
      InsertElements(xs[..|xs| - 1], x, le);
      assert xs == xs[..|xs| - 1] + [xs[|xs| - 1]];
    }
  }

  lemma {:induction false} SortElements<T>(xs: seq<T>, le: (T, T) -> bool)
    ensures multiset(Sort(xs, le)) == multiset(xs)
    ensures forall y :: y in Sort(xs, le) <==> y in xs
    ensures |Sort(xs, le)| == |xs|
  {
    if xs == [] {
    } else {
      SortElements(xs[..|xs| - 1], le);
      InsertElements(Sort(xs[..|xs| - 1], le), xs[|xs| - 1], le);
      assert xs == xs[..|xs| - 1] + [xs[|xs| - 1]];
    }
  }

  lemma {:induction false} InsertSorted<T(!new)>(xs: seq<T>, x: T, le: (T, T) -> bool)
    requires TotalPreorder(le) && SortedBy(xs, le)
    ensures SortedBy(Insert(xs, x, le), le)
  {
    if xs == [] || le(xs[|xs| - 1], x) {
    } else {
      var front := xs[..|xs| - 1];
      InsertSorted(front, x, le);
      InsertElements(front, x, le);
      var inserted := Insert(front, x, le);
      forall i | 0 <= i < |inserted|
        ensures le(inserted[i], xs[|xs| - 1])
      {
        assert inserted[i] in front || inserted[i] == x;
      }
    }
  }

  lemma {:induction false} SortIsSorted<T(!new)>(xs: seq<T>, le: (T, T) -> bool)
    requires TotalPreorder(le)
    ensures SortedBy(Sort(xs, le), le)
  {
    if xs == [] {
    } else {
      SortIsSorted(xs[..|xs| - 1], le);
      InsertSorted(Sort(xs[..|xs| - 1], le), xs[|xs| - 1], le);
    }
  }

  lemma {:induction false} InsertPairwise<T(!new)>(xs: seq<T>, x: T, le: (T, T) -> bool, related: (T, T) -> bool)
    requires forall a, b :: related(a, b) ==> related(b, a)
    ensures Pairwise(Insert(xs, x, le), related)
            <==> Pairwise(xs, related) && forall y :: y in xs ==> related(y, x)
  {
    if xs == [] || le(xs[|xs| - 1], x) {
      var grown := xs + [x];
      assert forall i :: 0 <= i < |xs| ==> grown[i] == xs[i] && grown[|xs|] == x;
      if Pairwise(grown, related) {
        assert forall i, j :: 0 <= i < j < |xs| ==> related(grown[i], grown[j]);
      }
    } else {
      var front, last := xs[..|xs| - 1], xs[|xs| - 1];
      InsertPairwise(front, x, le, related);
      InsertElements(front, x, le);
      AppendPairwise(front, last, related);
      AppendPairwise(Insert(front, x, le), last, related);
      assert front + [last] == xs;
    }
  }

  lemma AppendPairwise<T>(xs: seq<T>, x: T, related: (T, T) -> bool)
    ensures Pairwise(xs + [x], related) <==> Pairwise(xs, related) && forall y :: y in xs ==> related(y, x)
  {
    var grown := xs + [x];
    assert forall i :: 0 <= i < |xs| ==> grown[i] == xs[i] && grown[|xs|] == x;
    if Pairwise(grown, related) {
      assert forall i, j :: 0 <= i < j < |xs| ==> related(grown[i], grown[j]);
      forall y | y in xs
        ensures related(y, x)
      {
        var i :| 0 <= i < |xs| && xs[i] == y;
        assert related(grown[i], grown[|xs|]);
      }
    }
  }

  /** Sorting neither creates nor removes a symmetric relation between all pairs. */
  lemma {:induction false} SortPairwise<T(!new)>(xs: seq<T>, le: (T, T) -> bool, related: (T, T) -> bool)
    requires forall a, b :: related(a, b) ==> related(b, a)
    ensures Pairwise(Sort(xs, le), related) <==> Pairwise(xs, related)
  {
    if xs == [] {
    } else {
      var front, last := xs[..|xs| - 1], xs[|xs| - 1];
      SortPairwise(front, le, related);
      SortElements(front, le);
      InsertPairwise(Sort(front, le), last, le, related);
      AppendPairwise(front, last, related);
      assert front + [last] == xs;
    }
  }

  lemma SumAppend<T>(xs: seq<T>, x: T, amount: T -> int)
    ensures SumOf(xs + [x], amount) == SumOf(xs, amount) + amount(x)
  {
    assert (xs + [x])[..|xs|] == xs;
  }

  lemma {:induction false} SumConcat<T>(xs: seq<T>, ys: seq<T>, amount: T -> int)
    ensures SumOf(xs + ys, amount) == SumOf(xs, amount) + SumOf(ys, amount)
  {
    if ys == [] {
      assert xs + ys == xs;
    } else {
      var front, last := ys[..|ys| - 1], ys[|ys| - 1];
      SumConcat(xs, front, amount);
      assert (xs + front) + [last] == xs + ys;
      SumAppend(xs + front, last, amount);
    }
  }

  lemma {:induction false} InsertSum<T>(xs: seq<T>, x: T, le: (T, T) -> bool, amount: T -> int)
    ensures SumOf(Insert(xs, x, le), amount) == SumOf(xs, amount) + amount(x)
  {
    if xs == [] || le(xs[|xs| - 1], x) {
      SumAppend(xs, x, amount);
    } else {
      InsertSum(xs[..|xs| - 1], x, le, amount);
      SumAppend(Insert(xs[..|xs| - 1], x, le), xs[|xs| - 1], amount);
    }
  }

  lemma {:induction false} SortSum<T>(xs: seq<T>, le: (T, T) -> bool, amount: T -> int)
    ensures SumOf(Sort(xs, le), amount) == SumOf(xs, amount)
  {
    if xs == [] {
    } else {
      SortSum(xs[..|xs| - 1], le, amount);
      InsertSum(Sort(xs[..|xs| - 1], le), xs[|xs| - 1], le, amount);
    }
  }
}
