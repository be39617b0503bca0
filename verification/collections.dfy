/** Sequence folds used to read the store's queries as ordinary collection
    operations: a `$match` is a `Filter`, a `$group` with `$sum` is a `SumOf`,
    a count is a `CountOf`, and a lookup by `_id` is a `FirstIndex`. */
module Collections {
  import opened Wrappers

  /** The elements of `xs` satisfying `p`, in their original order. */
  function Filter<T(!new)>(xs: seq<T>, p: T -> bool): (r: seq<T>)
    ensures |r| <= |xs|
    ensures forall x :: multiset(r)[x] == if p(x) then multiset(xs)[x] else 0
    ensures forall i :: 0 <= i < |r| ==> p(r[i])
  {
    if |xs| == 0 then []
    else
      assert xs == [xs[0]] + xs[1..];
      var rest := Filter(xs[1..], p);
      if p(xs[0]) then [xs[0]] + rest else rest
  }

  /** An element is kept exactly when it occurs in `xs` and satisfies `p`. */
  lemma FilterIn<T(!new)>(xs: seq<T>, p: T -> bool)
    ensures forall x :: x in Filter(xs, p) <==> x in xs && p(x)
  {
    forall x
      ensures x in Filter(xs, p) <==> x in xs && p(x)
    {
      assert x in Filter(xs, p) <==> multiset(Filter(xs, p))[x] > 0;
      assert x in xs <==> multiset(xs)[x] > 0;
    }
  }

  /** Nothing matches: the filter is empty. */
  lemma {:induction false} FilterNone<T(!new)>(xs: seq<T>, p: T -> bool)
    requires forall j :: 0 <= j < |xs| ==> !p(xs[j])
    ensures Filter(xs, p) == []
  {
    if |xs| > 0 {
      FilterNone(xs[1..], p);
    }
  }

  /** Exactly one element matches: the filter is that element. */
  lemma {:induction false} FilterUnique<T(!new)>(xs: seq<T>, p: T -> bool, i: nat)
    requires i < |xs| && p(xs[i])
    requires forall j :: 0 <= j < |xs| && j != i ==> !p(xs[j])
    ensures Filter(xs, p) == [xs[i]]
  {
    if i == 0 {
      FilterNone(xs[1..], p);
    } else {
      FilterUnique(xs[1..], p, i - 1);
    }
  }

  /** Position of the first element satisfying `p`, if any. */
  function FirstIndex<T>(xs: seq<T>, p: T -> bool): (r: Option<nat>)
    ensures r.Some? ==> r.value < |xs| && p(xs[r.value])
    ensures r.Some? ==> forall j :: 0 <= j < r.value ==> !p(xs[j])
    ensures r.None? <==> forall j :: 0 <= j < |xs| ==> !p(xs[j])
  {
    if |xs| == 0 then None
    else if p(xs[0]) then Some(0)
    else match FirstIndex(xs[1..], p)
      case None => None
      case Some(i) => Some(i + 1)
  }

  /** `xs` without its element at position `i`. */
  function RemoveAt<T>(xs: seq<T>, i: nat): (r: seq<T>)
    requires i < |xs|
    ensures |r| == |xs| - 1
    ensures forall j :: 0 <= j < i ==> r[j] == xs[j]
    ensures forall j :: i <= j < |r| ==> r[j] == xs[j + 1]
  {
    xs[..i] + xs[i + 1..]
  }

  /** Removing position `i` keeps every other element and adds none. */
  lemma RemoveAtMembers<T>(xs: seq<T>, i: nat)
    requires i < |xs|
    ensures forall x :: x in RemoveAt(xs, i) ==> x in xs
    ensures forall j :: 0 <= j < |xs| && j != i ==> xs[j] in RemoveAt(xs, i)
  {
    var r := RemoveAt(xs, i);
    forall x | x in r
      ensures x in xs
    {
      var k :| 0 <= k < |r| && r[k] == x;
      if k < i { assert xs[k] == x; } else { assert xs[k + 1] == x; }
    }
    forall j | 0 <= j < |xs| && j != i
      ensures xs[j] in r
    {
      if j < i { assert r[j] == xs[j]; } else { assert r[j - 1] == xs[j]; }
    }
  }

  /** Sum of `f` over the elements of `xs` (a `$sum` accumulator). */
  function SumOf<T>(xs: seq<T>, f: T -> real): real
  {
    if |xs| == 0 then 0.0 else f(xs[0]) + SumOf(xs[1..], f)
  }

  /** Number of elements of `xs` satisfying `p` (a `$sum: 1` accumulator). */
  function CountOf<T>(xs: seq<T>, p: T -> bool): nat
  {
    if |xs| == 0 then 0 else (if p(xs[0]) then 1 else 0) + CountOf(xs[1..], p)
  }

  lemma {:induction false} SumOfAppend<T>(xs: seq<T>, ys: seq<T>, f: T -> real)
    ensures SumOf(xs + ys, f) == SumOf(xs, f) + SumOf(ys, f)
  {
    if |xs| == 0 {
      assert xs + ys == ys;
    } else {
      assert (xs + ys)[1..] == xs[1..] + ys;
      SumOfAppend(xs[1..], ys, f);
    }
  }

  /** Summing `f` over the matching elements equals summing a weight that is
      `f` on matching elements and zero elsewhere. */
  lemma {:induction false} SumOfFilter<T(!new)>(xs: seq<T>, p: T -> bool, f: T -> real, g: T -> real)
    requires forall x :: g(x) == if p(x) then f(x) else 0.0
    ensures SumOf(Filter(xs, p), f) == SumOf(xs, g)
  {
    if |xs| > 0 {
      SumOfFilter(xs[1..], p, f, g);
    }
  }

  lemma {:induction false} SumOfNonNegative<T>(xs: seq<T>, f: T -> real)
    requires forall i :: 0 <= i < |xs| ==> f(xs[i]) >= 0.0
    ensures SumOf(xs, f) >= 0.0
  {
    if |xs| > 0 {
      SumOfNonNegative(xs[1..], f);
    }
  }

  /** Splitting every weight into two parts splits the sum. */
  lemma {:induction false} SumOfSplit<T>(xs: seq<T>, f: T -> real, g: T -> real, h: T -> real)
    requires forall x :: f(x) == g(x) + h(x)
    ensures SumOf(xs, f) == SumOf(xs, g) + SumOf(xs, h)
  {
    if |xs| > 0 {
      SumOfSplit(xs[1..], f, g, h);
    }
  }

  lemma {:induction false} SumOfNegate<T>(xs: seq<T>, f: T -> real, g: T -> real)
    requires forall x :: g(x) == -f(x)
    ensures SumOf(xs, g) == -SumOf(xs, f)
  {
    if |xs| > 0 {
      SumOfNegate(xs[1..], f, g);
    }
  }

  /** Two successive filters are one filter by the conjunction. */
  lemma {:induction false} FilterFilter<T(!new)>(xs: seq<T>, p: T -> bool, q: T -> bool, pq: T -> bool)
    requires forall x :: pq(x) == (p(x) && q(x))
    ensures Filter(Filter(xs, p), q) == Filter(xs, pq)
  {
    if |xs| > 0 {
      FilterFilter(xs[1..], p, q, pq);
    }
  }

  lemma {:induction false} FilterAppend<T(!new)>(xs: seq<T>, ys: seq<T>, p: T -> bool)
    ensures Filter(xs + ys, p) == Filter(xs, p) + Filter(ys, p)
  {
    if |xs| == 0 {
      assert xs + ys == ys;
    } else {
      assert (xs + ys)[1..] == xs[1..] + ys;
      FilterAppend(xs[1..], ys, p);
    }
  }

  lemma {:induction false} CountOfAppend<T>(xs: seq<T>, ys: seq<T>, p: T -> bool)
    ensures CountOf(xs + ys, p) == CountOf(xs, p) + CountOf(ys, p)
  {
    if |xs| == 0 {
      assert xs + ys == ys;
    } else {
      assert (xs + ys)[1..] == xs[1..] + ys;
      CountOfAppend(xs[1..], ys, p);
    }
  }
}
