/** Python's `list(filter(keep, xs))`: the order-preserving sub-list of the
    elements that satisfy `keep`. */
module Seqs {

  function Filter<T(!new)>(xs: seq<T>, keep: T -> bool): (r: seq<T>)
    ensures |r| <= |xs|
    ensures forall x :: x in r <==> x in xs && keep(x)
    decreases |xs|
  {
    if xs == [] then []
    else if keep(xs[0]) then [xs[0]] + Filter(xs[1..], keep)
    else Filter(xs[1..], keep)
  }

  /** What filtering makes of a single element. */
  function Kept<T>(x: T, keep: T -> bool): seq<T>
  {
    if keep(x) then [x] else []
  }

  /** Filtering looks at the first element, then at the rest. */
  lemma FilterStep<T(!new)>(x: T, xs: seq<T>, keep: T -> bool)
    ensures Filter([x] + xs, keep) == Kept(x, keep) + Filter(xs, keep)
  {
    assert ([x] + xs)[1..] == xs;
  }

  /** Filtering distributes over concatenation, so storage order is kept. */
  lemma {:induction false} FilterConcat<T(!new)>(xs: seq<T>, ys: seq<T>, keep: T -> bool)
    ensures Filter(xs + ys, keep) == Filter(xs, keep) + Filter(ys, keep)
    decreases |xs|
  {
    if xs == [] {
      assert xs + ys == ys;
    } else {
      assert (xs + ys)[1..] == xs[1..] + ys;
      FilterConcat(xs[1..], ys, keep);
    }
  }

  /** Nothing is kept when no element qualifies. */
  lemma {:induction false} FilterNone<T(!new)>(xs: seq<T>, keep: T -> bool)
    requires forall x :: x in xs ==> !keep(x)
    ensures Filter(xs, keep) == []
    decreases |xs|
  {
    if xs != [] {
      assert xs[0] in xs;
      FilterNone(xs[1..], keep);
    }
  }

  /** Everything is kept when every element qualifies. */
  lemma {:induction false} FilterAll<T(!new)>(xs: seq<T>, keep: T -> bool)
    requires forall x :: x in xs ==> keep(x)
    ensures Filter(xs, keep) == xs
    decreases |xs|
  {
    if xs != [] {
      assert xs[0] in xs;
      FilterAll(xs[1..], keep);
      assert xs == [xs[0]] + xs[1..];
    }
  }

  /** Filtering keeps every kept element as often as it occurs in the input
      and drops every other one entirely. */
  lemma {:induction false} FilterCount<T(!new)>(xs: seq<T>, keep: T -> bool, y: T)
    ensures multiset(Filter(xs, keep))[y] == if keep(y) then multiset(xs)[y] else 0
    decreases |xs|
  {
    if xs != [] {
      FilterCount(xs[1..], keep, y);
      assert xs == [xs[0]] + xs[1..];
      assert multiset(xs) == multiset([xs[0]]) + multiset(xs[1..]);
    }
  }
}
