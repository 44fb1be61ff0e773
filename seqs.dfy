/** Sequence helpers standing for JavaScript's `Array.prototype.filter`. */
module Seqs {
  import opened Wrappers


  /** The elements of `xs` that satisfy `p`, in their original order. */
  function Filter<T(!new)>(xs: seq<T>, p: T -> bool): (r: seq<T>)
    ensures |r| <= |xs|
    ensures forall x :: x in r <==> x in xs && p(x)
    ensures forall i :: 0 <= i < |r| ==> p(r[i])
  {
    if xs == [] then []
    else Filter(xs[..|xs| - 1], p) + (if p(xs[|xs| - 1]) then [xs[|xs| - 1]] else [])
  }

  /** Filtering distributes over concatenation, so the kept elements keep their order. */
  lemma {:induction false} FilterConcat<T(!new)>(xs: seq<T>, ys: seq<T>, p: T -> bool)
    ensures Filter(xs + ys, p) == Filter(xs, p) + Filter(ys, p)
    decreases |ys|
  {
    if ys == [] {
      assert xs + ys == xs;
    } else {
      assert (xs + ys)[..|xs + ys| - 1] == xs + ys[..|ys| - 1];
      FilterConcat(xs, ys[..|ys| - 1], p);
    }
  }

  /** A filter that every element passes changes nothing. */
  lemma {:induction false} FilterAllPass<T(!new)>(xs: seq<T>, p: T -> bool)
    requires forall i :: 0 <= i < |xs| ==> p(xs[i])
    ensures Filter(xs, p) == xs
  {
    if xs != [] {
      FilterAllPass(xs[..|xs| - 1], p);
    }
  }

  /** A filter that no element passes leaves nothing. */
  lemma {:induction false} FilterNonePass<T(!new)>(xs: seq<T>, p: T -> bool)
    requires forall i :: 0 <= i < |xs| ==> !p(xs[i])
    ensures Filter(xs, p) == []
  {
    if xs != [] {
      FilterNonePass(xs[..|xs| - 1], p);
    }
  }

  /** Two tests that agree on every element keep the same elements. */
  lemma {:induction false} FilterCongruent<T(!new)>(xs: seq<T>, p: T -> bool, q: T -> bool)
    requires forall i :: 0 <= i < |xs| ==> p(xs[i]) == q(xs[i])
    ensures Filter(xs, p) == Filter(xs, q)
  {
    if xs != [] {
      FilterCongruent(xs[..|xs| - 1], p, q);
    }
  }

  /** `xs.filter(Boolean)` on a list whose falsy entries are written None: the present values, in order. */
  function Present<T(!new)>(xs: seq<Option<T>>): (r: seq<T>)
    ensures |r| <= |xs|
    ensures forall x :: x in r <==> Some(x) in xs
  {
    if xs == [] then []
    else Present(xs[..|xs| - 1]) + (match xs[|xs| - 1] case Some(x) => [x] case None => [])
  }

  /** Every value wrapped as present. */
  function Wrapped<T>(xs: seq<T>): (r: seq<Option<T>>)
    ensures |r| == |xs| && forall i :: 0 <= i < |xs| ==> r[i] == Some(xs[i])
  {
    seq(|xs|, i requires 0 <= i < |xs| => Some(xs[i]))
  }

  /** `o` is an entry that `filter(Boolean)` keeps. */
  predicate IsPresent<T>(o: Option<T>) {
    o.Some?
  }

  /**
   * The present values are the kept entries unwrapped: each one as often as it occurs and in the
   * order of the list.
   */
  lemma {:induction false} PresentIsFilter<T(!new)>(xs: seq<Option<T>>)
    ensures Wrapped(Present(xs)) == Filter(xs, IsPresent)
  {
    if xs != [] {
      var init, last := xs[..|xs| - 1], xs[|xs| - 1];
      PresentIsFilter(init);
      var tail := match last case Some(x) => [x] case None => [];
      assert Present(xs) == Present(init) + tail;
      WrappedConcat(Present(init), tail);
      assert Wrapped(tail) == if IsPresent(last) then [last] else [];
    }
  }

  lemma WrappedConcat<T>(a: seq<T>, b: seq<T>)
    ensures Wrapped(a + b) == Wrapped(a) + Wrapped(b)
  {
  }

  /** A list with no falsy entry keeps every value. */
  lemma {:induction false} PresentAllSome<T(!new)>(xs: seq<T>)
    ensures Present(Wrapped(xs)) == xs
  {
    if xs != [] {
      var p := xs[..|xs| - 1];
      assert Wrapped(xs)[..|xs| - 1] == Wrapped(p);
      PresentAllSome(p);
      assert xs == p + [xs[|xs| - 1]];
    }
  }
}
