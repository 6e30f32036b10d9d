/** Sequence helpers shared by the capture loops: concatenating batches and keeping the recognised results. */
module Seqs {
  import opened Wrappers

  /** The batches one after another, as a loop that drains them in turn sees them. */
  function Flatten<T>(batches: seq<seq<T>>): (r: seq<T>)
  {
    if batches == [] then [] else Flatten(batches[..|batches| - 1]) + batches[|batches| - 1]
  }

  lemma FlattenSnoc<T>(batches: seq<seq<T>>, b: seq<T>)
    ensures Flatten(batches + [b]) == Flatten(batches) + b
  {
    assert (batches + [b])[..|batches|] == batches;
  }

  /** The Some results of `f` over `xs`, in order; the None results are dropped. */
  function FilterMap<A, B>(xs: seq<A>, f: A -> Option<B>): (r: seq<B>)
    ensures |r| <= |xs|
  {
    if xs == [] then []
    else (match f(xs[0]) case Some(y) => [y] case None => []) + FilterMap(xs[1..], f)
  }

  /** Keeping the recognised results of two stretches one after the other is keeping those of the whole. */
  lemma {:induction false} FilterMapAppend<A, B>(xs: seq<A>, ys: seq<A>, f: A -> Option<B>)
    ensures FilterMap(xs + ys, f) == FilterMap(xs, f) + FilterMap(ys, f)
  {
    if xs == [] {
      assert xs + ys == ys;
    } else {
      assert (xs + ys)[1..] == xs[1..] + ys;
      FilterMapAppend(xs[1..], ys, f);
    }
  }

  /** When every element is recognised, nothing is dropped and the order is kept. */
  lemma {:induction false} FilterMapTotal<A, B>(xs: seq<A>, f: A -> Option<B>)
    requires forall x :: x in xs ==> f(x).Some?
    ensures |FilterMap(xs, f)| == |xs|
    ensures forall i :: 0 <= i < |xs| ==> Some(FilterMap(xs, f)[i]) == f(xs[i])
  {
    if xs != [] {
      FilterMapTotal(xs[1..], f);
    }
  }

  /** When nothing is recognised, nothing is kept. */
  lemma {:induction false} FilterMapNone<A, B>(xs: seq<A>, f: A -> Option<B>)
    requires forall x :: x in xs ==> f(x).None?
    ensures FilterMap(xs, f) == []
  {
    if xs != [] {
      FilterMapNone(xs[1..], f);
    }
  }
}
