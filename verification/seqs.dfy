/** Sequence combinators the file-reading loop is built from, with the facts about them
    proved once for any element function. */
module Seqs {

  /** `[y for x in xs for y in f(x)]`: the loop that appends what `f` yields for each
      element in turn. */
  function FlatMap<A, B>(f: A -> seq<B>, xs: seq<A>): (r: seq<B>)
    ensures |xs| == 0 ==> r == []
    decreases |xs|
  {
    if xs == [] then [] else f(xs[0]) + FlatMap(f, xs[1..])
  }

  /** `[x for x in xs if p(x)]`. */
  function Filter<A>(p: A -> bool, xs: seq<A>): (r: seq<A>)
    ensures |r| <= |xs|
    ensures forall k | 0 <= k < |r| :: p(r[k])
    decreases |xs|
  {
    if xs == [] then []
    else if p(xs[0]) then [xs[0]] + Filter(p, xs[1..])
    else Filter(p, xs[1..])
  }

  /** `[f(x) for x in xs]`. */
  function Map<A, B>(f: A -> B, xs: seq<A>): (r: seq<B>)
    ensures |r| == |xs|
    ensures forall k | 0 <= k < |xs| :: r[k] == f(xs[k])
  {
    seq(|xs|, k requires 0 <= k < |xs| => f(xs[k]))
  }

  lemma ConcatAssociative<T>(x: seq<T>, y: seq<T>, z: seq<T>)
    ensures x + (y + z) == (x + y) + z
  {
  }

  /** The loop over one element followed by the rest. */
  lemma FlatMapCons<A, B>(f: A -> seq<B>, x: A, xs: seq<A>)
    ensures FlatMap(f, [x] + xs) == f(x) + FlatMap(f, xs)
  {
    assert ([x] + xs)[1..] == xs;
  }

  /** Running the loop over `a + b` is running it over `a`, then over `b`. */
  lemma {:induction false} FlatMapAppend<A, B>(f: A -> seq<B>, a: seq<A>, b: seq<A>)
    ensures FlatMap(f, a + b) == FlatMap(f, a) + FlatMap(f, b)
    decreases |a|
  {
    if a == [] {
      assert a + b == b;
    } else {
      assert (a + b)[0] == a[0];
      assert (a + b)[1..] == a[1..] + b;
      FlatMapAppend(f, a[1..], b);
      ConcatAssociative(f(a[0]), FlatMap(f, a[1..]), FlatMap(f, b));
    }
  }

  /** The loop yields nothing exactly when no element yields anything. */
  lemma {:induction false} FlatMapEmpty<A, B>(f: A -> seq<B>, xs: seq<A>)
    ensures FlatMap(f, xs) == [] <==> forall i | 0 <= i < |xs| :: f(xs[i]) == []
    decreases |xs|
  {
    if xs != [] {
      FlatMapEmpty(f, xs[1..]);
      assert forall i | 1 <= i < |xs| :: xs[i] == xs[1..][i - 1];
    }
  }

  /** When every element yields one value `g(x)` if it passes `p` and nothing otherwise,
      the loop is a filter followed by a map. */
  lemma {:induction false} FlatMapOfSingletons<A, B>(
    f: A -> seq<B>, p: A -> bool, g: A -> B, xs: seq<A>)
    requires forall x :: f(x) == (if p(x) then [g(x)] else [])
    ensures FlatMap(f, xs) == Map(g, Filter(p, xs))
    decreases |xs|
  {
    if xs != [] {
      FlatMapOfSingletons(f, p, g, xs[1..]);
      var rest := Filter(p, xs[1..]);
      if p(xs[0]) {
        assert Map(g, [xs[0]] + rest) == [g(xs[0])] + Map(g, rest);
      }
    }
  }
}
