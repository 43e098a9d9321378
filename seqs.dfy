/** Generic sequence functions over a per-element function, so that facts about a whole
    sequence are proved once without looking inside the per-element function. */
module Seqs {

  /** `f` applied to each element of `xs`, the results concatenated in order. */
  function FlatMap<A, B>(f: A -> seq<B>, xs: seq<A>): seq<B>
  {
    if xs == [] then [] else FlatMap(f, xs[..|xs| - 1]) + f(xs[|xs| - 1])
  }

  /** Concatenating element-wise results distributes over concatenation of the inputs. */
  lemma {:induction false} FlatMapAppend<A, B>(f: A -> seq<B>, a: seq<A>, b: seq<A>)
    ensures FlatMap(f, a + b) == FlatMap(f, a) + FlatMap(f, b)
  {
    if b == [] {
      assert a + b == a;
    } else {
      var n := |b|;
      var ab := a + b;
      var b' := b[..n - 1];
      assert ab[..|ab| - 1] == a + b';
      assert ab[|ab| - 1] == b[n - 1];
      FlatMapAppend(f, a, b');
      assert FlatMap(f, ab) == FlatMap(f, a + b') + f(b[n - 1]);
    }
  }

  /** When every element maps to exactly one result, the concatenation lists them. */
  lemma {:induction false} FlatMapSingletons<A, B>(f: A -> seq<B>, xs: seq<A>, ys: seq<B>)
    requires |xs| == |ys|
    requires forall i :: 0 <= i < |xs| ==> f(xs[i]) == [ys[i]]
    ensures FlatMap(f, xs) == ys
  {
    if xs != [] {
      var n := |xs|;
      FlatMapSingletons(f, xs[..n - 1], ys[..n - 1]);
      assert ys == ys[..n - 1] + [ys[n - 1]];
    }
  }

  /** Every result comes from some element. */
  lemma {:induction false} FlatMapFrom<A, B>(f: A -> seq<B>, xs: seq<A>)
    ensures forall y :: y in FlatMap(f, xs) ==> exists k :: 0 <= k < |xs| && y in f(xs[k])
  {
    if xs != [] {
      var n := |xs|;
      var front := xs[..n - 1];
      FlatMapFrom(f, front);
      forall y | y in FlatMap(f, xs)
        ensures exists k :: 0 <= k < |xs| && y in f(xs[k])
      {
        if y !in f(xs[n - 1]) {
          assert y in FlatMap(f, front);
          var k :| 0 <= k < |front| && y in f(front[k]);
          assert front[k] == xs[k];
        }
      }
    }
  }

  /** When every element maps to at most one result, there are at most as many results as
      elements. */
  lemma {:induction false} FlatMapBound<A, B>(f: A -> seq<B>, xs: seq<A>)
    requires forall i :: 0 <= i < |xs| ==> |f(xs[i])| <= 1
    ensures |FlatMap(f, xs)| <= |xs|
  {
    if xs != [] {
      FlatMapBound(f, xs[..|xs| - 1]);
    }
  }

  /** The index of the first element satisfying `p`, or `|xs|` when none does. */
  function FirstWhere<T>(p: T -> bool, xs: seq<T>): (k: nat)
    ensures k <= |xs|
    ensures forall j :: 0 <= j < k ==> !p(xs[j])
    ensures k < |xs| ==> p(xs[k])
  {
    if xs == [] || p(xs[0]) then 0 else 1 + FirstWhere(p, xs[1..])
  }

  /** The first index is the only one with no earlier match that matches or ends `xs`. */
  lemma FirstWhereUnique<T>(p: T -> bool, xs: seq<T>, k: nat)
    requires k <= |xs|
    requires forall j :: 0 <= j < k ==> !p(xs[j])
    requires k < |xs| ==> p(xs[k])
    ensures FirstWhere(p, xs) == k
  {
  }
}
