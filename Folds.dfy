/** Concatenation of one string per element, the shape of every
    `forEach(x => s += ...)` loop in the core; the element-wise map that
    `push` loops build; the left fold of a state-updating loop; and the
    count a counting `reduce` computes. */
module Folds {

  /** The concatenation of `f(x)` over `xs`, left to right, as a loop that
      appends `f(xs[i])` at step i builds it. */
  function ConcatMap<T>(xs: seq<T>, f: T -> string): string
    decreases |xs|
  {
    if |xs| == 0 then "" else ConcatMap(xs[..|xs| - 1], f) + f(xs[|xs| - 1])
  }

  /** The concatenation over `a + b` is the concatenation over `a` followed
      by the one over `b`. */
  lemma {:induction false} ConcatMapAppend<T>(a: seq<T>, b: seq<T>, f: T -> string)
    ensures ConcatMap(a + b, f) == ConcatMap(a, f) + ConcatMap(b, f)
    decreases |b|
  {
    if |b| == 0 {
      assert a + b == a;
    } else {
      var c := a + b;
      assert c[..|c| - 1] == a + b[..|b| - 1];
      ConcatMapAppend(a, b[..|b| - 1], f);
    }
  }

  /** The concatenation over one element is that element's piece. */
  lemma {:induction false} ConcatMapOne<T>(x: T, f: T -> string)
    ensures ConcatMap([x], f) == f(x)
  {
    assert [x][..0] == [];
  }

  /** The piece for element i sits between the pieces for the elements before
      it and those after it. */
  lemma {:induction false} ConcatMapAt<T>(xs: seq<T>, i: int, f: T -> string)
    requires 0 <= i < |xs|
    ensures ConcatMap(xs, f) == ConcatMap(xs[..i], f) + f(xs[i]) + ConcatMap(xs[i + 1..], f)
  {
    var pre, mid, post := xs[..i], [xs[i]], xs[i + 1..];
    calc {
      ConcatMap(xs, f);
      { assert xs == pre + mid + post; }
      ConcatMap(pre + mid + post, f);
      { ConcatMapAppend(pre + mid, post, f); }
      ConcatMap(pre + mid, f) + ConcatMap(post, f);
      { ConcatMapAppend(pre, mid, f); ConcatMapOne(xs[i], f); }
      ConcatMap(pre, f) + f(xs[i]) + ConcatMap(post, f);
    }
  }

  /** `f` applied to each element, in order, as a loop that pushes `f(xs[i])`
      at step i builds it. */
  function MapSeq<T, U>(xs: seq<T>, f: T -> U): (r: seq<U>)
    ensures |r| == |xs|
    ensures forall k :: 0 <= k < |xs| ==> r[k] == f(xs[k])
    decreases |xs|
  {
    if |xs| == 0 then []
    else
      var init := MapSeq(xs[..|xs| - 1], f);
      assert forall k :: 0 <= k < |xs| - 1 ==> init[k] == f(xs[k]);
      init + [f(xs[|xs| - 1])]
  }

  /** The state reached from `st` by applying `step` to each element of
      `xs`, left to right, as a loop that updates its state once per element
      reaches it. */
  function Fold<S, L>(st: S, xs: seq<L>, step: (S, L) -> S): S
    decreases |xs|
  {
    if |xs| == 0 then st else step(Fold(st, xs[..|xs| - 1], step), xs[|xs| - 1])
  }

  /** Folding over `a + b` is folding over `a`, then over `b`. */
  lemma {:induction false} FoldAppend<S, L>(st: S, a: seq<L>, b: seq<L>, step: (S, L) -> S)
    ensures Fold(st, a + b, step) == Fold(Fold(st, a, step), b, step)
    decreases |b|
  {
    if |b| == 0 {
      assert a + b == a;
    } else {
      var c := a + b;
      assert c[..|c| - 1] == a + b[..|b| - 1];
      FoldAppend(st, a, b[..|b| - 1], step);
    }
  }

  /** A state that no step changes is kept by any fold. */
  lemma {:induction false} FoldAtFixedPoint<S, L>(st: S, xs: seq<L>, step: (S, L) -> S)
    requires forall x :: step(st, x) == st
    ensures Fold(st, xs, step) == st
    decreases |xs|
  {
    if |xs| > 0 {
      FoldAtFixedPoint(st, xs[..|xs| - 1], step);
    }
  }

  /** How many elements of `xs` satisfy `f`, counted left to right. */
  function CountIf<T>(xs: seq<T>, f: T -> bool): (n: nat)
    ensures n <= |xs|
    decreases |xs|
  {
    if |xs| == 0 then 0 else CountIf(xs[..|xs| - 1], f) + (if f(xs[|xs| - 1]) then 1 else 0)
  }

  /** The elements of `xs` that satisfy `f`. */
  function Satisfying<T>(xs: seq<T>, f: T -> bool): set<T> {
    set x | x in xs && f(x)
  }

  /** Over distinct elements, the count is the number of elements that
      satisfy `f`. */
  lemma {:induction false} CountIfIsCardinality<T>(xs: seq<T>, f: T -> bool)
    requires forall i, j :: 0 <= i < j < |xs| ==> xs[i] != xs[j]
    ensures CountIf(xs, f) == |Satisfying(xs, f)|
    decreases |xs|
  {
    if |xs| > 0 {
      var init, last := xs[..|xs| - 1], xs[|xs| - 1];
      CountIfIsCardinality(init, f);
      var before := Satisfying(init, f);
      var after := Satisfying(xs, f);
      assert last !in before;
      assert forall x :: x in xs <==> x in init || x == last by {
        assert xs == init + [last];
      }
      if f(last) {
        assert after == before + {last};
        assert |before + {last}| == |before| + 1;
      } else {
        assert after == before;
      }
    }
  }
}
