/** Options, results and sums shared by the whole model. */
module Prelude {

  datatype Option<+T> = None | Some(value: T) {
    function GetOr(default: T): T {
      match this
      case Some(v) => v
      case None => default
    }
  }

  /** The source raises; the model returns `Err`. Usable with `:-`. */
  datatype Result<+T, +E> = Ok(value: T) | Err(error: E) {
    predicate IsFailure() {
      Err?
    }

    function PropagateFailure<U>(): Result<U, E>
      requires Err?
    {
      Err(error)
    }

    function Extract(): T
      requires Ok?
    {
      value
    }
  }

  /** A check that carries no value: `:- Need(condition, error);` */
  datatype Check<+E> = Pass | Fail(error: E) {
    predicate IsFailure() {
      Fail?
    }

    function PropagateFailure<U>(): Result<U, E>
      requires Fail?
    {
      Err(error)
    }
  }

  function Need<E>(condition: bool, error: E): Check<E> {
    if condition then Pass else Fail(error)
  }

  function Min(a: int, b: int): int {
    if a <= b then a else b
  }

  function SumOf<T>(xs: seq<T>, f: T -> int): int {
    if xs == [] then 0 else SumOf(xs[..|xs| - 1], f) + f(xs[|xs| - 1])
  }

  lemma SumOfAppend<T>(xs: seq<T>, x: T, f: T -> int)
    ensures SumOf(xs + [x], f) == SumOf(xs, f) + f(x)
  {
    assert (xs + [x])[..|xs|] == xs;
  }

  lemma SumOfOne<T>(xs: seq<T>, f: T -> int)
    requires |xs| == 1
    ensures SumOf(xs, f) == f(xs[0])
  {
    assert xs[..0] == [];
    assert SumOf(xs[..0], f) == 0;
  }

  lemma {:induction false} SumOfConcat<T>(xs: seq<T>, ys: seq<T>, f: T -> int)
    ensures SumOf(xs + ys, f) == SumOf(xs, f) + SumOf(ys, f)
  {
    if ys == [] {
      assert xs + ys == xs;
    } else {
      var init, last := ys[..|ys| - 1], ys[|ys| - 1];
      assert xs + ys == (xs + init) + [last];
      SumOfAppend(xs + init, last, f);
      SumOfConcat(xs, init, f);
    }
  }

  /** Replacing one element moves the sum by the difference. */
  lemma {:induction false} SumOfUpdate<T>(xs: seq<T>, i: nat, x: T, f: T -> int)
    requires i < |xs|
    ensures SumOf(xs[i := x], f) == SumOf(xs, f) - f(xs[i]) + f(x)
  {
    var n := |xs| - 1;
    if i == n {
      assert xs[i := x][..n] == xs[..n];
    } else {
      assert xs[i := x][..n] == xs[..n][i := x];
      SumOfUpdate(xs[..n], i, x, f);
    }
  }

  lemma {:induction false} SumOfRemove<T>(xs: seq<T>, i: nat, f: T -> int)
    requires i < |xs|
    ensures SumOf(xs, f) == SumOf(xs[..i] + xs[i + 1..], f) + f(xs[i])
  {
    assert xs == xs[..i] + [xs[i]] + xs[i + 1..];
    SumOfConcat(xs[..i] + [xs[i]], xs[i + 1..], f);
    SumOfAppend(xs[..i], xs[i], f);
    SumOfConcat(xs[..i], xs[i + 1..], f);
  }

  /** A sum does not depend on the order of its terms. */
  lemma {:induction false} SumOfPermutation<T>(xs: seq<T>, ys: seq<T>, f: T -> int)
    requires multiset(xs) == multiset(ys)
    ensures SumOf(xs, f) == SumOf(ys, f)
    decreases |xs|
  {
    if xs == [] {
      assert |multiset(ys)| == |ys|;
      assert ys == [];
    } else {
      var init, last := xs[..|xs| - 1], xs[|xs| - 1];
      assert xs == init + [last];
      assert last in multiset(ys);
      var i :| 0 <= i < |ys| && ys[i] == last;
      var rest := ys[..i] + ys[i + 1..];
      assert ys == ys[..i] + [last] + ys[i + 1..];
      assert multiset(init) == multiset(xs) - multiset{last};
      assert multiset(rest) == multiset(ys) - multiset{last};
      SumOfPermutation(init, rest, f);
      SumOfRemove(ys, i, f);
    }
  }

  lemma {:induction false} SumOfNonNegative<T>(xs: seq<T>, f: T -> int)
    requires forall x | x in xs :: 0 <= f(x)
    ensures 0 <= SumOf(xs, f)
    ensures forall x | x in xs :: f(x) <= SumOf(xs, f)
  {
    if xs != [] {
      var init, last := xs[..|xs| - 1], xs[|xs| - 1];
      assert xs == init + [last];
      SumOfNonNegative(init, f);
    }
  }

  /** Sums of non-negative terms only grow. */
  lemma SumOfPrefix<T>(xs: seq<T>, n: nat, f: T -> int)
    requires n <= |xs| && forall x | x in xs :: 0 <= f(x)
    ensures 0 <= SumOf(xs[..n], f) <= SumOf(xs, f)
  {
    var tail := xs[n..];
    assert xs == xs[..n] + tail;
    assert forall x | x in tail :: x in xs;
    assert forall x | x in xs[..n] :: x in xs;
    SumOfConcat(xs[..n], tail, f);
    SumOfNonNegative(tail, f);
    SumOfNonNegative(xs[..n], f);
  }

  /** Distinct values drawn from a list are no more than the list is long. */
  lemma {:induction false} DistinctWithin<T>(xs: seq<T>, ys: seq<T>)
    requires forall i, j | 0 <= i < j < |xs| :: xs[i] != xs[j]
    requires forall x | x in xs :: x in ys
    ensures |xs| <= |ys|
  {
    if xs != [] {
      var n := |xs| - 1;
      assert xs[n] in xs && xs[n] in ys;
      var k :| 0 <= k < |ys| && ys[k] == xs[n];
      var rest := ys[..k] + ys[k + 1..];
      forall x | x in xs[..n]
        ensures x in rest
      {
        assert x in xs && x != xs[n];
        assert x in ys[..k] || x in ys[k + 1..];
      }
      DistinctWithin(xs[..n], rest);
    }
  }
}
