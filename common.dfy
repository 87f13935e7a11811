/**
 * Shared vocabulary of the model: an Option for JavaScript values that may be
 * NaN (a failed parseFloat, an invalid Date), JavaScript's Math.round on exact
 * rationals, and the `reduce((sum, x) => sum + f(x), 0)` idiom as a sum.
 */
module Common {

  datatype Option<+T> = None | Some(value: T) {
    function GetOr(default: T): T {
      match this
      case Some(v) => v
      case None => default
    }
  }

  function Abs(x: real): (r: real)
    ensures r >= 0.0 && (r == x || r == -x)
  {
    if x < 0.0 then -x else x
  }

  function Min(x: real, y: real): (r: real)
    ensures r <= x && r <= y && (r == x || r == y)
  {
    if x <= y then x else y
  }

  function Max(x: real, y: real): (r: real)
    ensures r >= x && r >= y && (r == x || r == y)
  {
    if x >= y then x else y
  }

  /** Math.round: the nearest integer, halves rounded toward +infinity. */
  function JsRound(x: real): (r: int)
    ensures x - 0.5 < r as real <= x + 0.5
  {
    (x + 0.5).Floor
  }

  lemma RoundOfInteger(n: int)
    ensures JsRound(n as real) == n
  {
  }

  /** Rounding commutes with adding a whole number. */
  lemma RoundShift(x: real, n: int)
    ensures JsRound(x + n as real) == JsRound(x) + n
  {
  }

  lemma RoundMonotonic(x: real, y: real)
    requires x <= y
    ensures JsRound(x) <= JsRound(y)
  {
  }

  /** Every value within half a unit of [lo, hi] rounds into [lo, hi]. */
  lemma RoundInRange(x: real, lo: int, hi: int)
    requires lo as real - 0.5 <= x < hi as real + 0.5
    ensures lo <= JsRound(x) <= hi
  {
  }

  /** Left-to-right `reduce((sum, x) => sum + f(x), 0)`. */
  function SumOf<T>(xs: seq<T>, f: T -> real): real
  {
    if xs == [] then 0.0 else SumOf(xs[..|xs| - 1], f) + f(xs[|xs| - 1])
  }

  lemma {:induction false} SumOfAppend<T>(xs: seq<T>, ys: seq<T>, f: T -> real)
    ensures SumOf(xs + ys, f) == SumOf(xs, f) + SumOf(ys, f)
    decreases |ys|
  {
    if ys == [] {
      assert xs + ys == xs;
    } else {
      var last := |ys| - 1;
      assert (xs + ys)[..|xs + ys| - 1] == xs + ys[..last];
      SumOfAppend(xs, ys[..last], f);
    }
  }

  /** Taking one term out of a sum. */
  lemma SumOfRemove<T>(ys: seq<T>, k: nat, f: T -> real)
    requires k < |ys|
    ensures SumOf(ys, f) == SumOf(ys[..k] + ys[k + 1..], f) + f(ys[k])
  {
    var a, x, b := ys[..k], ys[k], ys[k + 1..];
    SplitAround(ys, k);
    SumOfAppend(a + [x], b, f);
    SumOfSnoc(a, x, f);
    SumOfAppend(a, b, f);
  }

  lemma SplitAround<T>(ys: seq<T>, k: nat)
    requires k < |ys|
    ensures ys == (ys[..k] + [ys[k]]) + ys[k + 1..]
  {
  }

  lemma SumOfSnoc<T>(xs: seq<T>, x: T, f: T -> real)
    ensures SumOf(xs + [x], f) == SumOf(xs, f) + f(x)
  {
    assert (xs + [x])[..|xs|] == xs;
  }

  lemma MultisetRemove<T>(xs: seq<T>, ys: seq<T>, k: nat)
    requires multiset(xs) == multiset(ys) && xs != []
    requires k < |ys| && ys[k] == xs[|xs| - 1]
    ensures multiset(xs[..|xs| - 1]) == multiset(ys[..k] + ys[k + 1..])
  {
    var init, x := xs[..|xs| - 1], ys[k];
    var a, b := ys[..k], ys[k + 1..];
    assert xs == init + [x];
    assert ys == a + [x] + b;
    assert multiset(xs) == multiset(init) + multiset{x};
    assert multiset(ys) == multiset(a + b) + multiset{x};
    assert multiset(init) == multiset(xs) - multiset{x};
    assert multiset(a + b) == multiset(ys) - multiset{x};
  }

  /** A sum does not depend on the order of its terms. */
  lemma {:induction false} SumOfPermutation<T>(xs: seq<T>, ys: seq<T>, f: T -> real)
    requires multiset(xs) == multiset(ys)
    ensures SumOf(xs, f) == SumOf(ys, f)
    decreases |xs|
  {
    if xs == [] {
      assert |ys| == |multiset(ys)| == 0;
    } else {
      var init, x := xs[..|xs| - 1], xs[|xs| - 1];
      assert x in multiset(ys) by {
        assert x in multiset(xs);
      }
      var k :| 0 <= k < |ys| && ys[k] == x;
      var rest := ys[..k] + ys[k + 1..];
      MultisetRemove(xs, ys, k);
      SumOfPermutation(init, rest, f);
      SumOfRemove(ys, k, f);
    }
  }

  /** A sum of n terms, each within [lo, hi], lies within [n * lo, n * hi]. */
  lemma {:induction false} SumOfBounds<T>(xs: seq<T>, f: T -> real, lo: real, hi: real)
    requires forall i :: 0 <= i < |xs| ==> lo <= f(xs[i]) <= hi
    ensures |xs| as real * lo <= SumOf(xs, f) <= |xs| as real * hi
    decreases |xs|
  {
    if xs != [] {
      var init := xs[..|xs| - 1];
      assert forall i :: 0 <= i < |init| ==> init[i] == xs[i];
      SumOfBounds(init, f, lo, hi);
    }
  }

  /** A sum of non-negative terms is non-negative. */
  lemma {:induction false} SumOfNonNegative<T>(xs: seq<T>, f: T -> real)
    ensures (forall x :: x in xs ==> f(x) >= 0.0) ==> SumOf(xs, f) >= 0.0
    decreases |xs|
  {
    if xs != [] {
      var init := xs[..|xs| - 1];
      assert forall x :: x in init ==> x in xs;
      SumOfNonNegative(init, f);
    }
  }

  /** The mean of terms within [lo, hi] lies within [lo, hi]. */
  lemma MeanBounds<T>(xs: seq<T>, f: T -> real, lo: real, hi: real)
    requires |xs| > 0
    requires forall i :: 0 <= i < |xs| ==> lo <= f(xs[i]) <= hi
    ensures lo <= SumOf(xs, f) / |xs| as real <= hi
  {
    SumOfBounds(xs, f, lo, hi);
    DivideBounds(SumOf(xs, f), |xs| as real, lo, hi);
  }

  /** Dividing n * lo <= total <= n * hi by a positive n. */
  lemma DivideBounds(total: real, n: real, lo: real, hi: real)
    requires n > 0.0 && n * lo <= total <= n * hi
    ensures lo <= total / n <= hi
  {
    var m := total / n;
    assert total == m * n;
    assert (m - lo) * n >= 0.0;
    assert (hi - m) * n >= 0.0;
  }

  /** r is s with some elements left out (greedy matching from the front decides it). */
  predicate IsSubsequence<T(==)>(r: seq<T>, s: seq<T>)
    decreases |s|
  {
    if r == [] then true
    else if s == [] then false
    else if r[0] == s[0] then IsSubsequence(r[1..], s[1..])
    else IsSubsequence(r, s[1..])
  }

  lemma {:induction false} SubsequenceOfItself<T>(s: seq<T>)
    ensures IsSubsequence(s, s)
    decreases |s|
  {
    if s != [] {
      SubsequenceOfItself(s[1..]);
    }
  }
}
