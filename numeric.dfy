/** The reductions the engine borrows from numpy and from Python's builtins,
    over exact reals: `sum`, `np.mean`, `np.std(ddof=1)` (up to the square root),
    `np.clip`, `abs`, `max`, `min` and the slice `s[-n:]`. */
module Numeric {

  function Abs(x: real): (r: real)
    ensures r >= 0.0 && (r == x || r == -x)
  {
    if x < 0.0 then -x else x
  }

  /** `np.clip(x, lo, hi)`, i.e. `minimum(maximum(x, lo), hi)`. */
  function Clip(x: real, lo: real, hi: real): (r: real)
    requires lo <= hi
    ensures lo <= r <= hi
    ensures lo <= x <= hi ==> r == x
    ensures x < lo ==> r == lo
    ensures x > hi ==> r == hi
  {
    var m := if x > lo then x else lo;
    if m < hi then m else hi
  }

  lemma ClipMonotone(x: real, y: real, lo: real, hi: real)
    requires lo <= hi && x <= y
    ensures Clip(x, lo, hi) <= Clip(y, lo, hi)
  {
  }

  /** The last element, `s[-1]`. */
  function Last(s: seq<real>): real
    requires |s| > 0
  {
    s[|s| - 1]
  }

  /** The slice `s[-n:]`: the last `n` elements, or all of `s` when it is shorter. */
  function LastN(s: seq<real>, n: nat): (w: seq<real>)
    requires n > 0
    ensures |w| == if |s| <= n then |s| else n
    ensures forall i :: 0 <= i < |w| ==> w[i] == s[|s| - |w| + i]
  {
    if |s| <= n then s else s[|s| - n..]
  }

  function Sum(s: seq<real>): real
  {
    if s == [] then 0.0 else s[0] + Sum(s[1..])
  }

  function Mean(s: seq<real>): real
    requires |s| > 0
  {
    Sum(s) / (|s| as real)
  }

  /** Every element of `s` lies in [lo, hi]. */
  ghost predicate Within(s: seq<real>, lo: real, hi: real)
  {
    forall i :: 0 <= i < |s| ==> lo <= s[i] <= hi
  }

  lemma {:induction false} SumBounds(s: seq<real>, lo: real, hi: real)
    requires Within(s, lo, hi)
    ensures (|s| as real) * lo <= Sum(s) <= (|s| as real) * hi
  {
    if s != [] {
      assert Within(s[1..], lo, hi) by {
        forall i | 0 <= i < |s[1..]| ensures lo <= s[1..][i] <= hi {
          assert s[1..][i] == s[i + 1];
        }
      }
      SumBounds(s[1..], lo, hi);
      assert (|s| as real) * lo == lo + (|s[1..]| as real) * lo;
      assert (|s| as real) * hi == hi + (|s[1..]| as real) * hi;
    }
  }

  /** The mean of a sequence lies within any bounds of its elements. */
  lemma MeanBounds(s: seq<real>, lo: real, hi: real)
    requires |s| > 0 && Within(s, lo, hi)
    ensures lo <= Mean(s) <= hi
  {
    SumBounds(s, lo, hi);
    var n := |s| as real;
    assert n * lo <= Sum(s) <= n * hi;
    assert Sum(s) / n >= lo by {
      assert Sum(s) >= n * lo;
    }
    assert Sum(s) / n <= hi by {
      assert Sum(s) <= n * hi;
    }
  }

  lemma {:induction false} SumAppend(s: seq<real>, x: real)
    ensures Sum(s + [x]) == Sum(s) + x
  {
    if s == [] {
      assert [] + [x] == [x];
    } else {
      assert (s + [x])[1..] == s[1..] + [x];
      SumAppend(s[1..], x);
    }
  }

  lemma {:induction false} SumStrictlyBelow(s: seq<real>, x: real)
    requires s != [] && forall i :: 0 <= i < |s| ==> s[i] < x
    ensures Sum(s) < (|s| as real) * x
  {
    if |s| > 1 {
      SumStrictlyBelow(s[1..], x);
      assert (|s| as real) * x == x + (|s[1..]| as real) * x;
    }
  }

  /** A last element above every other element lies above the mean. */
  lemma MeanBelowNewHigh(s: seq<real>)
    requires |s| >= 2 && forall i :: 0 <= i < |s| - 1 ==> s[i] < s[|s| - 1]
    ensures Mean(s) < Last(s)
  {
    var p, x := s[..|s| - 1], s[|s| - 1];
    assert s == p + [x];
    SumAppend(p, x);
    SumStrictlyBelow(p, x);
    QuotientBelow(Sum(s), |s| as real, x);
  }

  /** A value below `n * x` divided by a positive `n` is below `x`. */
  lemma QuotientBelow(a: real, n: real, x: real)
    requires n > 0.0 && a < n * x
    ensures a / n < x
  {
    QuotientSign(a - n * x, n);
    assert (a - n * x) / n == a / n - x;
  }

  /** A sequence all of whose elements equal `c`. */
  ghost predicate Constant(s: seq<real>, c: real)
  {
    forall i :: 0 <= i < |s| ==> s[i] == c
  }

  lemma MeanOfConstant(s: seq<real>, c: real)
    requires |s| > 0 && Constant(s, c)
    ensures Mean(s) == c
  {
    MeanBounds(s, c, c);
  }

  /** `max(s)` for a non-empty list. */
  function MaxOf(s: seq<real>): (m: real)
    requires |s| > 0
    ensures exists i :: 0 <= i < |s| && s[i] == m
    ensures forall i :: 0 <= i < |s| ==> s[i] <= m
  {
    if |s| == 1 then s[0]
    else
      var rest := MaxOf(s[1..]);
      assert forall i :: 1 <= i < |s| ==> s[i] == s[1..][i - 1];
      if s[0] >= rest then s[0] else rest
  }

  /** `min(s)` for a non-empty list. */
  function MinOf(s: seq<real>): (m: real)
    requires |s| > 0
    ensures exists i :: 0 <= i < |s| && s[i] == m
    ensures forall i :: 0 <= i < |s| ==> m <= s[i]
  {
    if |s| == 1 then s[0]
    else
      var rest := MinOf(s[1..]);
      assert forall i :: 1 <= i < |s| ==> s[i] == s[1..][i - 1];
      if s[0] <= rest then s[0] else rest
  }

  /** The mean lies between the smallest and the largest element. */
  lemma MeanBetweenMinAndMax(s: seq<real>)
    requires |s| > 0
    ensures MinOf(s) <= Mean(s) <= MaxOf(s)
  {
    MeanBounds(s, MinOf(s), MaxOf(s));
  }

  lemma ProductNonNegative(x: real, y: real)
    requires x >= 0.0 && y >= 0.0
    ensures x * y >= 0.0
  {
  }

  /** The only root of 0 is 0. */
  lemma RootOfZero(root: real, v: real)
    requires root * root == v
    ensures v == 0.0 ==> root == 0.0
  {
    if root != 0.0 {
      assert v / root == root;
    }
  }

  /** Dividing by a positive number keeps the sign. */
  lemma QuotientSign(d: real, std: real)
    requires std > 0.0
    ensures d / std > 0.0 <==> d > 0.0
    ensures d / std < 0.0 <==> d < 0.0
    ensures d / std == 0.0 <==> d == 0.0
  {
    assert (d / std) * std == d;
    if d > 0.0 {
      assert d / std > 0.0;
    } else if d < 0.0 {
      assert d / std < 0.0;
    }
  }

  /** `d ** 2` */
  function Sq(d: real): (r: real)
    ensures r >= 0.0
  {
    var a := if d >= 0.0 then d else -d;
    ProductNonNegative(a, a);
    a * a
  }

  /** Sum of squared deviations from `m`. */
  function SquaredDeviations(s: seq<real>, m: real): (r: real)
    ensures r >= 0.0
  {
    if s == [] then 0.0 else Sq(s[0] - m) + SquaredDeviations(s[1..], m)
  }

  /** A sequence all of whose elements equal `m` has no deviation from `m`. */
  lemma {:induction false} SquaredDeviationsOfConstant(s: seq<real>, m: real)
    requires Constant(s, m)
    ensures SquaredDeviations(s, m) == 0.0
  {
    if s != [] {
      assert Constant(s[1..], m) by {
        forall i | 0 <= i < |s[1..]| ensures s[1..][i] == m {
          assert s[1..][i] == s[i + 1];
        }
      }
      SquaredDeviationsOfConstant(s[1..], m);
      assert Sq(s[0] - m) == 0.0;
    }
  }

  /** Sample variance with Bessel's correction, `np.var(s, ddof=1)`. */
  function SampleVariance(s: seq<real>): (v: real)
    requires |s| >= 2
    ensures v >= 0.0
  {
    SquaredDeviations(s, Mean(s)) / ((|s| - 1) as real)
  }

  /** A constant sequence has sample variance zero. */
  lemma SampleVarianceOfConstant(s: seq<real>, c: real)
    requires |s| >= 2 && Constant(s, c)
    ensures SampleVariance(s) == 0.0
  {
    MeanOfConstant(s, c);
    SquaredDeviationsOfConstant(s, c);
  }

  /** `sqrt` is the non-negative square root on the non-negative reals. The square
      root inside `np.std` is not modelled; every member that needs it takes one
      satisfying this predicate. */
  ghost predicate IsSquareRoot(sqrt: real -> real)
  {
    forall x :: 0.0 <= x ==> 0.0 <= sqrt(x) && sqrt(x) * sqrt(x) == x
  }
}
