/**
 * The arithmetic the ticks apply to a sensor's buffers: the sum and mean of a
 * list of samples, and numpy-style gradient of the derivative window, whose
 * last element decides a temperature spike.
 */
module Stats {

  /** Sum of the samples, accumulated from the front as the source's sum() does. */
  function Sum(s: seq<real>): real {
    if s == [] then 0.0 else Sum(s[..|s| - 1]) + s[|s| - 1]
  }

  /** Mean of a non-empty list of samples. */
  function Mean(s: seq<real>): real
    requires |s| > 0
  {
    Sum(s) / |s| as real
  }

  /** The sum of samples that all lie in [lo, hi] lies between |s|*lo and |s|*hi. */
  lemma {:induction false} SumBounds(s: seq<real>, lo: real, hi: real)
    requires forall i :: 0 <= i < |s| ==> lo <= s[i] <= hi
    ensures |s| as real * lo <= Sum(s) <= |s| as real * hi
  {
    if s != [] {
      var p := s[..|s| - 1];
      SumBounds(p, lo, hi);
      assert |s| as real * lo == |p| as real * lo + lo;
      assert |s| as real * hi == |p| as real * hi + hi;
    }
  }

  /** The mean of samples that all lie in [lo, hi] lies in [lo, hi]. */
  lemma MeanWithin(s: seq<real>, lo: real, hi: real)
    requires |s| > 0
    requires forall i :: 0 <= i < |s| ==> lo <= s[i] <= hi
    ensures lo <= Mean(s) <= hi
  {
    SumBounds(s, lo, hi);
    var n := |s| as real;
    assert Mean(s) * n == Sum(s);
  }

  /** A constant signal averages to its value. */
  lemma MeanOfConstant(s: seq<real>, c: real)
    requires |s| > 0
    requires forall i :: 0 <= i < |s| ==> s[i] == c
    ensures Mean(s) == c
  {
    MeanWithin(s, c, c);
  }

  /**
   * numpy.gradient with unit spacing and first-order edges: one-sided
   * differences at both ends, central differences inside.
   */
  function Gradient(a: seq<real>): (g: seq<real>)
    requires |a| >= 2
    ensures |g| == |a|
  {
    seq(|a|, i requires 0 <= i < |a| =>
      if i == 0 then a[1] - a[0]
      else if i == |a| - 1 then a[i] - a[i - 1]
      else (a[i + 1] - a[i - 1]) / 2.0)
  }

  /** The temperature spike threshold on the last gradient, in degrees per sample. */
  const SteepLimit: real := 0.02

  /** The derivative rule: at least three smoothed values and a last gradient of magnitude >= 0.02. */
  predicate Steep(a: seq<real>) {
    |a| >= 3 && (Gradient(a)[|a| - 1] >= SteepLimit || Gradient(a)[|a| - 1] <= -SteepLimit)
  }

  /**
   * The rule looks only at the last two smoothed values: it fires exactly when
   * their difference has magnitude at least 0.02 (the bound itself fires).
   */
  lemma SteepIsLastDifference(a: seq<real>)
    ensures Steep(a) <==> |a| >= 3 && (a[|a| - 1] - a[|a| - 2] >= 0.02 || a[|a| - 2] - a[|a| - 1] >= 0.02)
  {
  }
}
