/**
 * The numeric folds of the aggregation, over exact reals: the running sum
 * `reduce((acc, x) => acc + x, 0)`, the index-aligned weighted sum and the
 * arithmetic mean with the `length || 1` divisor.
 */
module Sums {

  /** Left fold of `+` starting at 0. */
  function Sum(s: seq<real>): real
  {
    if |s| == 0 then 0.0 else Sum(s[..|s| - 1]) + s[|s| - 1]
  }

  lemma SumSnoc(s: seq<real>, x: real)
    ensures Sum(s + [x]) == Sum(s) + x
  {
    assert (s + [x])[..|s|] == s;
  }

  lemma {:induction false} SumAppend(s: seq<real>, t: seq<real>)
    ensures Sum(s + t) == Sum(s) + Sum(t)
  {
    if |t| > 0 {
      var t' := t[..|t| - 1];
      assert s + t == (s + t') + [t[|t| - 1]];
      assert t == t' + [t[|t| - 1]];
      SumAppend(s, t');
      SumSnoc(s + t', t[|t| - 1]);
      SumSnoc(t', t[|t| - 1]);
    } else {
      assert s + t == s;
    }
  }

  /** Every element within [lo, hi] puts the sum within [|s| * lo, |s| * hi]. */
  lemma {:induction false} SumBounds(s: seq<real>, lo: real, hi: real)
    requires forall i :: 0 <= i < |s| ==> lo <= s[i] <= hi
    ensures |s| as real * lo <= Sum(s) <= |s| as real * hi
  {
    if |s| > 0 {
      SumBounds(s[..|s| - 1], lo, hi);
    }
  }

  /**
   * Sum over interval index i of weights[i] * values[i], accumulated left to
   * right: the carbon mass of a day, weighting each interval's consumption by
   * that interval's carbon intensity.
   */
  function WeightedSum(weights: seq<real>, values: seq<real>): real
    requires |weights| == |values|
  {
    if |weights| == 0 then 0.0
    else WeightedSum(weights[..|weights| - 1], values[..|values| - 1])
         + weights[|weights| - 1] * values[|values| - 1]
  }

  /**
   * With non-negative values and every weight within [lo, hi], the weighted sum
   * lies between lo and hi times the plain sum of the values: the day's carbon
   * mass lies between its lowest and its highest intensity times its consumption.
   */
  lemma WeightedSumBounds(weights: seq<real>, values: seq<real>, lo: real, hi: real)
    requires |weights| == |values|
    requires forall i :: 0 <= i < |values| ==> 0.0 <= values[i]
    requires forall i :: 0 <= i < |weights| ==> lo <= weights[i] <= hi
    ensures lo * Sum(values) <= WeightedSum(weights, values) <= hi * Sum(values)
  {
    WeightedSumAtLeast(weights, values, lo);
    WeightedSumAtMost(weights, values, hi);
  }

  lemma {:induction false} WeightedSumAtLeast(weights: seq<real>, values: seq<real>, lo: real)
    requires |weights| == |values|
    requires forall i :: 0 <= i < |values| ==> 0.0 <= values[i]
    requires forall i :: 0 <= i < |weights| ==> lo <= weights[i]
    ensures lo * Sum(values) <= WeightedSum(weights, values)
  {
    if |weights| > 0 {
      var n := |weights| - 1;
      var pw, pv := weights[..n], values[..n];
      assert forall i :: 0 <= i < |pv| ==> pv[i] == values[i];
      assert forall i :: 0 <= i < |pw| ==> pw[i] == weights[i];
      WeightedSumAtLeast(pw, pv, lo);
      AtLeastStep(lo, Sum(pv), WeightedSum(pw, pv), weights[n], values[n]);
    }
  }

  lemma {:induction false} WeightedSumAtMost(weights: seq<real>, values: seq<real>, hi: real)
    requires |weights| == |values|
    requires forall i :: 0 <= i < |values| ==> 0.0 <= values[i]
    requires forall i :: 0 <= i < |weights| ==> weights[i] <= hi
    ensures WeightedSum(weights, values) <= hi * Sum(values)
  {
    if |weights| > 0 {
      var n := |weights| - 1;
      var pw, pv := weights[..n], values[..n];
      assert forall i :: 0 <= i < |pv| ==> pv[i] == values[i];
      assert forall i :: 0 <= i < |pw| ==> pw[i] == weights[i];
      WeightedSumAtMost(pw, pv, hi);
      AtMostStep(hi, Sum(pv), WeightedSum(pw, pv), weights[n], values[n]);
    }
  }

  /** The arithmetic of one step of WeightedSumAtLeast: the bound survives one more weighted value. */
  lemma AtLeastStep(lo: real, sum: real, weighted: real, w: real, v: real)
    requires lo * sum <= weighted && lo <= w && 0.0 <= v
    ensures lo * (sum + v) <= weighted + w * v
  {
    ScaleIsMonotone(lo, w, v);
    Distribute(lo, sum, v);
  }

  /** The arithmetic of one step of WeightedSumAtMost. */
  lemma AtMostStep(hi: real, sum: real, weighted: real, w: real, v: real)
    requires weighted <= hi * sum && w <= hi && 0.0 <= v
    ensures weighted + w * v <= hi * (sum + v)
  {
    ScaleIsMonotone(w, hi, v);
    Distribute(hi, sum, v);
  }

  lemma Distribute(a: real, x: real, y: real)
    ensures a * (x + y) == a * x + a * y
  {
  }

  lemma ScaleIsMonotone(a: real, b: real, v: real)
    requires a <= b && 0.0 <= v
    ensures a * v <= b * v
  {
    assert b * v - a * v == (b - a) * v;
  }

  /** A constant intensity c over the day gives c times the day's consumption, whatever its sign. */
  lemma {:induction false} WeightedSumOfConstant(weights: seq<real>, values: seq<real>, c: real)
    requires |weights| == |values|
    requires forall i :: 0 <= i < |weights| ==> weights[i] == c
    ensures WeightedSum(weights, values) == c * Sum(values)
  {
    if |weights| > 0 {
      var n := |weights| - 1;
      var pw, pv := weights[..n], values[..n];
      assert forall i :: 0 <= i < |pw| ==> pw[i] == weights[i];
      WeightedSumOfConstant(pw, pv, c);
      SumSnoc(pv, values[n]);
      assert pv + [values[n]] == values;
      assert Sum(values) == Sum(pv) + values[n];
      Distribute(c, Sum(pv), values[n]);
    }
  }

  /** Sum divided by the count, with `count || 1` as the divisor. */
  function Mean(s: seq<real>): real
  {
    Sum(s) / (if |s| == 0 then 1 else |s|) as real
  }

  /** A fuel with no samples averages to exactly 0, not NaN. */
  lemma MeanOfNoSamples()
    ensures Mean([]) == 0.0
  {
  }

  /** The mean of samples that all lie within [lo, hi] lies within [lo, hi]. */
  lemma MeanBounds(s: seq<real>, lo: real, hi: real)
    requires |s| > 0
    requires forall i :: 0 <= i < |s| ==> lo <= s[i] <= hi
    ensures lo <= Mean(s) <= hi
  {
    SumBounds(s, lo, hi);
    var n := |s| as real;
    assert Mean(s) == Sum(s) / n;
    assert Mean(s) * n == Sum(s);
  }

  /** The mean times the number of samples gives back their sum. */
  lemma MeanTimesCount(s: seq<real>)
    ensures Mean(s) * |s| as real == Sum(s)
  {
  }
}
