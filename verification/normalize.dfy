/** Min-max normalisation of a list of values, in its two variants: the utility
    one, which divides by the range unconditionally, and the plotting one,
    which leaves the values alone when the range is zero. */
module Normalize {
  import opened Wrappers

  /** `min(array)`. */
  function Min(a: seq<real>): (m: real)
    requires |a| > 0
    ensures (exists i :: 0 <= i < |a| && a[i] == m) && forall i :: 0 <= i < |a| ==> m <= a[i]
  {
    if |a| == 1 then a[0]
    else
      var rest := Min(a[1..]);
      assert forall i :: 1 <= i < |a| ==> a[i] == a[1..][i - 1];
      if a[0] <= rest then a[0] else rest
  }

  /** `max(array)`. */
  function Max(a: seq<real>): (m: real)
    requires |a| > 0
    ensures (exists i :: 0 <= i < |a| && a[i] == m) && forall i :: 0 <= i < |a| ==> a[i] <= m
  {
    if |a| == 1 then a[0]
    else
      var rest := Max(a[1..]);
      assert forall i :: 1 <= i < |a| ==> a[i] == a[1..][i - 1];
      if a[0] >= rest then a[0] else rest
  }

  /** `[(x - lo) / (hi - lo) for x in a]` */
  function Rescale(a: seq<real>, lo: real, hi: real): (r: seq<real>)
    requires lo < hi
    ensures |r| == |a|
  {
    seq(|a|, i requires 0 <= i < |a| => (a[i] - lo) / (hi - lo))
  }

  /** `min_max_normalization(array)`: `min` of an empty list raises ValueError and
      a zero range divides by zero. */
  function MinMaxNormalization(a: seq<real>): (r: Result<seq<real>>)
    ensures r.Err? <==> |a| == 0 || Min(a) == Max(a)
    ensures r.Err? ==> r.error == (if |a| == 0 then ValueError else ZeroDivisionError)
    ensures r.Ok? ==> |r.value| == |a| && forall i :: 0 <= i < |a| ==> 0.0 <= r.value[i] <= 1.0
  {
    if |a| == 0 then Err(ValueError)
    else
      var lo, hi := Min(a), Max(a);
      if hi - lo == 0.0 then Err(ZeroDivisionError)
      else
        RescaleInUnit(a, lo, hi);
        Ok(Rescale(a, lo, hi))
  }

  /** `_normalization(array)`: as above, except that a zero range returns every
      value unchanged; an empty list still fails in `min`. */
  function Normalization(a: seq<real>): (r: Result<seq<real>>)
    ensures r.Err? <==> |a| == 0
    ensures r.Err? ==> r.error == ValueError
    ensures r.Ok? ==> |r.value| == |a|
    ensures r.Ok? && Min(a) == Max(a) ==> r.value == a
    ensures r.Ok? && Min(a) != Max(a) ==> forall i :: 0 <= i < |a| ==> 0.0 <= r.value[i] <= 1.0
  {
    if |a| == 0 then Err(ValueError)
    else
      var lo, hi := Min(a), Max(a);
      if hi - lo != 0.0 then
        RescaleInUnit(a, lo, hi);
        Ok(Rescale(a, lo, hi))
      else Ok(a)
  }

  lemma DivideBounds(x: real, d: real)
    requires 0.0 <= x <= d && d > 0.0
    ensures 0.0 <= x / d <= 1.0
  {
    assert x / d * d == x;
  }

  lemma DivideOrder(x: real, y: real, d: real)
    requires d > 0.0
    ensures x <= y <==> x / d <= y / d
  {
    assert y / d - x / d == (y - x) / d;
    assert (y - x) / d * d == y - x;
  }

  lemma RescaleInUnit(a: seq<real>, lo: real, hi: real)
    requires lo < hi && forall i :: 0 <= i < |a| ==> lo <= a[i] <= hi
    ensures forall i :: 0 <= i < |a| ==> 0.0 <= Rescale(a, lo, hi)[i] <= 1.0
  {
    forall i | 0 <= i < |a|
      ensures 0.0 <= Rescale(a, lo, hi)[i] <= 1.0
    {
      DivideBounds(a[i] - lo, hi - lo);
    }
  }

  lemma RescaleEnds(a: seq<real>, lo: real, hi: real, i: nat)
    requires lo < hi && i < |a|
    ensures a[i] == lo ==> Rescale(a, lo, hi)[i] == 0.0
    ensures a[i] == hi ==> Rescale(a, lo, hi)[i] == 1.0
  {
    var d := hi - lo;
    assert d / d == 1.0;
  }

  /** With a non-zero range the smallest value maps to 0 and the largest to 1. */
  lemma MinMaxEndpoints(a: seq<real>, i: nat)
    requires i < |a| && MinMaxNormalization(a).Ok?
    ensures a[i] == Min(a) ==> MinMaxNormalization(a).value[i] == 0.0
    ensures a[i] == Max(a) ==> MinMaxNormalization(a).value[i] == 1.0
  {
    RescaleEnds(a, Min(a), Max(a), i);
  }

  /** Normalisation keeps the order of the values, in both directions. */
  lemma MinMaxOrder(a: seq<real>, i: nat, j: nat)
    requires i < |a| && j < |a| && MinMaxNormalization(a).Ok?
    ensures a[i] <= a[j] <==> MinMaxNormalization(a).value[i] <= MinMaxNormalization(a).value[j]
  {
    var lo, hi := Min(a), Max(a);
    DivideOrder(a[i] - lo, a[j] - lo, hi - lo);
  }

  /** The plotting variant agrees with the utility one wherever the latter succeeds. */
  lemma NormalizationAgrees(a: seq<real>)
    requires MinMaxNormalization(a).Ok?
    ensures Normalization(a) == MinMaxNormalization(a)
  {
  }

  /** With a non-zero range the smallest value maps to 0 and the largest to 1;
      with a zero range nothing changes. */
  lemma NormalizationEndpoints(a: seq<real>, i: nat)
    requires i < |a|
    ensures Min(a) != Max(a) && a[i] == Min(a) ==> Normalization(a).value[i] == 0.0
    ensures Min(a) != Max(a) && a[i] == Max(a) ==> Normalization(a).value[i] == 1.0
    ensures Min(a) == Max(a) ==> Normalization(a).value[i] == a[i]
  {
    if Min(a) != Max(a) {
      RescaleEnds(a, Min(a), Max(a), i);
    }
  }

  /** The plotting variant is order-preserving: a <= b implies norm(a) <= norm(b),
      whatever the range. */
  lemma NormalizationOrder(a: seq<real>, i: nat, j: nat)
    requires i < |a| && j < |a| && a[i] <= a[j]
    ensures Normalization(a).value[i] <= Normalization(a).value[j]
  {
    var lo, hi := Min(a), Max(a);
    if lo != hi {
      DivideOrder(a[i] - lo, a[j] - lo, hi - lo);
    }
  }
}
