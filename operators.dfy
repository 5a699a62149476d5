/** The pre- and post-processing operators (Operators.hpp / Operators.cpp):
    in-place transforms of a float buffer. `Operator` is the closed set of the
    two concrete operators; `execute` is const, so an operator is a value that
    running it cannot change. Float arithmetic is modelled over `real`. */
module Operators {
  import opened Wrappers
  import Strings

  /** OperatorError: a message. */
  datatype OperatorError = OperatorError(errorMsg: string) {
    /** to_string hands back the stored message unchanged. */
    function ToString(): (s: string)
      ensures s == errorMsg
    {
      errorMsg
    }
  }

  /** std::array<float, 3>. */
  type Triple = s: seq<real> | |s| == 3 witness [0.0, 0.0, 0.0]

  /** The default per-channel mean and standard deviation of RgbNormalizeOperator. */
  const DEFAULT_MEAN: Triple := [123.675, 116.28, 103.53]
  const DEFAULT_STDDEV: Triple := [58.395, 57.12, 57.375]

  datatype Operator =
    | MinMaxOperator
    | RgbNormalizeOperator(mean: Triple, stddev: Triple)
  {
    /** Every divisor is non-zero (a zero stddev would divide by zero). */
    predicate Valid() {
      RgbNormalizeOperator? ==> forall c :: 0 <= c < 3 ==> stddev[c] != 0.0
    }
  }

  /** `std::make_unique<RgbNormalizeOperator>()`: the operator with the default members. */
  const DEFAULT_RGB_NORMALIZE: Operator := RgbNormalizeOperator(DEFAULT_MEAN, DEFAULT_STDDEV)

  lemma DefaultRgbNormalizeIsValid()
    ensures DEFAULT_RGB_NORMALIZE.Valid()
    ensures DEFAULT_RGB_NORMALIZE.mean == [123.675, 116.28, 103.53]
    ensures DEFAULT_RGB_NORMALIZE.stddev == [58.395, 57.12, 57.375]
  {
  }

  // ---------------------------------------------------------------------------
  // Specification of MinMaxOperator

  /** The smallest element (what std::ranges::minmax_element finds first). */
  function SeqMin(s: seq<real>): (m: real)
    requires |s| > 0
    ensures forall i :: 0 <= i < |s| ==> m <= s[i]
  {
    if |s| == 1 then s[0]
    else
      var m' := SeqMin(s[..|s| - 1]);
      assert forall i :: 0 <= i < |s| - 1 ==> s[..|s| - 1][i] == s[i];
      if s[|s| - 1] < m' then s[|s| - 1] else m'
  }

  /** The largest element. */
  function SeqMax(s: seq<real>): (m: real)
    requires |s| > 0
    ensures forall i :: 0 <= i < |s| ==> s[i] <= m
  {
    if |s| == 1 then s[0]
    else
      var m' := SeqMax(s[..|s| - 1]);
      assert forall i :: 0 <= i < |s| - 1 ==> s[..|s| - 1][i] == s[i];
      if s[|s| - 1] > m' then s[|s| - 1] else m'
  }

  /** The minimum is one of the elements: the one at `k`. */
  lemma {:induction false} SeqMinIsAttained(s: seq<real>) returns (k: nat)
    requires |s| > 0
    ensures k < |s| && s[k] == SeqMin(s)
  {
    if |s| == 1 {
      k := 0;
    } else {
      var front := s[..|s| - 1];
      k := SeqMinIsAttained(front);
      if s[|s| - 1] < SeqMin(front) {
        k := |s| - 1;
      }
    }
  }

  /** The maximum is one of the elements: the one at `k`. */
  lemma {:induction false} SeqMaxIsAttained(s: seq<real>) returns (k: nat)
    requires |s| > 0
    ensures k < |s| && s[k] == SeqMax(s)
  {
    if |s| == 1 {
      k := 0;
    } else {
      var front := s[..|s| - 1];
      k := SeqMaxIsAttained(front);
      if s[|s| - 1] > SeqMax(front) {
        k := |s| - 1;
      }
    }
  }

  /** One element's rescaling, (v - min) / diff. */
  function Rescale(v: real, min: real, diff: real): real
    requires diff != 0.0
  {
    (v - min) / diff
  }

  /** Every element rescaled by the same minimum and difference. */
  function RescaledBy(s: seq<real>, min: real, diff: real): (r: seq<real>)
    requires diff != 0.0
    ensures |r| == |s|
    ensures forall i :: 0 <= i < |s| ==> r[i] == Rescale(s[i], min, diff)
  {
    seq(|s|, i requires 0 <= i < |s| => Rescale(s[i], min, diff))
  }

  /** `n` copies of `v`. */
  function Constant(n: nat, v: real): (r: seq<real>)
    ensures |r| == n
    ensures forall i :: 0 <= i < n ==> r[i] == v
  {
    seq(n, _ => v)
  }

  /** What MinMaxOperator leaves in the buffer: unchanged when empty; each
      element rescaled by (v - min) / (max - min) when max > min; otherwise
      every element 0.5. */
  function MinMaxRescaled(s: seq<real>): (r: seq<real>)
    ensures |r| == |s|
  {
    if |s| == 0 then s
    else
      var mn, mx := SeqMin(s), SeqMax(s);
      if mx - mn > 0.0 then RescaledBy(s, mn, mx - mn)
      else Constant(|s|, 0.5)
  }

  lemma MinMaxOfEmptyIsIdentity(s: seq<real>)
    requires |s| == 0
    ensures MinMaxRescaled(s) == s
  {
  }

  /** An element no larger than every element is the minimum. */
  lemma SeqMinIs(s: seq<real>, k: nat)
    requires k < |s| && forall i :: 0 <= i < |s| ==> s[k] <= s[i]
    ensures SeqMin(s) == s[k]
  {
    var j := SeqMinIsAttained(s);
  }

  /** An element no smaller than every element is the maximum. */
  lemma SeqMaxIs(s: seq<real>, k: nat)
    requires k < |s| && forall i :: 0 <= i < |s| ==> s[i] <= s[k]
    ensures SeqMax(s) == s[k]
  {
    var j := SeqMaxIsAttained(s);
  }

  /** With minimum `mn` and spread `d` > 0, MinMaxOperator rescales by them. */
  lemma MinMaxRescaledWhenSpread(s: seq<real>, mn: real, d: real)
    requires |s| > 0 && SeqMin(s) == mn && SeqMax(s) - mn == d && d > 0.0
    ensures MinMaxRescaled(s) == RescaledBy(s, mn, d)
  {
  }

  lemma MinMaxRescaledWhenFlat(s: seq<real>)
    requires |s| > 0 && SeqMax(s) - SeqMin(s) <= 0.0
    ensures MinMaxRescaled(s) == Constant(|s|, 0.5)
  {
  }

  /** When max > min every element becomes (v - min) / (max - min): all
      results lie in [0, 1], some element maps to 0 and some element to 1. */
  lemma MinMaxRescalesToUnitRange(s: seq<real>)
    requires |s| > 0 && SeqMax(s) - SeqMin(s) > 0.0
    ensures forall i :: 0 <= i < |s| ==>
      MinMaxRescaled(s)[i] == Rescale(s[i], SeqMin(s), SeqMax(s) - SeqMin(s))
    ensures forall i :: 0 <= i < |s| ==> 0.0 <= MinMaxRescaled(s)[i] <= 1.0
    ensures exists i :: 0 <= i < |s| && MinMaxRescaled(s)[i] == 0.0
    ensures exists j :: 0 <= j < |s| && MinMaxRescaled(s)[j] == 1.0
  {
    MinMaxRescaledWhenSpread(s, SeqMin(s), SeqMax(s) - SeqMin(s));
    var i := SeqMinIsAttained(s);
    var j := SeqMaxIsAttained(s);
    RescaledToUnitRange(s, SeqMin(s), SeqMax(s), SeqMax(s) - SeqMin(s), i, j);
  }

  /** Rescaling by the bounds of the elements maps them into [0, 1], the
      lower bound to 0 and the upper to 1. */
  lemma RescaledToUnitRange(s: seq<real>, mn: real, mx: real, d: real, i: nat, j: nat)
    requires i < |s| && j < |s| && s[i] == mn && s[j] == mx && mx - mn == d && d > 0.0
    requires forall k :: 0 <= k < |s| ==> mn <= s[k] <= mx
    ensures forall k :: 0 <= k < |s| ==> 0.0 <= RescaledBy(s, mn, d)[k] <= 1.0
    ensures RescaledBy(s, mn, d)[i] == 0.0 && RescaledBy(s, mn, d)[j] == 1.0
  {
    var r := RescaledBy(s, mn, d);
    forall k | 0 <= k < |s| ensures 0.0 <= r[k] <= 1.0 {
      RescaleBounds(s[k], mn, mx);
    }
    RescaleEnds(mn, mx);
  }

  lemma RescaleBounds(v: real, min: real, max: real)
    requires min <= v <= max && max - min > 0.0
    ensures 0.0 <= Rescale(v, min, max - min) <= 1.0
  {
    UnitQuotient(v - min, max - min);
  }

  lemma RescaleEnds(min: real, max: real)
    requires max - min > 0.0
    ensures Rescale(min, min, max - min) == 0.0
    ensures Rescale(max, min, max - min) == 1.0
  {
    DivideBySelf(max - min);
  }

  lemma DivideBySelf(d: real)
    requires d > 0.0
    ensures d / d == 1.0
  {
    var q := d / d;
    assert q * d == d;
    assert (q - 1.0) * d == 0.0;
  }

  lemma UnitQuotient(a: real, d: real)
    requires 0.0 <= a <= d && d > 0.0
    ensures 0.0 <= a / d <= 1.0
  {
    assert a / d * d == a;
  }

  /** A constant buffer (max - min not positive) becomes all 0.5. */
  lemma MinMaxOfConstantIsHalf(s: seq<real>)
    requires |s| > 0 && SeqMax(s) - SeqMin(s) <= 0.0
    ensures forall i :: 0 <= i < |s| ==> MinMaxRescaled(s)[i] == 0.5
    ensures forall i :: 0 <= i < |s| ==> s[i] == s[0]
  {
    MinMaxRescaledWhenFlat(s);
  }

  /** Every result of MinMaxOperator lies in [0, 1]. */
  lemma MinMaxResultInUnitRange(s: seq<real>)
    ensures forall i :: 0 <= i < |s| ==> 0.0 <= MinMaxRescaled(s)[i] <= 1.0
  {
    if |s| > 0 {
      if SeqMax(s) - SeqMin(s) > 0.0 {
        MinMaxRescalesToUnitRange(s);
      } else {
        MinMaxRescaledWhenFlat(s);
      }
    }
  }

  /** Rescaling by minimum 0 and difference 1 changes nothing. */
  lemma RescaleByUnitIsIdentity(s: seq<real>)
    ensures RescaledBy(s, 0.0, 1.0) == s
  {
    var r := RescaledBy(s, 0.0, 1.0);
    forall k | 0 <= k < |s| ensures r[k] == s[k] {
      assert r[k] == Rescale(s[k], 0.0, 1.0);
    }
  }

  /** Running MinMaxOperator twice gives what running it once gives. */
  lemma MinMaxIsIdempotent(s: seq<real>)
    ensures MinMaxRescaled(MinMaxRescaled(s)) == MinMaxRescaled(s)
  {
    if |s| > 0 {
      if SeqMax(s) - SeqMin(s) > 0.0 {
        MinMaxOfSpreadIsFixed(s);
      } else {
        MinMaxOfFlatIsFixed(s);
      }
    }
  }

  lemma MinMaxOfSpreadIsFixed(s: seq<real>)
    requires |s| > 0 && SeqMax(s) - SeqMin(s) > 0.0
    ensures MinMaxRescaled(MinMaxRescaled(s)) == MinMaxRescaled(s)
  {
    MinMaxRescaledWhenSpread(s, SeqMin(s), SeqMax(s) - SeqMin(s));
    var i := SeqMinIsAttained(s);
    var j := SeqMaxIsAttained(s);
    RescaledToUnitRange(s, SeqMin(s), SeqMax(s), SeqMax(s) - SeqMin(s), i, j);
    MinMaxOfUnitRangeIsFixed(MinMaxRescaled(s), i, j);
  }

  /** A buffer already spanning exactly [0, 1] is left as it is. */
  lemma MinMaxOfUnitRangeIsFixed(r: seq<real>, i: nat, j: nat)
    requires i < |r| && j < |r| && r[i] == 0.0 && r[j] == 1.0
    requires forall k :: 0 <= k < |r| ==> 0.0 <= r[k] <= 1.0
    ensures MinMaxRescaled(r) == r
  {
    SeqMinIs(r, i);
    SeqMaxIs(r, j);
    MinMaxRescaledWhenSpread(r, 0.0, 1.0);
    RescaleByUnitIsIdentity(r);
  }

  lemma MinMaxOfFlatIsFixed(s: seq<real>)
    requires |s| > 0 && SeqMax(s) - SeqMin(s) <= 0.0
    ensures MinMaxRescaled(MinMaxRescaled(s)) == MinMaxRescaled(s)
  {
    var r := MinMaxRescaled(s);
    MinMaxRescaledWhenFlat(s);
    SeqMinIs(r, 0);
    SeqMaxIs(r, 0);
    MinMaxRescaledWhenFlat(r);
  }

  lemma MinMaxExamples()
    ensures MinMaxRescaled([5.0, 5.0, 5.0]) == [0.5, 0.5, 0.5]
    ensures MinMaxRescaled([0.0, 5.0, 10.0]) == [0.0, 0.5, 1.0]
  {
    var c := [5.0, 5.0, 5.0];
    SeqMinIs(c, 0);
    SeqMaxIs(c, 0);
    MinMaxRescaledWhenFlat(c);
    var ramp := [0.0, 5.0, 10.0];
    SeqMinIs(ramp, 0);
    SeqMaxIs(ramp, 2);
    MinMaxRescaledWhenSpread(ramp, 0.0, 10.0);
    var r := RescaledBy(ramp, 0.0, 10.0);
    assert r[1] == 5.0 / 10.0;
    assert r[2] == 10.0 / 10.0;
    assert r == [0.0, 0.5, 1.0];
  }

  // ---------------------------------------------------------------------------
  // Specification of RgbNormalizeOperator

  /** One element's normalisation, (v - mean) / stddev. */
  function Normalize(v: real, mean: real, stddev: real): real
    requires stddev != 0.0
  {
    (v - mean) / stddev
  }

  /** Element i becomes (v - mean[i % 3]) / stddev[i % 3]. */
  function RgbNormalized(s: seq<real>, mean: Triple, stddev: Triple): (r: seq<real>)
    requires forall c :: 0 <= c < 3 ==> stddev[c] != 0.0
    ensures |r| == |s|
  {
    seq(|s|, i requires 0 <= i < |s| => Normalize(s[i], mean[i % 3], stddev[i % 3]))
  }

  function NotMultipleOfThreeError(size: nat): OperatorError {
    OperatorError("Invalid values size of " + Strings.NatToString(size) + ", it is not a multiple of 3")
  }

  /** Normalising a pixel equal to the mean gives zeros. */
  lemma RgbNormalizeOfMeanIsZero()
    ensures RgbNormalized([123.675, 116.28, 103.53], DEFAULT_MEAN, DEFAULT_STDDEV) == [0.0, 0.0, 0.0]
  {
  }

  // ---------------------------------------------------------------------------
  // Executing an operator

  /** What `op->execute(values)` returns and leaves in the buffer. A failing
      operator leaves the buffer as it was. */
  function Apply(op: Operator, s: seq<real>): (res: (Outcome<OperatorError>, seq<real>))
    requires op.Valid()
    ensures |res.1| == |s|
    ensures res.0.Fail? ==> res.1 == s
  {
    match op
    case MinMaxOperator => (Pass, MinMaxRescaled(s))
    case RgbNormalizeOperator(mean, stddev) =>
      if |s| % 3 != 0 then (Fail(NotMultipleOfThreeError(|s|)), s)
      else (Pass, RgbNormalized(s, mean, stddev))
  }

  /** MinMaxOperator always succeeds; RgbNormalizeOperator succeeds exactly
      when the length is a multiple of 3. */
  lemma ApplySucceedsIff(op: Operator, s: seq<real>)
    requires op.Valid()
    ensures Apply(op, s).0.Pass? <==> (op.MinMaxOperator? || |s| % 3 == 0)
  {
  }

  method ExecuteMinMax(values: array<real>) returns (r: Outcome<OperatorError>)
    modifies values
    ensures r == Pass
    ensures values[..] == MinMaxRescaled(old(values[..]))
  {
    if values.Length == 0 {
      return Pass;
    }
    ghost var s := values[..];
    var min := SeqMin(values[..]);
    var max := SeqMax(values[..]);
    var diff := max - min;
    if diff > 0.0 {
      for i := 0 to values.Length
        invariant forall k :: 0 <= k < i ==> values[k] == Rescale(s[k], min, diff)
        invariant forall k :: i <= k < values.Length ==> values[k] == s[k]
      {
        values[i] := Rescale(values[i], min, diff);
      }
    } else {
      for i := 0 to values.Length
        invariant forall k :: 0 <= k < i ==> values[k] == 0.5
      {
        values[i] := 0.5;
      }
    }
    return Pass;
  }

  method ExecuteRgbNormalize(mean: Triple, stddev: Triple, values: array<real>)
    returns (r: Outcome<OperatorError>)
    requires forall c :: 0 <= c < 3 ==> stddev[c] != 0.0
    modifies values
    ensures r.Fail? <==> values.Length % 3 != 0
    ensures r.Fail? ==> r.error == NotMultipleOfThreeError(values.Length) && values[..] == old(values[..])
    ensures r.Pass? ==> values[..] == RgbNormalized(old(values[..]), mean, stddev)
  {
    if values.Length % 3 != 0 {
      return Fail(NotMultipleOfThreeError(values.Length));
    }
    ghost var s := values[..];
    var channel := 0;
    for i := 0 to values.Length
      invariant channel == i % 3
      invariant forall k :: 0 <= k < i ==> values[k] == Normalize(s[k], mean[k % 3], stddev[k % 3])
      invariant forall k :: i <= k < values.Length ==> values[k] == s[k]
    {
      values[i] := Normalize(values[i], mean[channel], stddev[channel]);
      channel := (channel + 1) % 3;
    }
    return Pass;
  }

  /** The virtual call `op->execute(values)`. */
  method Execute(op: Operator, values: array<real>) returns (r: Outcome<OperatorError>)
    requires op.Valid()
    modifies values
    ensures (r, values[..]) == Apply(op, old(values[..]))
  {
    match op
    case MinMaxOperator =>
      r := ExecuteMinMax(values);
    case RgbNormalizeOperator(mean, stddev) =>
      r := ExecuteRgbNormalize(mean, stddev, values);
  }
}
