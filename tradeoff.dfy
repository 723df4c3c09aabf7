/** Stage 3's privacy-utility trade-off: for each privacy budget epsilon, a
    utility that grows linearly from 60 to 90 with epsilon, and a privacy
    score that falls from 100 to 50 as the attack signal (the absolute mean
    confidence gap between members and non-members) grows. */
module Tradeoff {

  datatype Point = Point(epsilon: real, accuracy: real, privacy: real)

  /** How the generator's trade-off computation fails: `max` of an empty list raises
      ValueError, a zero divisor raises ZeroDivisionError. */
  datatype Error = EmptyEpsilons | DivisionByZero

  datatype Outcome = Ok(points: seq<Point>) | Err(error: Error)

  function Abs(x: real): (r: real)
    ensures r >= 0.0 && (r == x || r == -x)
  {
    if x < 0.0 then -x else x
  }

  /** The largest element of a non-empty list. */
  function MaxOf(s: seq<real>): (m: real)
    requires |s| > 0
    ensures m in s
    ensures forall i :: 0 <= i < |s| ==> s[i] <= m
  {
    if |s| == 1 then s[0]
    else
      var rest := MaxOf(s[1..]);
      if s[0] >= rest then s[0] else rest
  }

  /** The absolute mean difference recorded for each epsilon, in list order. */
  function AbsMeanDiffs(epsilons: seq<real>, meanDifference: map<real, real>): (d: seq<real>)
    requires forall i :: 0 <= i < |epsilons| ==> epsilons[i] in meanDifference
    ensures |d| == |epsilons|
    ensures forall i :: 0 <= i < |d| ==> d[i] == Abs(meanDifference[epsilons[i]])
  {
    if epsilons == [] then []
    else [Abs(meanDifference[epsilons[0]])] + AbsMeanDiffs(epsilons[1..], meanDifference)
  }

  /** Model utility for budget epsilon, scaled by the largest budget. */
  function Utility(epsilon: real, maxEpsilon: real): (u: real)
    requires maxEpsilon != 0.0
    ensures 0.0 < epsilon <= maxEpsilon ==> 60.0 < u <= 90.0
    ensures epsilon == maxEpsilon ==> u == 90.0
  {
    60.0 + epsilon / maxEpsilon * 30.0
  }

  lemma DivMonotone(a: real, b: real, m: real)
    requires m > 0.0 && a <= b
    ensures a / m <= b / m
  {
  }

  /** A larger budget never gives a lower utility. */
  lemma UtilityMonotone(e1: real, e2: real, maxEpsilon: real)
    requires maxEpsilon > 0.0 && e1 <= e2
    ensures Utility(e1, maxEpsilon) <= Utility(e2, maxEpsilon)
  {
  }

  /** Privacy protection for a mean difference, scaled by the largest one. */
  function Privacy(meanDiff: real, maxMeanDiff: real): (p: real)
    requires maxMeanDiff != 0.0
    ensures 0.0 < maxMeanDiff && Abs(meanDiff) <= maxMeanDiff ==> 50.0 <= p <= 100.0
    ensures meanDiff == 0.0 ==> p == 100.0
    ensures Abs(meanDiff) == maxMeanDiff ==> p == 50.0
  {
    100.0 - Abs(meanDiff) / maxMeanDiff * 50.0
  }

  /** A smaller attack signal never gives lower privacy. */
  lemma PrivacyAntitone(d1: real, d2: real, maxMeanDiff: real)
    requires maxMeanDiff > 0.0 && Abs(d1) <= Abs(d2)
    ensures Privacy(d2, maxMeanDiff) <= Privacy(d1, maxMeanDiff)
  {
    DivMonotone(Abs(d1), Abs(d2), maxMeanDiff);
  }

  /** The trade-off table, one point per epsilon in list order. */
  method TradeoffData(epsilons: seq<real>, meanDifference: map<real, real>) returns (r: Outcome)
    requires forall i :: 0 <= i < |epsilons| ==> epsilons[i] in meanDifference
    ensures |epsilons| == 0 <==> r == Err(EmptyEpsilons)
    ensures |epsilons| > 0 ==>
      (r == Err(DivisionByZero) <==> MaxOf(epsilons) == 0.0 || MaxOf(AbsMeanDiffs(epsilons, meanDifference)) == 0.0)
    ensures r.Ok? ==> |r.points| == |epsilons|
    ensures r.Ok? ==> forall k :: 0 <= k < |epsilons| ==>
      r.points[k].epsilon == epsilons[k]
      && r.points[k].accuracy == Utility(epsilons[k], MaxOf(epsilons))
      && r.points[k].privacy == Privacy(meanDifference[epsilons[k]], MaxOf(AbsMeanDiffs(epsilons, meanDifference)))
      && 50.0 <= r.points[k].privacy <= 100.0
      && (0.0 < epsilons[k] ==> 60.0 < r.points[k].accuracy <= 90.0)
  {
    if |epsilons| == 0 {
      return Err(EmptyEpsilons);
    }
    var diffs := AbsMeanDiffs(epsilons, meanDifference);
    var maxMeanDiff := MaxOf(diffs);
    var maxEpsilon := MaxOf(epsilons);
    if maxEpsilon == 0.0 || maxMeanDiff == 0.0 {
      return Err(DivisionByZero);
    }
    assert maxMeanDiff >= 0.0 by {
      assert diffs[0] >= 0.0;
    }
    var points: seq<Point> := [];
    for k := 0 to |epsilons|
      invariant |points| == k
      invariant forall j :: 0 <= j < k ==>
        points[j].epsilon == epsilons[j]
        && points[j].accuracy == Utility(epsilons[j], maxEpsilon)
        && points[j].privacy == Privacy(meanDifference[epsilons[j]], maxMeanDiff)
        && 50.0 <= points[j].privacy <= 100.0
    {
      var epsilon := epsilons[k];
      var meanDiff := meanDifference[epsilon];
      assert Abs(meanDiff) == diffs[k];
      var utility := Utility(epsilon, maxEpsilon);
      var privacyProtection := Privacy(meanDiff, maxMeanDiff);
      points := points + [Point(epsilon, utility, privacyProtection)];
    }
    r := Ok(points);
  }
}
