/** Stage-1 confidences and the age column of the synthetic patients.
    Random draws (the normal noise of each stage-1 row, the normal age draws)
    are parameters; Python's `round` and numpy's `astype(int)` and `clip` are
    written out. */
module StageOne {

  const MinConfidence: int := 50
  const MaxConfidence: int := 95
  const MemberBase: int := 70
  const NonMemberBase: int := 65
  const MinAge: int := 18
  const MaxAge: int := 90

  /** Training-set membership of the six fixed stage-1 patients, in id order. */
  const StageOneMembership: seq<bool> := [true, false, false, true, false, false]

  /** v forced into [lo, hi]: `max(lo, min(hi, v))`, also numpy's `clip`. */
  function Clamp(lo: int, hi: int, v: int): (r: int)
    requires lo <= hi
    ensures lo <= r <= hi
    ensures lo <= v <= hi ==> r == v
    ensures v < lo ==> r == lo
    ensures v > hi ==> r == hi
  {
    if v < lo then lo else if v > hi then hi else v
  }

  /** x lies exactly halfway between two integers. */
  predicate IsTie(x: real) {
    x - x.Floor as real == 0.5
  }

  /** Python 3's `round` with no digits: nearest integer, ties to the even one. */
  function RoundHalfEven(x: real): (r: int)
    ensures -0.5 <= r as real - x <= 0.5
    ensures r as real - x == 0.5 || x - r as real == 0.5 <==> IsTie(x)
    ensures IsTie(x) ==> r % 2 == 0
  {
    var f := x.Floor;
    var d := x - f as real;
    if d < 0.5 then f
    else if d > 0.5 then f + 1
    else if f % 2 == 0 then f
    else f + 1
  }

  /** The base confidence of a row: higher for training-set members. */
  function Base(wasInTraining: bool): int {
    if wasInTraining then MemberBase else NonMemberBase
  }

  /** `round(base + noise)`, before the clamp. */
  function PreClamp(wasInTraining: bool, noise: real): int {
    RoundHalfEven(Base(wasInTraining) as real + noise)
  }

  /** The confidence given to one stage-1 row. */
  function StageOneConfidence(wasInTraining: bool, noise: real): (r: int)
    ensures MinConfidence <= r <= MaxConfidence
    ensures MinConfidence <= PreClamp(wasInTraining, noise) <= MaxConfidence ==> r == PreClamp(wasInTraining, noise)
  {
    Clamp(MinConfidence, MaxConfidence, PreClamp(wasInTraining, noise))
  }

  /** Shifting by an integer shifts the rounded value by it, away from ties. */
  lemma RoundShift(b: int, x: real)
    requires !IsTie(x)
    ensures RoundHalfEven(b as real + x) == b + RoundHalfEven(x)
  {
  }

  /** With the same noise, a member's pre-clamp value is 5 above a
      non-member's, except at half-integer noise, where ties-to-even makes
      the gap 4 or 6. */
  lemma MemberOffset(noise: real)
    ensures !IsTie(noise) ==> PreClamp(true, noise) == PreClamp(false, noise) + 5
    ensures IsTie(noise) ==> PreClamp(true, noise) - PreClamp(false, noise) in {4, 6}
  {
    var f := noise.Floor;
    var m := MemberBase as real + noise;
    var n := NonMemberBase as real + noise;
    assert m.Floor == MemberBase + f by {
      assert (MemberBase + f) as real <= m < (MemberBase + f) as real + 1.0;
    }
    assert n.Floor == NonMemberBase + f by {
      assert (NonMemberBase + f) as real <= n < (NonMemberBase + f) as real + 1.0;
    }
    if !IsTie(noise) {
      RoundShift(MemberBase, noise);
      RoundShift(NonMemberBase, noise);
    }
  }

  /** The tie case happens: noise 0.5 gives 70 and 66. */
  lemma MemberOffsetAtHalf()
    ensures PreClamp(true, 0.5) == 70 && PreClamp(false, 0.5) == 66
  {
  }

  /** With the same noise a member never gets a lower confidence. */
  lemma MemberNotBelow(noise: real)
    ensures StageOneConfidence(true, noise) >= StageOneConfidence(false, noise)
  {
  }

  /** The stage-1 loop: each row's confidence, written in place, from its
      membership flag and its noise draw. */
  method AssignConfidences(confidence: array<int>, wasInTraining: seq<bool>, noise: seq<real>)
    requires confidence.Length == |wasInTraining| == |noise|
    modifies confidence
    ensures forall i :: 0 <= i < confidence.Length ==> confidence[i] == StageOneConfidence(wasInTraining[i], noise[i])
    ensures forall i :: 0 <= i < confidence.Length ==> MinConfidence <= confidence[i] <= MaxConfidence
  {
    for i := 0 to confidence.Length
      invariant forall j :: 0 <= j < i ==> confidence[j] == StageOneConfidence(wasInTraining[j], noise[j])
    {
      confidence[i] := StageOneConfidence(wasInTraining[i], noise[i]);
    }
  }

  /** The stage-1 table: six rows whose confidence column starts at zero and
      is then filled by the loop above. */
  method GenerateStageOne(noise: seq<real>) returns (confidence: array<int>)
    requires |noise| == |StageOneMembership|
    ensures fresh(confidence) && confidence.Length == 6
    ensures forall i :: 0 <= i < 6 ==> confidence[i] == StageOneConfidence(StageOneMembership[i], noise[i])
  {
    confidence := new int[6](_ => 0);
    AssignConfidences(confidence, StageOneMembership, noise);
  }

  /** numpy's `astype(int)` on a float: truncation toward zero. */
  function TruncateToInt(x: real): (r: int)
    ensures x >= 0.0 ==> 0 <= r && r as real <= x < r as real + 1.0
    ensures x < 0.0 ==> r <= 0 && r as real - 1.0 < x <= r as real
  {
    if x >= 0.0 then x.Floor else -((-x).Floor)
  }

  /** The age column: truncated normal draws clipped to [18, 90]. */
  function Ages(draws: seq<real>): (ages: seq<int>)
    ensures |ages| == |draws|
    ensures forall i :: 0 <= i < |ages| ==> MinAge <= ages[i] <= MaxAge
    ensures forall i :: 0 <= i < |ages| && MinAge as real <= draws[i] < (MaxAge + 1) as real ==> ages[i] as real <= draws[i] < ages[i] as real + 1.0
  {
    seq(|draws|, i requires 0 <= i < |draws| => Clamp(MinAge, MaxAge, TruncateToInt(draws[i])))
  }
}
