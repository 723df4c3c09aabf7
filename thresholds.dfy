/** Attack thresholds over the integer thresholds 50..95: a record is
    predicted to be a training-set member when its confidence is at least the
    threshold, and the precision of a threshold is the share of members among
    the predicted ones, as a percentage. Stage 2 keeps the first threshold of
    strictly best precision; stage 3 tabulates every threshold that predicts
    anyone. */
module Thresholds {
  import opened Records

  const MinThreshold: int := 50
  const MaxThreshold: int := 95

  function Predicted(rs: seq<Record>, t: int): seq<Record> {
    AtLeast(rs, t as real)
  }

  /** Share of training-set members among the records predicted at t. */
  function Precision(rs: seq<Record>, t: int): (p: real)
    requires |Predicted(rs, t)| > 0
    ensures 0.0 <= p <= 100.0
    ensures p == 0.0 <==> |Members(Predicted(rs, t))| == 0
    ensures p == 100.0 <==> |Members(Predicted(rs, t))| == |Predicted(rs, t)|
  {
    var tp := |Members(Predicted(rs, t))| as real;
    var pp := |Predicted(rs, t)| as real;
    assert tp / pp <= 1.0;
    tp / pp * 100.0
  }

  /** Stage 2's search: scan 50..95 upwards, skip thresholds that predict
      no one, keep a threshold only when its precision beats the best so far. */
  method OptimalThreshold(rs: seq<Record>) returns (bestThreshold: int, bestAccuracy: real)
    ensures MinThreshold <= bestThreshold <= MaxThreshold
    ensures 0.0 <= bestAccuracy <= 100.0
    ensures forall t :: MinThreshold <= t <= MaxThreshold && |Predicted(rs, t)| > 0 ==> Precision(rs, t) <= bestAccuracy
    ensures bestAccuracy == 0.0 ==> bestThreshold == MinThreshold
    ensures bestAccuracy > 0.0 ==> |Predicted(rs, bestThreshold)| > 0 && Precision(rs, bestThreshold) == bestAccuracy
    ensures forall t :: MinThreshold <= t < bestThreshold && |Predicted(rs, t)| > 0 ==> Precision(rs, t) < bestAccuracy
  {
    bestThreshold, bestAccuracy := MinThreshold, 0.0;
    for threshold := MinThreshold to MaxThreshold + 1
      invariant MinThreshold <= bestThreshold <= MaxThreshold
      invariant 0.0 <= bestAccuracy <= 100.0
      invariant forall t :: MinThreshold <= t < threshold && |Predicted(rs, t)| > 0 ==> Precision(rs, t) <= bestAccuracy
      invariant bestAccuracy == 0.0 ==> bestThreshold == MinThreshold
      invariant bestAccuracy > 0.0 ==> bestThreshold < threshold && |Predicted(rs, bestThreshold)| > 0 && Precision(rs, bestThreshold) == bestAccuracy
      invariant forall t :: MinThreshold <= t < bestThreshold && |Predicted(rs, t)| > 0 ==> Precision(rs, t) < bestAccuracy
    {
      var predictedPositives := Predicted(rs, threshold);
      if predictedPositives == [] {
        continue;
      }
      var truePositives := Members(predictedPositives);
      var accuracy := |truePositives| as real / |predictedPositives| as real * 100.0;
      assert accuracy == Precision(rs, threshold);
      if accuracy > bestAccuracy {
        bestAccuracy := accuracy;
        bestThreshold := threshold;
      }
    }
  }

  /** One row of stage 3's table. */
  datatype ThresholdRow = ThresholdRow(threshold: int, accuracy: real, truePositives: nat, totalPredictions: nat)

  /** Once a threshold predicts no one, no higher one does. */
  lemma NoPredictionsAbove(rs: seq<Record>, t1: int, t2: int)
    requires t1 <= t2 && |Predicted(rs, t1)| == 0
    ensures |Predicted(rs, t2)| == 0
  {
    AtLeastAntitone(rs, t1 as real, t2 as real);
  }

  /** Stage 3's table: a row for each threshold 50..95 that predicts someone. */
  method ThresholdTable(rs: seq<Record>) returns (rows: seq<ThresholdRow>)
    ensures |rows| <= MaxThreshold - MinThreshold + 1
    ensures forall k :: 0 <= k < |rows| ==> rows[k].threshold == MinThreshold + k
    ensures forall k :: 0 <= k < |rows| ==>
      rows[k].totalPredictions == |Predicted(rs, rows[k].threshold)| > 0
      && rows[k].truePositives == |Members(Predicted(rs, rows[k].threshold))|
      && rows[k].truePositives <= rows[k].totalPredictions
      && rows[k].accuracy == Precision(rs, rows[k].threshold)
    ensures forall t :: MinThreshold + |rows| <= t <= MaxThreshold ==> |Predicted(rs, t)| == 0
    ensures forall j, k :: 0 <= j < k < |rows| ==> rows[k].totalPredictions <= rows[j].totalPredictions
  {
    rows := [];
    for threshold := MinThreshold to MaxThreshold + 1
      invariant |rows| <= threshold - MinThreshold
      invariant forall k :: 0 <= k < |rows| ==> rows[k].threshold == MinThreshold + k
      invariant forall k :: 0 <= k < |rows| ==>
        rows[k].totalPredictions == |Predicted(rs, rows[k].threshold)| > 0
        && rows[k].truePositives == |Members(Predicted(rs, rows[k].threshold))|
        && rows[k].truePositives <= rows[k].totalPredictions
        && rows[k].accuracy == Precision(rs, rows[k].threshold)
      invariant |rows| < threshold - MinThreshold ==> |Predicted(rs, MinThreshold + |rows|)| == 0
      invariant forall t :: MinThreshold + |rows| <= t < threshold ==> |Predicted(rs, t)| == 0
    {
      var predictedPositives := |Predicted(rs, threshold)|;
      if predictedPositives == 0 {
        continue;
      }
      assert |rows| == threshold - MinThreshold by {
        if |rows| < threshold - MinThreshold {
          NoPredictionsAbove(rs, MinThreshold + |rows|, threshold);
        }
      }
      var truePositives := |Members(Predicted(rs, threshold))|;
      var accuracy := if predictedPositives > 0 then truePositives as real / predictedPositives as real * 100.0 else 0.0;
      rows := rows + [ThresholdRow(threshold, accuracy, truePositives, predictedPositives)];
    }
    forall j, k | 0 <= j < k < |rows| ensures rows[k].totalPredictions <= rows[j].totalPredictions {
      AtLeastAntitone(rs, rows[j].threshold as real, rows[k].threshold as real);
    }
  }
}
