/** The confidence histograms of stage 2 (ten bins from 50) and stage 3
    (twenty-one bins from 0). Each bin covers five points [lo, lo+5), is
    labelled "lo-(lo+4)" and splits its count into training-set members and
    the rest. */
module Histogram {
  import opened Records
  import Labels


  datatype Bin = Bin(rangeLabel: string, count: nat, trainingCount: nat, nonTrainingCount: int)

  function Low(start: nat, k: nat): nat {
    start + 5 * k
  }

  /** The bin for [lo, lo+5): records in range, its members, the rest. */
  function BinAt(rs: seq<Record>, lo: nat): (b: Bin)
    ensures b.trainingCount <= b.count
    ensures b.nonTrainingCount >= 0 && b.trainingCount + b.nonTrainingCount == b.count
  {
    var inRange := InRange(rs, lo as real, (lo + 5) as real);
    var training := Members(inRange);
    Bin(Labels.RangeLabel(lo, lo + 4), |inRange|, |training|, |inRange| - |training|)
  }

  lemma BinAtCount(rs: seq<Record>, lo: nat)
    ensures BinAt(rs, lo).count == |InRange(rs, lo as real, (lo + 5) as real)|
  {
  }

  /** The first n bins from start, in ascending order. */
  function Histogram(rs: seq<Record>, start: nat, n: nat): (h: seq<Bin>)
    ensures |h| == n
  {
    if n == 0 then [] else Histogram(rs, start, n - 1) + [BinAt(rs, Low(start, n - 1))]
  }

  lemma {:induction false} HistogramAt(rs: seq<Record>, start: nat, n: nat, k: nat)
    requires k < n
    ensures Histogram(rs, start, n)[k] == BinAt(rs, Low(start, k))
  {
    if k < n - 1 {
      HistogramAt(rs, start, n - 1, k);
    }
  }

  function SumCounts(bins: seq<Bin>): nat {
    if bins == [] then 0 else SumCounts(bins[..|bins| - 1]) + bins[|bins| - 1].count
  }

  /** The counts of adjacent bins add up to the records in their union. */
  lemma SumCountsSnoc(bins: seq<Bin>, b: Bin)
    ensures SumCounts(bins + [b]) == SumCounts(bins) + b.count
  {
  }

  lemma {:induction false} HistogramTotal(rs: seq<Record>, start: nat, n: nat)
    ensures SumCounts(Histogram(rs, start, n)) == |InRange(rs, start as real, Low(start, n) as real)|
  {
    if n == 0 {
      InRangeEmpty(rs, start as real, start as real);
    } else {
      var prev := Histogram(rs, start, n - 1);
      var lo := Low(start, n - 1);
      var last := BinAt(rs, lo);
      assert Histogram(rs, start, n) == prev + [last];
      SumCountsSnoc(prev, last);
      HistogramTotal(rs, start, n - 1);
      BinAtCount(rs, lo);
      InRangeSplit(rs, start as real, lo as real, (lo + 5) as real);
      assert Low(start, n) as real == (lo + 5) as real;
    }
  }

  /** A record lies in bin k exactly when k is the five-point step its
      confidence falls in: no record is in two bins, and a record outside
      [start, start+5n) is in none. */
  lemma BinMembership(rs: seq<Record>, start: nat, n: nat, x: Record, k: nat)
    requires x in rs && k < n
    ensures x in InRange(rs, Low(start, k) as real, (Low(start, k) + 5) as real)
        <==> start as real <= x.confidence < Low(start, n) as real
             && ((x.confidence - start as real) / 5.0).Floor == k
  {
    InRangeSpec(rs, Low(start, k) as real, (Low(start, k) + 5) as real);
    var c := x.confidence;
    var lo := Low(start, k) as real;
    var q := (c - start as real) / 5.0;
    assert lo <= c < lo + 5.0 <==> k as real <= q < k as real + 1.0;
  }

  /** Builds the bins one by one, appending as the generator's loop does. */
  method BuildHistogram(rs: seq<Record>, start: nat, n: nat) returns (bins: seq<Bin>)
    ensures bins == Histogram(rs, start, n)
  {
    bins := [];
    for k := 0 to n
      invariant bins == Histogram(rs, start, k)
    {
      var i := Low(start, k);
      var inRange := InRange(rs, i as real, (i + 5) as real);
      var trainingInRange := Members(inRange);
      bins := bins + [Bin(Labels.RangeLabel(i, i + 4), |inRange|, |trainingInRange|, |inRange| - |trainingInRange|)];
    }
  }

  /** Stage 2: bins from 50 to 95, covering [50, 100). */
  method StageTwoBins(rs: seq<Record>) returns (bins: seq<Bin>)
    ensures |bins| == 10
    ensures forall k :: 0 <= k < 10 ==> bins[k].rangeLabel == Labels.RangeLabel(50 + 5 * k, 54 + 5 * k)
    ensures forall k :: 0 <= k < 10 ==>
      var inRange := InRange(rs, (50 + 5 * k) as real, (55 + 5 * k) as real);
      bins[k].count == |inRange| && bins[k].trainingCount == |Members(inRange)|
    ensures forall k :: 0 <= k < 10 ==>
      bins[k].trainingCount <= bins[k].count && bins[k].trainingCount + bins[k].nonTrainingCount == bins[k].count
    ensures SumCounts(bins) == |InRange(rs, 50.0, 100.0)|
  {
    bins := BuildHistogram(rs, 50, 10);
    forall k | 0 <= k < 10 ensures bins[k] == BinAt(rs, 50 + 5 * k) {
      HistogramAt(rs, 50, 10, k);
    }
    HistogramTotal(rs, 50, 10);
  }

  /** Stage 3: bins from 0 to 100, covering [0, 105). */
  method StageThreeBins(rs: seq<Record>) returns (bins: seq<Bin>)
    ensures |bins| == 21
    ensures forall k :: 0 <= k < 21 ==> bins[k].rangeLabel == Labels.RangeLabel(5 * k, 5 * k + 4)
    ensures forall k :: 0 <= k < 21 ==>
      var inRange := InRange(rs, (5 * k) as real, (5 * k + 5) as real);
      bins[k].count == |inRange| && bins[k].trainingCount == |Members(inRange)|
    ensures forall k :: 0 <= k < 21 ==>
      bins[k].trainingCount <= bins[k].count && bins[k].trainingCount + bins[k].nonTrainingCount == bins[k].count
    ensures SumCounts(bins) == |InRange(rs, 0.0, 105.0)|
  {
    bins := BuildHistogram(rs, 0, 21);
    forall k | 0 <= k < 21 ensures bins[k] == BinAt(rs, 5 * k) {
      HistogramAt(rs, 0, 21, k);
    }
    HistogramTotal(rs, 0, 21);
  }

  /** A record of confidence exactly 100, in any population, is charted by
      stage 3's last bin but by none of the ten stage-2 bins. */
  lemma HundredOnlyInStageThree(rs: seq<Record>, x: Record)
    requires x in rs && x.confidence == 100.0
    ensures forall k :: 0 <= k < 10 ==> x !in InRange(rs, (50 + 5 * k) as real, (55 + 5 * k) as real)
    ensures x in InRange(rs, 100.0, 105.0)
  {
    forall k | 0 <= k < 10 ensures x !in InRange(rs, (50 + 5 * k) as real, (55 + 5 * k) as real) {
      InRangeSpec(rs, (50 + 5 * k) as real, (55 + 5 * k) as real);
    }
    InRangeSpec(rs, 100.0, 105.0);
  }
}
