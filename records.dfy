/** Per-record data of the fixture generator and the list filters it counts with.
    A record is what the generator keeps of one synthetic patient: the model's
    confidence (a percentage) and whether the patient was in the training set. */
module Records {

  datatype Record = Record(confidence: real, wasInTraining: bool)

  /** The records whose confidence lies in [lo, hi), in their original order
      (the comprehension `[p for p in data if lo <= p['confidence'] < hi]`). */
  function InRange(rs: seq<Record>, lo: real, hi: real): (r: seq<Record>)
    ensures |r| <= |rs|
  {
    if rs == [] then []
    else
      var rest := InRange(rs[1..], lo, hi);
      if lo <= rs[0].confidence < hi then [rs[0]] + rest else rest
  }

  /** The records predicted to be members at threshold t: confidence >= t. */
  function AtLeast(rs: seq<Record>, t: real): (r: seq<Record>)
    ensures |r| <= |rs|
  {
    if rs == [] then []
    else
      var rest := AtLeast(rs[1..], t);
      if rs[0].confidence >= t then [rs[0]] + rest else rest
  }

  /** The records that were in the training set. */
  function Members(rs: seq<Record>): (r: seq<Record>)
    ensures |r| <= |rs|
  {
    if rs == [] then []
    else
      var rest := Members(rs[1..]);
      if rs[0].wasInTraining then [rs[0]] + rest else rest
  }

  /** InRange keeps exactly the records in [lo, hi), each as often as it occurs. */
  lemma {:induction false} InRangeSpec(rs: seq<Record>, lo: real, hi: real)
    ensures forall x :: multiset(InRange(rs, lo, hi))[x] == if lo <= x.confidence < hi then multiset(rs)[x] else 0
    ensures forall x :: x in InRange(rs, lo, hi) <==> x in rs && lo <= x.confidence < hi
  {
    if rs != [] {
      assert rs == [rs[0]] + rs[1..];
      InRangeSpec(rs[1..], lo, hi);
    }
  }

  /** AtLeast keeps exactly the records at or above t, each as often as it occurs. */
  lemma {:induction false} AtLeastSpec(rs: seq<Record>, t: real)
    ensures forall x :: multiset(AtLeast(rs, t))[x] == if x.confidence >= t then multiset(rs)[x] else 0
    ensures forall x :: x in AtLeast(rs, t) <==> x in rs && x.confidence >= t
  {
    if rs != [] {
      assert rs == [rs[0]] + rs[1..];
      AtLeastSpec(rs[1..], t);
    }
  }

  /** Members keeps exactly the training-set records, each as often as it occurs. */
  lemma {:induction false} MembersSpec(rs: seq<Record>)
    ensures forall x :: multiset(Members(rs))[x] == if x.wasInTraining then multiset(rs)[x] else 0
    ensures forall x :: x in Members(rs) <==> x in rs && x.wasInTraining
  {
    if rs != [] {
      assert rs == [rs[0]] + rs[1..];
      MembersSpec(rs[1..]);
    }
  }

  /** Splitting [lo, hi) at mid splits the records counted in it. */
  lemma {:induction false} InRangeSplit(rs: seq<Record>, lo: real, mid: real, hi: real)
    requires lo <= mid <= hi
    ensures |InRange(rs, lo, mid)| + |InRange(rs, mid, hi)| == |InRange(rs, lo, hi)|
  {
    if rs != [] {
      InRangeSplit(rs[1..], lo, mid, hi);
    }
  }

  /** An empty interval holds no record. */
  lemma {:induction false} InRangeEmpty(rs: seq<Record>, lo: real, hi: real)
    requires hi <= lo
    ensures InRange(rs, lo, hi) == []
  {
    if rs != [] {
      InRangeEmpty(rs[1..], lo, hi);
    }
  }

  /** Raising the threshold never predicts more members. */
  lemma {:induction false} AtLeastAntitone(rs: seq<Record>, t1: real, t2: real)
    requires t1 <= t2
    ensures |AtLeast(rs, t2)| <= |AtLeast(rs, t1)|
  {
    if rs != [] {
      AtLeastAntitone(rs[1..], t1, t2);
    }
  }

  /** The records of a generated population: position i keeps the model's
      confidence for patient i and is a member exactly when i was drawn into
      the training indices. */
  function Labelled(confidences: seq<real>, trainIndices: set<int>): (rs: seq<Record>)
    ensures |rs| == |confidences|
  {
    seq(|confidences|, i requires 0 <= i < |confidences| => Record(confidences[i], i in trainIndices))
  }

  /** Stage 2's record list, built by appending one record per patient. */
  method BuildRecords(confidences: seq<real>, trainIndices: set<int>) returns (rs: seq<Record>)
    ensures |rs| == |confidences|
    ensures forall i :: 0 <= i < |rs| ==> rs[i].confidence == confidences[i] && (rs[i].wasInTraining <==> i in trainIndices)
    ensures rs == Labelled(confidences, trainIndices)
  {
    rs := [];
    for i := 0 to |confidences|
      invariant |rs| == i
      invariant forall j :: 0 <= j < i ==> rs[j] == Record(confidences[j], j in trainIndices)
    {
      var isTraining := i in trainIndices;
      rs := rs + [Record(confidences[i], isTraining)];
    }
  }
}
