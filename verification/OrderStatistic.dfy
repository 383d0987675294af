/** A majority holds an index exactly when the index is at most the majority-th largest acknowledgement. */
module OrderStatistic {

  /** How many acknowledgements reach an index. */
  function Reaching(acks: seq<nat>, index: nat): nat {
    if acks == [] then 0 else (if acks[0] >= index then 1 else 0) + Reaching(acks[1..], index)
  }

  function InsertDescending(acks: seq<nat>, x: nat): seq<nat> {
    if acks == [] || x >= acks[0] then [x] + acks else [acks[0]] + InsertDescending(acks[1..], x)
  }

  function Descending(acks: seq<nat>): seq<nat> {
    if acks == [] then [] else InsertDescending(Descending(acks[1..]), acks[0])
  }

  predicate Falls(acks: seq<nat>) {
    forall j, k :: 0 <= j < k < |acks| ==> acks[j] >= acks[k]
  }

  /** The majority-th largest acknowledgement, 0 for no members. */
  function QuorumAck(acks: seq<nat>): nat {
    var sorted := Descending(acks);
    if |acks| / 2 < |sorted| then sorted[|acks| / 2] else 0
  }

  lemma {:induction false} InsertKeeps(acks: seq<nat>, x: nat, index: nat)
    requires Falls(acks)
    ensures Falls(InsertDescending(acks, x)) && |InsertDescending(acks, x)| == |acks| + 1
    ensures Reaching(InsertDescending(acks, x), index) == Reaching(acks, index) + if x >= index then 1 else 0
    ensures forall y :: y in InsertDescending(acks, x) <==> y == x || y in acks
  {
    if acks == [] || x >= acks[0] {
      assert ([x] + acks)[1..] == acks;
    } else {
      InsertKeeps(acks[1..], x, index);
      var rest := InsertDescending(acks[1..], x);
      assert ([acks[0]] + rest)[1..] == rest;
      assert acks == [acks[0]] + acks[1..];
      forall k | 0 <= k < |rest| ensures acks[0] >= rest[k] {
        assert rest[k] in rest;
        if rest[k] != x {
          var j :| 0 <= j < |acks[1..]| && acks[1..][j] == rest[k];
          assert acks[0] >= acks[j + 1];
        }
      }
    }
  }

  lemma {:induction false} DescendingSpec(acks: seq<nat>, index: nat)
    ensures Falls(Descending(acks)) && |Descending(acks)| == |acks|
    ensures Reaching(Descending(acks), index) == Reaching(acks, index)
  {
    if acks != [] {
      DescendingSpec(acks[1..], index);
      InsertKeeps(Descending(acks[1..]), acks[0], index);
    }
  }

  lemma {:induction false} FallingReach(acks: seq<nat>, index: nat, k: nat)
    requires Falls(acks) && k < |acks|
    ensures Reaching(acks, index) > k <==> acks[k] >= index
  {
    assert forall j :: 0 <= j < |acks[1..]| ==> acks[1..][j] == acks[j + 1];
    if acks[0] < index {
      NoneReach(acks, index);
    } else if k > 0 {
      FallingReach(acks[1..], index, k - 1);
    }
  }

  lemma {:induction false} NoneReach(acks: seq<nat>, index: nat)
    requires forall k :: 0 <= k < |acks| ==> acks[k] < index
    ensures Reaching(acks, index) == 0
  {
    if acks != [] { NoneReach(acks[1..], index); }
  }

  /** Counting is the same as comparing with the order statistic. */
  lemma MajorityReaches(acks: seq<nat>, index: nat)
    requires index > 0
    ensures Reaching(acks, index) >= |acks| / 2 + 1 <==> index <= QuorumAck(acks)
  {
    DescendingSpec(acks, index);
    if acks != [] { FallingReach(Descending(acks), index, |acks| / 2); }
  }
}
