/** Which pairs of configurations may be in force at once. */
module JointQuorums {
  import opened RaftTypes
  import opened Quorum
  import opened NodeSpec

  /** The two configurations have a member list in common: stable(O) with joint(O,N), joint(O,N) with
      stable(N), two phases of the same change, or the same configuration. */
  predicate Share(c: Configuration, d: Configuration, members: seq<NodeId>) {
    (members == c.current || c.joint == Some(members)) && (members == d.current || d.joint == Some(members))
  }

  /** A quorum of one and a quorum of the other share a member of the common list, of any size. */
  lemma SharedQuorumsMeet(c: Configuration, d: Configuration, members: seq<NodeId>, votes: set<NodeId>, acks: set<NodeId>)
    returns (m: NodeId)
    requires Share(c, d, members) && ConfigQuorum(votes, c) && ConfigQuorum(acks, d)
    ensures m in members && m in votes && m in acks
  {
    m := QuorumsMeet(votes, acks, members);
  }

  /** Without a common list nothing of the kind holds: stable(O) and stable(N) with different members
      have quorums that never meet. So a change must pass through the joint phase. */
  lemma StablePairsMiss(c: Configuration, d: Configuration) returns (votes: set<NodeId>, acks: set<NodeId>)
    requires c.joint.None? && d.joint.None? && c.current != [] && d.current != []
    requires forall x :: x in c.current ==> x !in d.current
    ensures ConfigQuorum(votes, c) && ConfigQuorum(acks, d) && votes !! acks
  {
    votes := set x | x in c.current;
    acks := set x | x in d.current;
    CountAll(votes, c.current);
    CountAll(acks, d.current);
  }

  lemma {:induction false} CountAll(votes: set<NodeId>, members: seq<NodeId>)
    requires forall x :: x in members ==> x in votes
    ensures CountIn(votes, members) == |members|
  {
    if members != [] {
      CountAll(votes, members[1..]);
    }
  }
}
