/** Majorities of a member list, counted over list positions as the source counts them. */
module Quorum {
  import opened RaftTypes

  function Majority(members: seq<NodeId>): nat {
    |members| / 2 + 1
  }

  /** How many positions of the list hold a member of the set. */
  function CountIn(votes: set<NodeId>, members: seq<NodeId>): nat {
    if members == [] then 0
    else (if members[0] in votes then 1 else 0) + CountIn(votes, members[1..])
  }

  predicate HasQuorum(votes: set<NodeId>, members: seq<NodeId>) {
    CountIn(votes, members) >= Majority(members)
  }

  lemma {:induction false} CountMonotone(a: set<NodeId>, b: set<NodeId>, members: seq<NodeId>)
    requires forall m :: m in members && m in a ==> m in b
    ensures CountIn(a, members) <= CountIn(b, members)
  {
    if members != [] {
      assert forall m :: m in members[1..] ==> m in members;
      CountMonotone(a, b, members[1..]);
    }
  }

  lemma {:induction false} DisjointCount(a: set<NodeId>, b: set<NodeId>, members: seq<NodeId>)
    requires forall m :: m in members ==> !(m in a && m in b)
    ensures CountIn(a, members) + CountIn(b, members) <= |members|
  {
    if members != [] {
      assert forall m :: m in members[1..] ==> m in members;
      DisjointCount(a, b, members[1..]);
    }
  }

  /** Any two majorities of one list share a member of that list, whatever its length. */
  lemma QuorumsMeet(a: set<NodeId>, b: set<NodeId>, members: seq<NodeId>) returns (m: NodeId)
    requires HasQuorum(a, members) && HasQuorum(b, members)
    ensures m in members && m in a && m in b
  {
    if forall x :: x in members ==> !(x in a && x in b) {
      DisjointCount(a, b, members);
      assert false;
    }
    m :| m in members && m in a && m in b;
  }
}
