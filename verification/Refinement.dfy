/** Each handler of a node is a sequence of protocol actions of that node. */
module Refinement {
  import opened RaftTypes
  import opened Quorum
  import opened Protocol
  import opened ProtocolSteps
  import opened ProtocolAccept
  import opened NodeSpec

  function PeerOf(n: Node): Peer {
    Peer(n.term, n.votedFor, n.log, n.commit, n.applied, n.role, n.votes, n.matchIndex)
  }

  predicate Deliverable(s: Sys, i: NodeId, queue: seq<Message>) {
    forall m :: m in queue ==> m in s.net && m.target == i
  }

  /** The node is what the system says of it; what it queued or holds for sending counts as sent. */
  predicate Sim(s: Sys, i: NodeId, n: Node) {
    && i in s.peers && n.id == i && s.peers[i] == PeerOf(n) && Sorted(n)
    && (forall m :: m in n.outbox ==> m in s.net)
    && Deliverable(s, i, n.appends) && Deliverable(s, i, n.voteRequests) && Deliverable(s, i, n.voteReplies)
  }

  /** From s the actions of peer i led to s'. */
  ghost predicate Reaches(s: Sys, h: History, s': Sys, h': History, members: seq<NodeId>, i: NodeId) {
    && Inv(s', h', members) && Extends(h, h')
    && i in s.peers && s'.peers.Keys == s.peers.Keys && s.net <= s'.net
    && (forall j :: j in s.peers && j != i ==> s'.peers[j] == s.peers[j])
    && Retains(h, s.peers[i], s'.peers[i]) && Reported(h, h', i, s'.peers[i].term)
  }

  lemma ReachesTransitive(s: Sys, h: History, s1: Sys, h1: History, s2: Sys, h2: History, members: seq<NodeId>, i: NodeId)
    requires Reaches(s, h, s1, h1, members, i) && Reaches(s1, h1, s2, h2, members, i)
    requires h1 == h || s2.peers[i].term == s1.peers[i].term || s1.peers[i].role == Leader
    ensures Reaches(s, h, s2, h2, members, i)
  {
    if s1.peers[i].role == Leader { assert PeerOk(h1, i, s1.peers[i]); }
    hide Inv;
    ExtendsTransitive(h, h1, h2);
    RetainsTransitive(h, s.peers[i], h1, s1.peers[i], s2.peers[i]);
    ReportedTransitive(h, h1, h2, i, s1.peers[i].term, s2.peers[i].term);
    hide Retains, Reported;
  }

  lemma ReportedTransitive(h: History, h1: History, h2: History, i: NodeId, t1: nat, t2: nat)
    requires Extends(h, h1) && Extends(h1, h2) && Reported(h, h1, i, t1) && Reported(h1, h2, i, t2)
    requires h1 == h || t1 == t2 || (t1 in h1.reigns && h1.reigns[t1].leader == i)
    ensures Reported(h, h2, i, t2)
  {
    forall a | a in h2.acks && !(a in h.acks && h2.acks[a] == h.acks[a])
      ensures a.0 == i && (a.1 == t2 || (a.1 in h2.reigns && h2.reigns[a.1].leader == i))
    {
      if a in h1.acks && h2.acks[a] == h1.acks[a] {
        assert a.1 in h1.reigns ==> SameReign(h1.reigns[a.1], h2.reigns[a.1]);
      }
    }
  }

  ghost predicate AllRetain(s: Sys, h: History, s': Sys) {
    && s'.peers.Keys == s.peers.Keys
    && forall i {:trigger Retains(h, s.peers[i], s'.peers[i])} :: i in s.peers ==> Retains(h, s.peers[i], s'.peers[i])
  }

  lemma ReachesRetain(s: Sys, h: History, s': Sys, h': History, members: seq<NodeId>, i: NodeId)
    requires Reaches(s, h, s', h', members, i)
    ensures AllRetain(s, h, s') && Extends(h, h') && i in s'.peers && Reported(h, h', i, s'.peers[i].term)
  {
    hide Inv, Extends;
    forall j | j in s.peers ensures Retains(h, s.peers[j], s'.peers[j]) {
      if j != i { SamePeerRetains(h, s.peers[j]); }
    }
  }

  lemma AllRetainSame(s: Sys, h: History)
    ensures AllRetain(s, h, s)
  {
    forall j | j in s.peers ensures Retains(h, s.peers[j], s.peers[j]) {
      SamePeerRetains(h, s.peers[j]);
    }
  }

  lemma AllRetainTransitive(s: Sys, h: History, s1: Sys, h1: History, s2: Sys)
    requires AllRetain(s, h, s1) && AllRetain(s1, h1, s2) && Extends(h, h1)
    ensures AllRetain(s, h, s2)
  {
    hide Retains, Extends;
    forall j | j in s.peers ensures Retains(h, s.peers[j], s2.peers[j]) {
      RetainsTransitive(h, s.peers[j], h1, s1.peers[j], s2.peers[j]);
    }
  }

  // ---- Terms and votes ----

  lemma AdoptTermSim(s: Sys, h: History, members: seq<NodeId>, i: NodeId, n: Node, term: nat) returns (s': Sys)
    requires Inv(s, h, members) && Sim(s, i, n)
    ensures Reaches(s, h, s', h, members, i) && Sim(s', i, AdoptTerm(n, term))
    ensures CommitInv(s, h, members) ==> CommitInv(s', h, members)
  {
    if term > n.term {
      s' := RetreatSim(s, h, members, i, n, AdoptTerm(n, term), {});
    } else {
      s' := s;
    }
  }

  /** A node that falls back to follower with the same log, commit index and applied index. */
  lemma RetreatSim(s: Sys, h: History, members: seq<NodeId>, i: NodeId, n: Node, n': Node, sent: set<Message>) returns (s': Sys)
    requires Inv(s, h, members) && Sim(s, i, n)
    requires n'.id == i && n'.role == Follower && n'.log == n.log && n'.commit == n.commit && n'.applied == n.applied
    requires n.term < n'.term || (n.term == n'.term && n'.votedFor == n.votedFor)
    requires forall m :: m in sent ==> Refusal(m, i, n'.term)
    requires forall m :: m in n'.outbox ==> m in n.outbox || m in sent
    requires Sorted(n')
    requires forall m :: m in n'.appends ==> m in n.appends
    requires forall m :: m in n'.voteRequests ==> m in n.voteRequests
    requires forall m :: m in n'.voteReplies ==> m in n.voteReplies
    ensures Reaches(s, h, s', h, members, i) && Sim(s', i, n')
    ensures CommitInv(s, h, members) ==> CommitInv(s', h, members)
  {
    s' := With(s, i, PeerOf(n'), sent);
    RetreatKeeps(s, h, members, i, PeerOf(n'), sent);
    if CommitInv(s, h, members) {
      assert PeerCommitOk(h, members, i, s.peers[i]);
      CommittedStable(h, h, members, n.log[..n.commit], n.term, n'.term);
    }
  }

  /** A refusal sent by any role. */
  lemma RefuseSim(s: Sys, h: History, members: seq<NodeId>, i: NodeId, n: Node, m: Message) returns (s': Sys)
    requires Inv(s, h, members) && Sim(s, i, n) && Refusal(m, i, n.term)
    ensures Reaches(s, h, s', h, members, i) && Sim(s', i, n.(outbox := n.outbox + [m]))
    ensures CommitInv(s, h, members) ==> CommitInv(s', h, members)
  {
    s' := With(s, i, s.peers[i], {m});
    QuietSim(s, h, members, i, n, {m});
  }

  lemma QuietSim(s: Sys, h: History, members: seq<NodeId>, i: NodeId, n: Node, sent: set<Message>)
    requires Inv(s, h, members) && Sim(s, i, n) && forall m :: m in sent ==> Refusal(m, i, n.term)
    ensures Inv(With(s, i, s.peers[i], sent), h, members)
    ensures CommitInv(s, h, members) ==> CommitInv(With(s, i, s.peers[i], sent), h, members)
  {
    var s' := With(s, i, s.peers[i], sent);
    assert PeerOk(h, i, s.peers[i]);
    InvFrame(s, h, s', h, members, i);
    if CommitInv(s, h, members) {
      assert PeerCommitOk(h, members, i, s.peers[i]);
      forall a | a in h.acks && a.0 == i ensures AckOk(s', h, a) {
        assert AckOk(s, h, a);
      }
      CommitFrame(s, h, s', h, members, i);
    }
  }

  lemma GrantSim(s: Sys, h: History, members: seq<NodeId>, i: NodeId, n: Node, m: Message) returns (s': Sys, h': History)
    requires Inv(s, h, members) && Sim(s, i, n) && m in s.net && m.RequestVote? && Grants(n, m)
    ensures Reaches(s, h, s', h', members, i) && Sim(s', i, AnswerVote(n, m))
    ensures CommitInv(s, h, members) ==> CommitInv(s', h', members)
  {
    hide Inv, CommitInv, IsVoting, UpToDate;
    h' := GrantVoteKeeps(s, h, members, i, m);
    s' := With(s, i, s.peers[i].(vote := Some(m.source)), {VoteReply(m.term, i, m.source, true)});
    assert Retains(h, s.peers[i], s'.peers[i]);
  }

  lemma RequestVoteSim(s: Sys, h: History, members: seq<NodeId>, i: NodeId, n: Node, m: Message) returns (s': Sys, h': History)
    requires Inv(s, h, members) && Sim(s, i, n) && m in s.net && m.RequestVote?
    ensures Reaches(s, h, s', h', members, i) && Sim(s', i, HandleRequestVote(n, m))
    ensures CommitInv(s, h, members) ==> CommitInv(s', h', members)
  {
    hide Inv, CommitInv, IsVoting, UpToDate, Sorted, Retains;
    var s1 := AdoptTermSim(s, h, members, i, n, m.term);
    var n1 := AdoptTerm(n, m.term);
    if Grants(n1, m) {
      s', h' := GrantSim(s1, h, members, i, n1, m);
    } else {
      h' := h;
      s' := RefuseSim(s1, h, members, i, n1, VoteReply(n1.term, i, m.source, false));
    }
    ReachesTransitive(s, h, s1, h, s', h', members, i);
  }

  lemma CollectSim(s: Sys, h: History, members: seq<NodeId>, i: NodeId, n: Node, m: Message) returns (s': Sys)
    requires Inv(s, h, members) && Sim(s, i, n) && m in s.net && m.VoteReply? && m.target == i
    requires n.role == Candidate && m.term == n.term && m.granted
    ensures Reaches(s, h, s', h, members, i) && Sim(s', i, n.(votes := n.votes + {m.source}))
    ensures CommitInv(s, h, members) ==> CommitInv(s', h, members)
  {
    hide Inv, CommitInv;
    CollectVoteKeeps(s, h, members, i, m);
    s' := With(s, i, s.peers[i].(votes := s.peers[i].votes + {m.source}), {});
    assert Retains(h, s.peers[i], s'.peers[i]);
  }

  lemma VoteReplySim(s: Sys, h: History, members: seq<NodeId>, i: NodeId, n: Node, m: Message) returns (s': Sys)
    requires Inv(s, h, members) && Sim(s, i, n) && m in s.net && m.VoteReply? && m.target == i
    ensures Reaches(s, h, s', h, members, i) && Sim(s', i, HandleVoteReply(n, m))
    ensures CommitInv(s, h, members) ==> CommitInv(s', h, members)
  {
    hide Inv, CommitInv, IsVoting, Sorted, Retains;
    var s1 := AdoptTermSim(s, h, members, i, n, m.term);
    var n1 := AdoptTerm(n, m.term);
    s' := s1;
    if IsVoting(n1) && n1.role == Candidate && m.term == n1.term && m.granted {
      s' := CollectSim(s1, h, members, i, n1, m);
      ReachesTransitive(s, h, s1, h, s', h, members, i);
    }
  }

  lemma {:induction false} BallotRequestsShape(n: Node, peers: seq<NodeId>)
    ensures forall m :: m in BallotRequests(n, peers) ==>
              m.RequestVote? && m == RequestVote(n.term, n.id, m.target, |n.log|, LastTerm(n.log))
  {
    if peers != [] {
      BallotRequestsShape(n, peers[1..]);
    }
  }

  lemma StandingSim(s: Sys, h: History, members: seq<NodeId>, i: NodeId, n: Node, n': Node, sent: set<Message>) returns (s': Sys, h': History)
    requires Inv(s, h, members) && Sim(s, i, n) && n' == Standing(n.(role := Candidate))
    requires forall m :: m in sent ==> m.RequestVote? && m == RequestVote(n'.term, i, m.target, |n.log|, LastTerm(n.log))
    ensures Reaches(s, h, s', h', members, i) && Sim(s', i, n') && sent <= s'.net
    ensures CommitInv(s, h, members) ==> CommitInv(s', h', members)
  {
    hide CommitInv;
    h' := StartElectionKeeps(s, h, members, i, sent);
    s' := With(s, i, Campaigning(s.peers[i], i), sent);
  }

  lemma CandidateSim(s: Sys, h: History, members: seq<NodeId>, i: NodeId, n: Node) returns (s': Sys, h': History)
    requires Inv(s, h, members) && Sim(s, i, n)
    ensures Reaches(s, h, s', h', members, i) && Sim(s', i, BecomeCandidate(n.(role := Candidate)))
    ensures CommitInv(s, h, members) ==> CommitInv(s', h', members)
  {
    hide Inv, CommitInv, Reaches;
    var n1 := Standing(n.(role := Candidate));
    var asked := BallotRequests(n1, n1.peers);
    BallotRequestsShape(n1, n1.peers);
    s', h' := StandingSim(s, h, members, i, n, n1, set m | m in asked);
  }

  // ---- Replication ----

  lemma SendSim(s: Sys, h: History, members: seq<NodeId>, i: NodeId, n: Node, peer: NodeId) returns (s': Sys)
    requires Inv(s, h, members) && Sim(s, i, n) && n.role == Leader && !SendTo(n, peer).fault
    ensures Reaches(s, h, s', h, members, i) && Sim(s', i, SendTo(n, peer))
    ensures CommitInv(s, h, members) ==> CommitInv(s', h, members)
  {
    hide Inv, CommitInv, Sim, Retains;
    var next := SendIndex(n, peer);
    SimPeer(s, i, n);
    ReplicateKeeps(s, h, members, i, peer, next);
    s' := With(s, i, s.peers[i], {Replication(s.peers[i], i, peer, next)});
    QueuedSim(s, i, n, AppendMessage(n, peer, next));
    SamePeerRetains(h, s.peers[i]);
  }

  lemma SimPeer(s: Sys, i: NodeId, n: Node)
    requires Sim(s, i, n)
    ensures i in s.peers && n.id == i && s.peers[i] == PeerOf(n)
  {
  }

  lemma SamePeerRetains(h: History, p: Peer)
    ensures Retains(h, p, p)
  {
  }

  lemma QueuedSim(s: Sys, i: NodeId, n: Node, m: Message)
    requires Sim(s, i, n)
    ensures Sim(With(s, i, s.peers[i], {m}), i, n.(outbox := n.outbox + [m]))
  {
  }

  lemma {:induction false} SendManySim(s: Sys, h: History, members: seq<NodeId>, i: NodeId, n: Node, peers: seq<NodeId>) returns (s': Sys)
    requires Inv(s, h, members) && Sim(s, i, n) && n.role == Leader
    requires forall p :: p in peers ==> SendIndex(n, p) <= |n.log| + 1
    ensures Reaches(s, h, s', h, members, i) && Sim(s', i, n) && forall m :: m in AppendMessages(n, peers) ==> m in s'.net
    ensures CommitInv(s, h, members) ==> CommitInv(s', h, members)
    decreases |peers|
  {
    s' := s;
    if peers != [] {
      var next := SendIndex(n, peers[0]);
      ReplicateKeeps(s, h, members, i, peers[0], next);
      var s1 := With(s, i, s.peers[i], {Replication(s.peers[i], i, peers[0], next)});
      s' := SendManySim(s1, h, members, i, n, peers[1..]);
      ReachesTransitive(s, h, s1, h, s', h, members, i);
    }
  }

  lemma SendAllSim(s: Sys, h: History, members: seq<NodeId>, i: NodeId, n: Node, peers: seq<NodeId>) returns (s': Sys)
    requires Inv(s, h, members) && Sim(s, i, n) && n.role == Leader && !SendAll(n, peers).fault
    ensures Reaches(s, h, s', h, members, i) && Sim(s', i, SendAll(n, peers))
    ensures CommitInv(s, h, members) ==> CommitInv(s', h, members)
  {
    s' := SendManySim(s, h, members, i, n, peers);
  }

  lemma WinSim(s: Sys, h: History, members: seq<NodeId>, i: NodeId, n: Node) returns (s': Sys, h': History)
    requires Inv(s, h, members) && Sim(s, i, n) && n.role == Candidate && HasQuorum(n.votes, members)
    ensures Reaches(s, h, s', h', members, i) && Sim(s', i, Enthroned(n.(role := Leader)))
    ensures CommitInv(s, h, members) ==> CommitInv(s', h', members)
  {
    hide Inv, CommitInv;
    var matched := Enthroned(n.(role := Leader)).matchIndex;
    h' := WinKeeps(s, h, members, i, matched);
    s' := With(s, i, s.peers[i].(role := Leader, matched := matched), {});
    assert Retains(h, s.peers[i], s'.peers[i]);
  }

  lemma LeaderSim(s: Sys, h: History, members: seq<NodeId>, i: NodeId, n: Node) returns (s': Sys, h': History)
    requires Inv(s, h, members) && Sim(s, i, n) && n.role == Candidate && HasQuorum(n.votes, members)
    requires !BecomeLeader(n.(role := Leader)).fault
    ensures Reaches(s, h, s', h', members, i) && Sim(s', i, BecomeLeader(n.(role := Leader)))
    ensures CommitInv(s, h, members) ==> CommitInv(s', h', members)
  {
    hide Inv, CommitInv, Retains, Sorted, SendAll, HasQuorum;
    var n1 := Enthroned(n.(role := Leader));
    assert BecomeLeader(n.(role := Leader)) == SendAll(n1, n1.peers);
    var s1, h1 := WinSim(s, h, members, i, n);
    h' := h1;
    s' := SendAllSim(s1, h1, members, i, n1, n1.peers);
    ReachesTransitive(s, h, s1, h1, s', h1, members, i);
  }

  lemma AdvanceSim(s: Sys, h: History, members: seq<NodeId>, i: NodeId, n: Node) returns (s': Sys)
    requires Inv(s, h, members) && Sim(s, i, n) && n.role == Leader && n.config.current == members
    ensures Reaches(s, h, s', h, members, i) && Sim(s', i, AdvanceCommit(n))
    ensures CommitInv(s, h, members) ==> CommitInv(s', h, members)
  {
    var c := CommitScan(n, |n.log|);
    s' := s;
    if c != n.commit {
      assert HeldBy(n, c) == Replicas(s.peers[i], i, c);
      AdvanceCommitKeeps(s, h, members, i, c);
      s' := With(s, i, s.peers[i].(commit := c), {});
    }
  }

  lemma OwnEntrySim(s: Sys, h: History, members: seq<NodeId>, i: NodeId, n: Node, c: Command) returns (s': Sys, h': History)
    requires Inv(s, h, members) && Sim(s, i, n) && n.role == Leader
    ensures Reaches(s, h, s', h', members, i) && Sim(s', i, Appended(n, c))
    ensures CommitInv(s, h, members) ==> CommitInv(s', h', members)
  {
    hide Inv, CommitInv;
    h' := LeaderAppendKeeps(s, h, members, i, c);
    s' := With(s, i, Appending(s.peers[i], i, c), {});
    assert s.peers[i].log <= s'.peers[i].log;
    if s.peers[i].term in h.reigns { LongerCommon(h.reigns[s.peers[i].term].log, s.peers[i].log, s'.peers[i].log); }
    hide Common;
  }

  lemma AppendLocalSim(s: Sys, h: History, members: seq<NodeId>, i: NodeId, n: Node, c: Command) returns (s': Sys, h': History)
    requires Inv(s, h, members) && Sim(s, i, n) && n.role == Leader && n.config.current == members
    requires !AppendLocal(n, c).fault
    ensures Reaches(s, h, s', h', members, i) && Sim(s', i, AppendLocal(n, c))
    ensures CommitInv(s, h, members) ==> CommitInv(s', h', members)
  {
    hide Inv, CommitInv, Retains, SendAll, CommitScan, Sorted;
    var n1, n2 := Appended(n, c), AdvanceCommit(Appended(n, c));
    assert AppendLocal(n, c) == SendAll(n2, n2.peers);
    var s1, h1 := OwnEntrySim(s, h, members, i, n, c);
    h' := h1;
    var s2 := AdvanceSim(s1, h1, members, i, n1);
    s' := SendAllSim(s2, h1, members, i, n2, n2.peers);
    ReachesTransitive(s1, h1, s2, h1, s', h1, members, i);
    ReachesTransitive(s, h, s1, h1, s', h1, members, i);
  }

  /** The reply a follower sends on accepting is honest: nothing older survives past the sent entries. */
  predicate Honest(n: Node, m: Message)
    requires m.AppendEntries?
  {
    var n1 := AdoptTerm(n, m.term);
    m.term == n1.term && AcceptsPrevious(n1, m) ==>
      NoOlderBeyond(AppendFromLeader(n1, m).log, m)
  }

  predicate NoOlderBeyond(log: Log, m: Message)
    requires m.AppendEntries?
  {
    forall k :: m.prevIndex + |m.entries| <= k < |log| ==> log[k].term == m.term
  }

  lemma AcceptSim(s: Sys, h: History, members: seq<NodeId>, i: NodeId, n: Node, m: Message) returns (s': Sys, h': History)
    requires Inv(s, h, members) && Sim(s, i, n) && n.role == Follower && m in s.net && m.AppendEntries?
    requires m.term == n.term && AcceptsPrevious(n, m)
    ensures var n1 := AppendFromLeader(n, m);
            && Reaches(s, h, s', h', members, i)
            && Sim(s', i, n1.(outbox := n1.outbox + [AppendReply(n1.term, n1.id, m.source, true, |n1.log|)]))
    ensures CommitInv(s, h, members) && NoOlderBeyond(AppendFromLeader(n, m).log, m) ==> CommitInv(s', h', members)
  {
    hide CommitInv;
    assert MessageOk(h, m);
    h' := AcceptStep(s, h, members, i, m);
    var p' := Accepting(s.peers[i], m);
    s' := With(s, i, p', {AppendReply(p'.term, i, m.source, true, |p'.log|)});
    assert PeerOf(AppendFromLeader(n, m)) == p';
  }

  lemma AnswerSim(s: Sys, h: History, members: seq<NodeId>, i: NodeId, n: Node, m: Message) returns (s': Sys, h': History)
    requires Inv(s, h, members) && Sim(s, i, n) && n.role == Follower && m in s.net && m.AppendEntries?
    ensures Reaches(s, h, s', h', members, i) && Sim(s', i, AnswerAppend(n, m))
    ensures CommitInv(s, h, members) && (m.term == n.term && AcceptsPrevious(n, m) ==> NoOlderBeyond(AppendFromLeader(n, m).log, m))
            ==> CommitInv(s', h', members)
  {
    var n1 := if m.term == n.term then n.(leader := Some(m.source)) else n;
    if m.term == n.term && AcceptsPrevious(n1, m) {
      assert AppendFromLeader(n1, m).log == AppendFromLeader(n, m).log;
      s', h' := AcceptSim(s, h, members, i, n1, m);
    } else {
      h' := h;
      s' := RefuseSim(s, h, members, i, n1, AppendReply(n1.term, i, m.source, false, |n1.log|));
    }
  }

  lemma AppendEntriesSim(s: Sys, h: History, members: seq<NodeId>, i: NodeId, n: Node, m: Message) returns (s': Sys, h': History)
    requires Inv(s, h, members) && Sim(s, i, n) && n.role == Follower && m in s.net && m.AppendEntries?
    ensures Reaches(s, h, s', h', members, i) && Sim(s', i, HandleAppendEntries(n, m))
    ensures CommitInv(s, h, members) && Honest(n, m) ==> CommitInv(s', h', members)
  {
    var s1 := AdoptTermSim(s, h, members, i, n, m.term);
    s', h' := AnswerSim(s1, h, members, i, AdoptTerm(n, m.term), m);
    ReachesTransitive(s, h, s1, h, s', h', members, i);
  }

  lemma AckSim(s: Sys, h: History, members: seq<NodeId>, i: NodeId, n: Node, m: Message) returns (s': Sys)
    requires Inv(s, h, members) && Sim(s, i, n) && m in s.net && m.AppendReply? && n.config.current == members
    requires n.role == Leader && m.term == n.term && m.success
    ensures Reaches(s, h, s', h, members, i)
    ensures Sim(s', i, AdvanceCommit(n.(matchIndex := n.matchIndex[m.source := m.matchIndex],
                                        nextIndex := n.nextIndex[m.source := m.matchIndex + 1])))
    ensures CommitInv(s, h, members) ==> CommitInv(s', h, members)
  {
    RecordAckKeeps(s, h, members, i, m);
    var n1 := n.(matchIndex := n.matchIndex[m.source := m.matchIndex], nextIndex := n.nextIndex[m.source := m.matchIndex + 1]);
    var s1 := With(s, i, s.peers[i].(matched := n1.matchIndex), {});
    s' := AdvanceSim(s1, h, members, i, n1);
    ReachesTransitive(s, h, s1, h, s', h, members, i);
  }

  lemma RecordReplySim(s: Sys, h: History, members: seq<NodeId>, i: NodeId, n: Node, m: Message) returns (s': Sys)
    requires Inv(s, h, members) && Sim(s, i, n) && m in s.net && m.AppendReply? && n.config.current == members
    requires !RecordReply(n, m).fault
    ensures Reaches(s, h, s', h, members, i) && Sim(s', i, RecordReply(n, m))
    ensures CommitInv(s, h, members) ==> CommitInv(s', h, members)
  {
    if n.role != Leader || m.term != n.term {
      s' := s;
    } else if m.success {
      s' := AckSim(s, h, members, i, n, m);
    } else {
      s' := SendSim(s, h, members, i, n.(nextIndex := n.nextIndex[m.source := BackOff(n.nextIndex[m.source])]), m.source);
    }
  }

  lemma AppendReplySim(s: Sys, h: History, members: seq<NodeId>, i: NodeId, n: Node, m: Message) returns (s': Sys)
    requires Inv(s, h, members) && Sim(s, i, n) && m in s.net && m.AppendReply? && n.config.current == members
    requires !HandleAppendReply(n, m).fault
    ensures Reaches(s, h, s', h, members, i) && Sim(s', i, HandleAppendReply(n, m))
    ensures CommitInv(s, h, members) ==> CommitInv(s', h, members)
  {
    var s1 := AdoptTermSim(s, h, members, i, n, m.term);
    s' := RecordReplySim(s1, h, members, i, AdoptTerm(n, m.term), m);
    ReachesTransitive(s, h, s1, h, s', h, members, i);
  }
}
