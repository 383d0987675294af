/** The actions a peer can take, and the proof that each of them keeps the invariants. */
module ProtocolSteps {
  import opened RaftTypes
  import opened Quorum
  import opened LogMerge
  import opened Protocol

  ghost predicate Extends(h: History, h': History) {
    && (forall b :: b in h.ballots ==> b in h'.ballots && h'.ballots[b] == h.ballots[b])
    && (forall t :: t in h.reigns ==> t in h'.reigns && SameReign(h.reigns[t], h'.reigns[t]))
    && (forall a :: a in h.acks ==> a in h'.acks && h.acks[a] <= h'.acks[a])
  }

  predicate SameReign(r: Reign, r': Reign) {
    r'.leader == r.leader && r'.votes == r.votes && r'.base == r.base && r.log <= r'.log
  }

  lemma ExtendsTransitive(h: History, h1: History, h2: History)
    requires Extends(h, h1) && Extends(h1, h2)
    ensures Extends(h, h2)
  {
  }

  /** While its term lasts, a peer's log keeps all it has in common with the log of that term's leader. */
  ghost predicate Retains(h: History, p: Peer, p': Peer) {
    && p.term <= p'.term
    && (p'.term == p.term && p.term in h.reigns ==> Common(h.reigns[p.term].log, p.log, p'.log))
  }

  /** What log has of the sender's beginning, log' has too. */
  ghost predicate Common(sender: Log, log: Log, log': Log) {
    forall x: nat {:trigger sender[..x]} :: x <= |sender| && sender[..x] <= log ==> sender[..x] <= log'
  }

  lemma LongerCommon(sender: Log, log: Log, log': Log)
    requires log <= log'
    ensures Common(sender, log, log')
  {
  }

  lemma RetainsTransitive(h: History, p: Peer, h1: History, p1: Peer, p2: Peer)
    requires Retains(h, p, p1) && Retains(h1, p1, p2) && Extends(h, h1)
    ensures Retains(h, p, p2)
  {
    if p.term == p2.term && p.term in h.reigns {
      var sender, sender1 := h.reigns[p.term].log, h1.reigns[p.term].log;
      assert SameReign(h.reigns[p.term], h1.reigns[p.term]);
      forall x: nat | x <= |sender| && sender[..x] <= p.log ensures sender[..x] <= p2.log {
        assert sender1[..x] == sender[..x];
      }
    }
  }

  /** What is acknowledged anew is acknowledged by i, in its present term or as that term's leader. */
  ghost predicate Reported(h: History, h': History, i: NodeId, term: nat) {
    forall a :: a in h'.acks ==>
      || (a in h.acks && h'.acks[a] == h.acks[a])
      || (a.0 == i && (a.1 == term || (a.1 in h'.reigns && h'.reigns[a.1].leader == i)))
  }

  /** Only peer i and histories about i change; nothing sent is unsent and no vote is taken back. */
  ghost predicate LocalChange(s: Sys, h: History, s': Sys, h': History, i: NodeId) {
    && i in s.peers && s'.peers.Keys == s.peers.Keys
    && (forall j :: j in s.peers && j != i ==> s'.peers[j] == s.peers[j])
    && s.net <= s'.net
    && Extends(h, h')
    && (forall t :: t in h'.reigns ==> (t in h.reigns && h'.reigns[t] == h.reigns[t]) || h'.reigns[t].leader == i)
    && (forall a :: a in h'.acks ==> (a in h.acks && h'.acks[a] == h.acks[a]) || (a.0 == i && a.1 == s'.peers[i].term))
    && (s.peers[i].term < s'.peers[i].term
        || (s.peers[i].term == s'.peers[i].term
            && (s.peers[i].vote == None || s'.peers[i].vote == s.peers[i].vote)))
  }

  lemma TracedStable(h: History, h': History, log: Log)
    requires Extends(h, h') && Traced(h, log)
    ensures Traced(h', log)
  {
  }

  lemma KeepsStable(h: History, h': History, t: nat, k: nat, log: Log, limit: nat)
    requires Extends(h, h') && t in h.reigns && k <= |h.reigns[t].log| && Keeps(h, t, k, log, limit)
    ensures Keeps(h', t, k, log, limit)
  {
    assert SameReign(h.reigns[t], h'.reigns[t]);
    assert h'.reigns[t].log[..k] == h.reigns[t].log[..k];
    if !(h.reigns[t].log[..k] <= log) {
      var v :| t < v < limit && Missing(h, t, k, v);
      assert SameReign(h.reigns[v], h'.reigns[v]);
      assert Missing(h', t, k, v);
    }
  }

  lemma ChosenStable(h: History, h': History, members: seq<NodeId>, t: nat, k: nat)
    requires Extends(h, h') && Chosen(h, members, t, k)
    ensures Chosen(h', members, t, k)
  {
    assert SameReign(h.reigns[t], h'.reigns[t]);
    CountMonotone(Holders(h, members, t, k), Holders(h', members, t, k), members);
  }

  lemma CommittedStable(h: History, h': History, members: seq<NodeId>, log: Log, limit: nat, limit': nat)
    requires Extends(h, h') && Committed(h, members, log, limit) && limit <= limit'
    ensures Committed(h', members, log, limit')
  {
    if log != [] {
      var t: nat, k: nat :| t <= limit && Chosen(h, members, t, k) && |log| <= k && log <= h.reigns[t].log;
      ChosenStable(h, h', members, t, k);
      assert SameReign(h.reigns[t], h'.reigns[t]);
    }
  }

  lemma CommittedPrefix(h: History, members: seq<NodeId>, log: Log, limit: nat, k: nat)
    requires Committed(h, members, log, limit) && k <= |log|
    ensures Committed(h, members, log[..k], limit)
  {
    if k != 0 {
      var t: nat, c: nat :| t <= limit && Chosen(h, members, t, c) && |log| <= c && log <= h.reigns[t].log;
      assert log[..k] <= h.reigns[t].log;
    }
  }

  lemma MessageStable(h: History, h': History, members: seq<NodeId>, m: Message)
    requires Extends(h, h') && MessageOk(h, m)
    ensures MessageOk(h', m)
    ensures MessageCommitOk(h, members, m) ==> MessageCommitOk(h', members, m)
  {
    if m.AppendEntries? {
      var r, r' := h.reigns[m.term], h'.reigns[m.term];
      assert SameReign(r, r');
      assert r'.log[m.prevIndex..m.prevIndex + |m.entries|] == r.log[m.prevIndex..m.prevIndex + |m.entries|];
      if MessageCommitOk(h, members, m) {
        assert r'.log[..m.leaderCommit] == r.log[..m.leaderCommit];
        CommittedStable(h, h', members, r.log[..m.leaderCommit], m.term, m.term);
      }
    }
  }

  lemma ReignStable(h: History, h': History, members: seq<NodeId>, t: nat)
    requires Extends(h, h') && t in h.reigns && ReignOk(h, members, t)
    requires t in h'.reigns && h'.reigns[t] == h.reigns[t]
    ensures ReignOk(h', members, t)
  {
    TracedStable(h, h', h.reigns[t].base);
  }

  lemma BallotStable(s: Sys, h: History, s': Sys, h': History, i: NodeId, b: (NodeId, nat))
    requires LocalChange(s, h, s', h', i)
    requires b in h.ballots && BallotOk(h, b) && Promised(s, h, b)
    ensures BallotOk(h', b) && Promised(s', h', b)
  {
    TracedStable(h, h', h.ballots[b].log);
  }

  lemma PeerStable(s: Sys, h: History, s': Sys, h': History, i: NodeId, j: NodeId)
    requires LocalChange(s, h, s', h', i)
    requires j in s.peers && j != i && PeerOk(h, j, s.peers[j])
    ensures PeerOk(h', j, s'.peers[j])
  {
    TracedStable(h, h', s.peers[j].log);
  }

  /** What is left to check when one peer acts: that peer, its new messages, and new history. */
  lemma InvFrame(s: Sys, h: History, s': Sys, h': History, members: seq<NodeId>, i: NodeId)
    requires Inv(s, h, members) && LocalChange(s, h, s', h', i)
    requires PeerOk(h', i, s'.peers[i])
    requires forall m :: m in s'.net && m !in s.net ==> MessageOk(h', m) && m.source == i && m.term <= s'.peers[i].term
    requires forall t {:trigger ReignOk(h', members, t)} :: t in h'.reigns && !(t in h.reigns && h'.reigns[t] == h.reigns[t]) ==> ReignOk(h', members, t)
    requires forall b {:trigger BallotOk(h', b)} :: b in h'.ballots && b !in h.ballots ==> BallotOk(h', b) && Promised(s', h', b)
    ensures Inv(s', h', members)
  {
    forall t | t in h'.reigns ensures ReignOk(h', members, t) {
      if t in h.reigns && h'.reigns[t] == h.reigns[t] {
        assert ReignOk(h, members, t);
        ReignStable(h, h', members, t);
      }
    }
    forall b | b in h'.ballots ensures BallotOk(h', b) && Promised(s', h', b) {
      if b in h.ballots {
        assert BallotOk(h, b) && Promised(s, h, b);
        BallotStable(s, h, s', h', i, b);
      }
    }
    forall j | j in s'.peers ensures PeerOk(h', j, s'.peers[j]) {
      if j != i {
        assert PeerOk(h, j, s.peers[j]);
        PeerStable(s, h, s', h', i, j);
      }
    }
    forall m | m in s'.net ensures MessageOk(h', m) && TermKept(s', m) {
      if m in s.net {
        assert MessageOk(h, m) && TermKept(s, m);
        MessageStable(h, h', members, m);
      }
    }
  }

  lemma CommitFrame(s: Sys, h: History, s': Sys, h': History, members: seq<NodeId>, i: NodeId)
    requires Inv(s, h, members) && CommitInv(s, h, members) && LocalChange(s, h, s', h', i)
    requires forall a {:trigger AckOk(s', h', a)} :: a in h'.acks && a.0 == i ==> AckOk(s', h', a)
    requires forall b {:trigger BallotKeeps(h', b)} :: b in h'.ballots && b !in h.ballots ==> BallotKeeps(h', b)
    requires forall t {:trigger ReignHeld(h', t)} :: t in h'.reigns && !(t in h.reigns && h'.reigns[t] == h.reigns[t]) ==> ReignHeld(h', t)
    requires PeerCommitOk(h', members, i, s'.peers[i])
    requires forall m :: m in s'.net && m !in s.net ==> MessageCommitOk(h', members, m)
    ensures CommitInv(s', h', members)
  {
    forall a | a in h'.acks ensures AckOk(s', h', a) {
      if a.0 != i {
        assert AckOk(s, h, a) && SameReign(h.reigns[a.1], h'.reigns[a.1]);
        KeepsAllStable(h, h', a.1, h.acks[a], s.peers[a.0].log, s.peers[a.0].term + 1);
      }
    }
    forall t | t in h'.reigns ensures ReignHeld(h', t) {
      if t in h.reigns && h'.reigns[t] == h.reigns[t] { assert ReignHeld(h, t); }
    }
    forall b | b in h'.ballots ensures BallotKeeps(h', b) {
      if b in h.ballots {
        BallotKeepsStable(s, h, s', h', members, i, b);
      }
    }
    forall j | j in s'.peers ensures PeerCommitOk(h', members, j, s'.peers[j]) {
      if j != i {
        var p := s.peers[j];
        assert PeerCommitOk(h, members, j, p) && PeerOk(h, j, p);
        CommittedStable(h, h', members, p.log[..p.commit], p.term, p.term);
      }
    }
    forall m | m in s'.net ensures MessageCommitOk(h', members, m) {
      if m in s.net {
        assert MessageOk(h, m) && MessageCommitOk(h, members, m);
        MessageStable(h, h', members, m);
      }
    }
  }

  lemma KeepsAllStable(h: History, h': History, t: nat, upTo: nat, log: Log, limit: nat)
    requires Extends(h, h') && t in h.reigns && upTo <= |h.reigns[t].log| && KeepsAll(h, t, upTo, log, limit)
    ensures t in h'.reigns && upTo <= |h'.reigns[t].log| && KeepsAll(h', t, upTo, log, limit)
  {
    assert SameReign(h.reigns[t], h'.reigns[t]);
    forall k: nat | k <= upTo ensures Keeps(h', t, k, log, limit) {
      assert Keeps(h, t, k, log, limit);
      KeepsStable(h, h', t, k, log, limit);
    }
  }

  lemma BallotKeepsStable(s: Sys, h: History, s': Sys, h': History, members: seq<NodeId>, i: NodeId, b: (NodeId, nat))
    requires Inv(s, h, members) && CommitInv(s, h, members) && LocalChange(s, h, s', h', i)
    requires b in h.ballots
    ensures BallotKeeps(h', b)
  {
    assert BallotKeeps(h, b) && Promised(s, h, b);
    if b.1 !in h'.reigns || b.0 in h'.reigns[b.1].votes {
      assert b.1 in h.reigns ==> SameReign(h.reigns[b.1], h'.reigns[b.1]);
      forall t | (b.0, t) in h'.acks && t < b.1 && t in h'.reigns && h'.acks[(b.0, t)] <= |h'.reigns[t].log|
        ensures KeepsAll(h', t, h'.acks[(b.0, t)], h'.ballots[b].log, b.1)
      {
        assert (b.0, t) in h.acks && h'.acks[(b.0, t)] == h.acks[(b.0, t)];
        assert AckOk(s, h, (b.0, t));
        KeepsAllStable(h, h', t, h.acks[(b.0, t)], h.ballots[b].log, b.1);
      }
    }
  }

  // ---- Actions ----

  function With(s: Sys, i: NodeId, p: Peer, sent: set<Message>): Sys {
    Sys(s.peers[i := p], s.net + sent)
  }

  /** Refusals promise nothing. */
  predicate Refusal(m: Message, i: NodeId, term: nat) {
    ((m.VoteReply? && !m.granted) || (m.AppendReply? && !m.success)) && m.source == i && m.term <= term
  }

  /** Falling back to follower: term adoption, demotion, refusal, crash, restart or a torn save. */
  lemma RetreatKeeps(s: Sys, h: History, members: seq<NodeId>, i: NodeId, p': Peer, sent: set<Message>)
    requires Inv(s, h, members) && i in s.peers
    requires p'.role == Follower && p'.log == s.peers[i].log
    requires s.peers[i].term < p'.term
             || (s.peers[i].term == p'.term && (s.peers[i].vote == None || p'.vote == s.peers[i].vote))
    requires forall m :: m in sent ==> Refusal(m, i, p'.term)
    ensures Inv(With(s, i, p', sent), h, members)
    ensures CommitInv(s, h, members) && p'.applied <= p'.commit <= |p'.log| && Committed(h, members, p'.log[..p'.commit], p'.term)
            ==> CommitInv(With(s, i, p', sent), h, members)
  {
    var s' := With(s, i, p', sent);
    assert PeerOk(h, i, s.peers[i]);
    InvFrame(s, h, s', h, members, i);
    if CommitInv(s, h, members) && p'.applied <= p'.commit <= |p'.log| && Committed(h, members, p'.log[..p'.commit], p'.term) {
      assert PeerCommitOk(h, members, i, s.peers[i]);
      forall a | a in h.acks && a.0 == i ensures AckOk(s', h, a) {
        assert AckOk(s, h, a);
        KeepsAllRaise(h, a.1, h.acks[a], p'.log, s.peers[i].term + 1, p'.term + 1);
      }
      CommitFrame(s, h, s', h, members, i);
    }
  }

  lemma KeepsAllRaise(h: History, t: nat, upTo: nat, log: Log, limit: nat, limit': nat)
    requires t in h.reigns && upTo <= |h.reigns[t].log| && KeepsAll(h, t, upTo, log, limit) && limit <= limit'
    ensures KeepsAll(h, t, upTo, log, limit')
  {
    forall k: nat | k <= upTo ensures Keeps(h, t, k, log, limit') {
      assert Keeps(h, t, k, log, limit);
    }
  }

  /** Bookkeeping by any role: refusals, applying committed entries, forgetting acknowledgements. */
  lemma TuneKeeps(s: Sys, h: History, members: seq<NodeId>, i: NodeId, p': Peer, sent: set<Message>)
    requires Inv(s, h, members) && i in s.peers
    requires var p := s.peers[i]; p' == p.(applied := p'.applied, matched := p'.matched) && p'.applied <= p.commit
    requires forall j :: j in p'.matched && p'.matched[j] > 0 ==> j in s.peers[i].matched && p'.matched[j] == s.peers[i].matched[j]
    requires forall m :: m in sent ==> Refusal(m, i, p'.term)
    ensures Inv(With(s, i, p', sent), h, members)
    ensures CommitInv(s, h, members) ==> CommitInv(With(s, i, p', sent), h, members)
  {
    var s' := With(s, i, p', sent);
    assert PeerOk(h, i, s.peers[i]);
    InvFrame(s, h, s', h, members, i);
    if CommitInv(s, h, members) {
      assert PeerCommitOk(h, members, i, s.peers[i]);
      forall a | a in h.acks && a.0 == i ensures AckOk(s', h, a) {
        assert AckOk(s, h, a);
      }
      CommitFrame(s, h, s', h, members, i);
    }
  }

  lemma BallotTerm(s: Sys, h: History, b: (NodeId, nat))
    requires PromisesKept(s, h) && b in h.ballots
    ensures b.0 in s.peers && b.1 <= s.peers[b.0].term
  {
    assert Promised(s, h, b);
  }

  function Campaigning(p: Peer, i: NodeId): Peer {
    p.(term := p.term + 1, vote := Some(i), role := Candidate, votes := {i})
  }

  lemma StartElectionKeeps(s: Sys, h: History, members: seq<NodeId>, i: NodeId, sent: set<Message>) returns (h': History)
    requires Inv(s, h, members) && i in s.peers
    requires forall m :: m in sent ==>
               m.RequestVote? && m == RequestVote(s.peers[i].term + 1, i, m.target, |s.peers[i].log|, LastTerm(s.peers[i].log))
    ensures Extends(h, h') && h'.acks == h.acks && Inv(With(s, i, Campaigning(s.peers[i], i), sent), h', members)
    ensures CommitInv(s, h, members) ==> CommitInv(With(s, i, Campaigning(s.peers[i], i), sent), h', members)
  {
    var p := s.peers[i];
    var b := (i, p.term + 1);
    var s' := With(s, i, Campaigning(p, i), sent);
    assert b !in h.ballots by {
      if b in h.ballots { BallotTerm(s, h, b); }
    }
    h' := h.(ballots := h.ballots[b := Ballot(i, p.log)]);
    assert PeerOk(h, i, p);
    if b.1 in h.reigns {
      assert ReignOk(h, members, b.1);
    }
    TracedStable(h, h', p.log);
    assert BallotOk(h', b) && Promised(s', h', b);
    InvFrame(s, h, s', h', members, i);
    if CommitInv(s, h, members) {
      StartElectionCommit(s, h, members, i, sent, h');
    }
  }

  lemma LastTermReached(s: Sys, h: History, members: seq<NodeId>, i: NodeId)
    requires Inv(s, h, members) && i in s.peers
    ensures var p := s.peers[i]; p.log != [] ==> LastTerm(p.log) <= p.term
  {
    assert PeerOk(h, i, s.peers[i]);
  }

  lemma StartElectionCommit(s: Sys, h: History, members: seq<NodeId>, i: NodeId, sent: set<Message>, h': History)
    requires Inv(s, h, members) && CommitInv(s, h, members) && i in s.peers
    requires forall m :: m in sent ==> m.RequestVote?
    requires h' == h.(ballots := h.ballots[(i, s.peers[i].term + 1) := Ballot(i, s.peers[i].log)])
    requires LocalChange(s, h, With(s, i, Campaigning(s.peers[i], i), sent), h', i)
    ensures CommitInv(With(s, i, Campaigning(s.peers[i], i), sent), h', members)
  {
    var p := s.peers[i];
    var b := (i, p.term + 1);
    var s' := With(s, i, Campaigning(p, i), sent);
    forall a | a in h'.acks && a.0 == i ensures AckOk(s', h', a) {
      assert AckOk(s, h, a);
      KeepsAllStable(h, h', a.1, h.acks[a], p.log, p.term + 1);
      KeepsAllRaise(h', a.1, h.acks[a], p.log, p.term + 1, p.term + 2);
    }
    assert BallotKeeps(h', b) by {
      forall t | (i, t) in h'.acks && t < b.1 && t in h'.reigns && h'.acks[(i, t)] <= |h'.reigns[t].log|
        ensures KeepsAll(h', t, h'.acks[(i, t)], p.log, b.1)
      {
        assert AckOk(s, h, (i, t));
        KeepsAllStable(h, h', t, h.acks[(i, t)], p.log, p.term + 1);
      }
    }
    LastTermReached(s, h, members, i);
    assert PeerCommitOk(h, members, i, p);
    CommittedStable(h, h', members, p.log[..p.commit], p.term, p.term + 1);
    CommitFrame(s, h, s', h', members, i);
  }

  lemma GrantVoteKeeps(s: Sys, h: History, members: seq<NodeId>, i: NodeId, m: Message) returns (h': History)
    requires Inv(s, h, members) && i in s.peers && m in s.net && m.RequestVote? && m.term == s.peers[i].term
    requires s.peers[i].vote == None || s.peers[i].vote == Some(m.source)
    requires UpToDate(m.lastIndex, m.lastTerm, s.peers[i].log)
    ensures var s' := With(s, i, s.peers[i].(vote := Some(m.source)), {VoteReply(m.term, i, m.source, true)});
            && Extends(h, h') && h'.acks == h.acks && Inv(s', h', members)
            && (CommitInv(s, h, members) ==> CommitInv(s', h', members))
  {
    var p := s.peers[i];
    var b := (i, p.term);
    var s' := With(s, i, p.(vote := Some(m.source)), {VoteReply(m.term, i, m.source, true)});
    assert MessageOk(h, m) && PeerOk(h, i, p);
    if b in h.ballots {
      h' := h;
      assert Promised(s, h, b);
    } else {
      h' := h.(ballots := h.ballots[b := Ballot(m.source, p.log)]);
      TracedStable(h, h', p.log);
      assert BallotOk(h, (m.source, m.term));
      assert BallotOk(h', b) && Promised(s', h', b);
    }
    InvFrame(s, h, s', h', members, i);
    if CommitInv(s, h, members) {
      GrantVoteCommit(s, h, members, i, m, h');
    }
  }

  lemma GrantVoteCommit(s: Sys, h: History, members: seq<NodeId>, i: NodeId, m: Message, h': History)
    requires Inv(s, h, members) && CommitInv(s, h, members) && i in s.peers && m.RequestVote?
    requires h' == h || ((i, s.peers[i].term) !in h.ballots
                         && h' == h.(ballots := h.ballots[(i, s.peers[i].term) := Ballot(m.source, s.peers[i].log)]))
    requires LocalChange(s, h, With(s, i, s.peers[i].(vote := Some(m.source)), {VoteReply(m.term, i, m.source, true)}), h', i)
    ensures CommitInv(With(s, i, s.peers[i].(vote := Some(m.source)), {VoteReply(m.term, i, m.source, true)}), h', members)
  {
    var p := s.peers[i];
    var s' := With(s, i, p.(vote := Some(m.source)), {VoteReply(m.term, i, m.source, true)});
    forall a | a in h'.acks && a.0 == i ensures AckOk(s', h', a) {
      assert AckOk(s, h, a);
      KeepsAllStable(h, h', a.1, h.acks[a], p.log, p.term + 1);
    }
    if h' != h {
      FreshBallotKeeps(s, h, members, i, Ballot(m.source, p.log), h');
    }
    assert PeerCommitOk(h, members, i, p);
    CommittedStable(h, h', members, p.log[..p.commit], p.term, p.term);
    CommitFrame(s, h, s', h', members, i);
  }

  lemma VotersCast(h: History, members: seq<NodeId>, t: nat, j: NodeId)
    requires ReignsOk(h, members)
    ensures t in h.reigns && j in h.reigns[t].votes ==> CastFor(h, j, t, h.reigns[t].leader)
  {
    if t in h.reigns { assert ReignOk(h, members, t); }
  }

  lemma AckHasReign(s: Sys, h: History, a: (NodeId, nat))
    requires AcksOk(s, h) && a in h.acks
    ensures a.1 in h.reigns
  {
    assert AckOk(s, h, a);
  }

  lemma FreshBallotKeeps(s: Sys, h: History, members: seq<NodeId>, i: NodeId, ballot: Ballot, h': History)
    requires Inv(s, h, members) && CommitInv(s, h, members) && i in s.peers && ballot.log == s.peers[i].log
    requires (i, s.peers[i].term) !in h.ballots
    requires h' == h.(ballots := h.ballots[(i, s.peers[i].term) := ballot])
    ensures BallotKeeps(h', (i, s.peers[i].term))
  {
    var u := s.peers[i].term;
    if u !in h.reigns || i in h.reigns[u].votes {
      VotersCast(h, members, u, i);
      forall t | (i, t) in h'.acks && t < u && t in h'.reigns && h'.acks[(i, t)] <= |h'.reigns[t].log|
        ensures KeepsAll(h', t, h'.acks[(i, t)], ballot.log, u)
      {
        assert AckOk(s, h, (i, t));
        forall k: nat | k <= h.acks[(i, t)] ensures Keeps(h', t, k, ballot.log, u) {
          assert Keeps(h, t, k, ballot.log, u + 1);
          if !(h.reigns[t].log[..k] <= ballot.log) {
            var v :| t < v < u + 1 && Missing(h, t, k, v);
            assert Missing(h', t, k, v);
          }
        }
      }
    }
  }

  lemma CollectVoteKeeps(s: Sys, h: History, members: seq<NodeId>, i: NodeId, m: Message)
    requires Inv(s, h, members) && i in s.peers && s.peers[i].role == Candidate
    requires m in s.net && m.VoteReply? && m.granted && m.target == i && m.term == s.peers[i].term
    ensures var s' := With(s, i, s.peers[i].(votes := s.peers[i].votes + {m.source}), {});
            Inv(s', h, members) && (CommitInv(s, h, members) ==> CommitInv(s', h, members))
  {
    var p := s.peers[i];
    var s' := With(s, i, p.(votes := p.votes + {m.source}), {});
    assert MessageOk(h, m) && PeerOk(h, i, p);
    InvFrame(s, h, s', h, members, i);
    if CommitInv(s, h, members) {
      assert PeerCommitOk(h, members, i, p);
      forall a | a in h.acks && a.0 == i ensures AckOk(s', h, a) {
        assert AckOk(s, h, a);
      }
      CommitFrame(s, h, s', h, members, i);
    }
  }

  lemma OneWinner(h: History, members: seq<NodeId>, t: nat, i: NodeId, votes: set<NodeId>)
    requires ReignsOk(h, members) && t in h.reigns
    requires HasQuorum(votes, members) && forall j :: j in votes ==> CastFor(h, j, t, i)
    ensures h.reigns[t].leader == i
  {
    assert ReignOk(h, members, t);
    var j := QuorumsMeet(votes, h.reigns[t].votes, members);
    assert CastFor(h, j, t, i) && CastFor(h, j, t, h.reigns[t].leader);
  }

  /** Only one candidate of a term can gather a majority: the voters in common voted once. */
  lemma NoOtherReign(s: Sys, h: History, members: seq<NodeId>, i: NodeId)
    requires Inv(s, h, members) && i in s.peers && s.peers[i].role == Candidate
    requires HasQuorum(s.peers[i].votes, members)
    ensures s.peers[i].term !in h.reigns
  {
    var t := s.peers[i].term;
    assert PeerOk(h, i, s.peers[i]);
    if t in h.reigns {
      OneWinner(h, members, t, i, s.peers[i].votes);
    }
  }

  function Crowned(h: History, i: NodeId, p: Peer): History {
    var ack := if (i, p.term) in h.acks then Max(h.acks[(i, p.term)], |p.log|) else |p.log|;
    h.(reigns := h.reigns[p.term := Reign(i, p.votes, p.log, p.log)], acks := h.acks[(i, p.term) := ack])
  }

  lemma WinKeeps(s: Sys, h: History, members: seq<NodeId>, i: NodeId, matched: map<NodeId, nat>) returns (h': History)
    requires Inv(s, h, members) && i in s.peers && s.peers[i].role == Candidate
    requires HasQuorum(s.peers[i].votes, members)
    requires forall j :: j in matched && j != i ==> matched[j] == 0
    ensures var s' := With(s, i, s.peers[i].(role := Leader, matched := matched), {});
            && Extends(h, h') && Reported(h, h', i, s.peers[i].term) && Inv(s', h', members)
            && (CommitInv(s, h, members) ==> CommitInv(s', h', members))
  {
    NoOtherReign(s, h, members, i);
    h' := Crowned(h, i, s.peers[i]);
    WinInv(s, h, members, i, matched, h');
    if CommitInv(s, h, members) {
      WinCommit(s, h, members, i, matched, h');
    }
  }

  lemma WinInv(s: Sys, h: History, members: seq<NodeId>, i: NodeId, matched: map<NodeId, nat>, h': History)
    requires Inv(s, h, members) && i in s.peers && s.peers[i].role == Candidate
    requires HasQuorum(s.peers[i].votes, members) && s.peers[i].term !in h.reigns
    requires h' == Crowned(h, i, s.peers[i])
    ensures var s' := With(s, i, s.peers[i].(role := Leader, matched := matched), {});
            LocalChange(s, h, s', h', i) && Inv(s', h', members)
  {
    var p := s.peers[i];
    assert PeerOk(h, i, p);
    TracedStable(h, h', p.log);
    TracedIndexed(h, members, p.log);
    assert ReignOk(h', members, p.term);
    InvFrame(s, h, With(s, i, p.(role := Leader, matched := matched), {}), h', members, i);
  }

  lemma WinCommit(s: Sys, h: History, members: seq<NodeId>, i: NodeId, matched: map<NodeId, nat>, h': History)
    requires Inv(s, h, members) && CommitInv(s, h, members) && i in s.peers && s.peers[i].role == Candidate
    requires s.peers[i].term !in h.reigns && h' == Crowned(h, i, s.peers[i])
    requires forall j :: j in matched && j != i ==> matched[j] == 0
    requires LocalChange(s, h, With(s, i, s.peers[i].(role := Leader, matched := matched), {}), h', i)
    ensures CommitInv(With(s, i, s.peers[i].(role := Leader, matched := matched), {}), h', members)
  {
    var p := s.peers[i];
    var t := p.term;
    var s' := With(s, i, p.(role := Leader, matched := matched), {});
    if (i, t) in h.acks { AckHasReign(s, h, (i, t)); }
    forall a | a in h'.acks && a.0 == i ensures AckOk(s', h', a) {
      if a.1 == t {
        OwnLogKept(h', t, |p.log|, p.log);
      } else {
        assert AckOk(s, h, a);
        KeepsAllStable(h, h', a.1, h.acks[a], p.log, t + 1);
      }
    }
    assert PeerCommitOk(h, members, i, p);
    CommittedStable(h, h', members, p.log[..p.commit], p.term, p.term);
    CommitFrame(s, h, s', h', members, i);
  }

  lemma TracedIndexed(h: History, members: seq<NodeId>, log: Log)
    requires ReignsOk(h, members) && Traced(h, log)
    ensures Indexed(log)
  {
    if log != [] {
      assert ReignOk(h, members, LastTerm(log));
    }
  }

  function Appending(p: Peer, i: NodeId, c: Command): Peer {
    p.(log := p.log + [Entry(|p.log| + 1, p.term, c, i)], matched := p.matched[i := |p.log| + 1])
  }

  function Extended(h: History, i: NodeId, t: nat, log: Log): History
    requires t in h.reigns
  {
    var ack := if (i, t) in h.acks then Max(h.acks[(i, t)], |log|) else |log|;
    h.(reigns := h.reigns[t := h.reigns[t].(log := log)], acks := h.acks[(i, t) := ack])
  }

  lemma LeaderAppendKeeps(s: Sys, h: History, members: seq<NodeId>, i: NodeId, c: Command) returns (h': History)
    requires Inv(s, h, members) && i in s.peers && s.peers[i].role == Leader
    ensures var s' := With(s, i, Appending(s.peers[i], i, c), {});
            && Extends(h, h') && Reported(h, h', i, s.peers[i].term) && Inv(s', h', members)
            && (CommitInv(s, h, members) ==> CommitInv(s', h', members))
  {
    var p := s.peers[i];
    assert PeerOk(h, i, p);
    h' := Extended(h, i, p.term, Appending(p, i, c).log);
    LeaderAppendInv(s, h, members, i, c, h');
    if CommitInv(s, h, members) {
      LeaderAppendCommit(s, h, members, i, c, h');
    }
  }

  lemma LongerReign(h: History, members: seq<NodeId>, i: NodeId, t: nat, log: Log, h': History)
    requires t in h.reigns && ReignOk(h, members, t) && h' == Extended(h, i, t, log)
    requires h.reigns[t].log <= log && Indexed(log) && forall k :: |h.reigns[t].log| <= k < |log| ==> log[k].term == t && log[k].creator == h.reigns[t].leader
    ensures Extends(h, h') && ReignOk(h', members, t)
  {
    TracedStable(h, h', h.reigns[t].base);
  }

  lemma LeaderAppendInv(s: Sys, h: History, members: seq<NodeId>, i: NodeId, c: Command, h': History)
    requires Inv(s, h, members) && i in s.peers && s.peers[i].role == Leader && s.peers[i].term in h.reigns
    requires h' == Extended(h, i, s.peers[i].term, Appending(s.peers[i], i, c).log)
    ensures LocalChange(s, h, With(s, i, Appending(s.peers[i], i, c), {}), h', i)
    ensures Inv(With(s, i, Appending(s.peers[i], i, c), {}), h', members)
  {
    var p := s.peers[i];
    var t := p.term;
    var p' := Appending(p, i, c);
    assert PeerOk(h, i, p) && ReignOk(h, members, t);
    assert p.log <= p'.log && LastTerm(p'.log) == t;
    LongerReign(h, members, i, t, p'.log, h');
    InvFrame(s, h, With(s, i, p', {}), h', members, i);
  }

  lemma LeaderAppendCommit(s: Sys, h: History, members: seq<NodeId>, i: NodeId, c: Command, h': History)
    requires Inv(s, h, members) && i in s.peers && s.peers[i].role == Leader && s.peers[i].term in h.reigns
    requires h' == Extended(h, i, s.peers[i].term, Appending(s.peers[i], i, c).log)
    requires LocalChange(s, h, With(s, i, Appending(s.peers[i], i, c), {}), h', i)
    requires CommitInv(s, h, members)
    ensures CommitInv(With(s, i, Appending(s.peers[i], i, c), {}), h', members)
  {
    var p := s.peers[i];
    var t := p.term;
    var p' := Appending(p, i, c);
    var s' := With(s, i, p', {});
    assert PeerOk(h, i, p) && PeerCommitOk(h, members, i, p);
    forall a | a in h'.acks && a.0 == i ensures AckOk(s', h', a) {
      if a.1 == t {
        OwnLogKept(h', t, |p'.log|, p'.log);
      } else {
        AckOfLonger(s, h, s', h', i, a);
      }
    }
    assert p'.log[..p.commit] == p.log[..p.commit];
    CommittedStable(h, h', members, p.log[..p.commit], t, t);
    CommitFrame(s, h, s', h', members, i);
  }

  lemma AckOfLonger(s: Sys, h: History, s': Sys, h': History, i: NodeId, a: (NodeId, nat))
    requires LocalChange(s, h, s', h', i) && AcksOk(s, h) && a in h.acks && a.0 == i && h'.acks[a] == h.acks[a]
    requires s'.peers[i].term == s.peers[i].term && s.peers[i].log <= s'.peers[i].log
    ensures AckOk(s', h', a)
  {
    assert AckOk(s, h, a);
    KeepsAllStable(h, h', a.1, h.acks[a], s.peers[i].log, s.peers[i].term + 1);
    KeepsAllLonger(h', a.1, h.acks[a], s.peers[i].log, s'.peers[i].log, s.peers[i].term + 1);
  }

  lemma OwnLogKept(h: History, t: nat, upTo: nat, log: Log)
    requires t in h.reigns && h.reigns[t].log == log && upTo <= |log|
    ensures KeepsAll(h, t, upTo, log, t + 1)
  {
    assert forall k: nat {:trigger Keeps(h, t, k, log, t + 1)} :: k <= upTo ==> Keeps(h, t, k, log, t + 1);
  }

  lemma KeepsAllLonger(h: History, t: nat, upTo: nat, log: Log, log': Log, limit: nat)
    requires t in h.reigns && upTo <= |h.reigns[t].log| && KeepsAll(h, t, upTo, log, limit) && log <= log'
    ensures KeepsAll(h, t, upTo, log', limit)
  {
    forall k: nat | k <= upTo ensures Keeps(h, t, k, log', limit) {
      assert Keeps(h, t, k, log, limit);
    }
  }

  function Replication(p: Peer, i: NodeId, target: NodeId, next: nat): Message
    requires 1 <= next <= |p.log| + 1
  {
    AppendEntries(p.term, i, target, next - 1, TermAt(p.log, next - 1), CreatorAt(p.log, next - 1), p.log[next - 1..], p.commit)
  }

  lemma ReplicationOk(h: History, members: seq<NodeId>, i: NodeId, p: Peer, target: NodeId, next: nat)
    requires ReignsOk(h, members) && PeerOk(h, i, p) && p.role == Leader && 1 <= next <= |p.log| + 1
    ensures MessageOk(h, Replication(p, i, target, next))
    ensures PeerCommitOk(h, members, i, p) ==> MessageCommitOk(h, members, Replication(p, i, target, next))
  {
    assert ReignOk(h, members, p.term);
    hide Committed, TermsBelow, Traced, HasQuorum;
  }

  lemma ReplicateKeeps(s: Sys, h: History, members: seq<NodeId>, i: NodeId, target: NodeId, next: nat)
    requires Inv(s, h, members) && i in s.peers && s.peers[i].role == Leader && 1 <= next <= |s.peers[i].log| + 1
    ensures var s' := With(s, i, s.peers[i], {Replication(s.peers[i], i, target, next)});
            Inv(s', h, members) && (CommitInv(s, h, members) ==> CommitInv(s', h, members))
  {
    var p := s.peers[i];
    var s' := With(s, i, p, {Replication(p, i, target, next)});
    assert PeerOk(h, i, p);
    assert CommitInv(s, h, members) ==> PeerCommitOk(h, members, i, p);
    ReplicationOk(h, members, i, p, target, next);
    hide PeerOk, PeerCommitOk, MessageOk, MessageCommitOk;
    InvFrame(s, h, s', h, members, i);
    if CommitInv(s, h, members) {
      forall a | a in h.acks && a.0 == i ensures AckOk(s', h, a) {
        assert AckOk(s, h, a);
      }
      CommitFrame(s, h, s', h, members, i);
    }
  }

  lemma RecordAckKeeps(s: Sys, h: History, members: seq<NodeId>, i: NodeId, m: Message)
    requires Inv(s, h, members) && i in s.peers && s.peers[i].role == Leader
    requires m in s.net && m.AppendReply? && m.success && m.term == s.peers[i].term
    ensures var s' := With(s, i, s.peers[i].(matched := s.peers[i].matched[m.source := m.matchIndex]), {});
            Inv(s', h, members) && (CommitInv(s, h, members) ==> CommitInv(s', h, members))
  {
    var p := s.peers[i];
    var s' := With(s, i, p.(matched := p.matched[m.source := m.matchIndex]), {});
    assert PeerOk(h, i, p);
    InvFrame(s, h, s', h, members, i);
    if CommitInv(s, h, members) {
      assert PeerCommitOk(h, members, i, p) && MessageCommitOk(h, members, m);
      forall a | a in h.acks && a.0 == i ensures AckOk(s', h, a) {
        assert AckOk(s, h, a);
      }
      CommitFrame(s, h, s', h, members, i);
    }
  }

  /** The members a leader counts as holding index k of its log. */
  function Replicas(p: Peer, i: NodeId, k: nat): set<NodeId> {
    (set j | j in p.matched && j != i && p.matched[j] >= k) + (if |p.log| >= k then {i} else {})
  }

  lemma AdvanceCommitKeeps(s: Sys, h: History, members: seq<NodeId>, i: NodeId, k: nat)
    requires Inv(s, h, members) && i in s.peers && s.peers[i].role == Leader
    requires s.peers[i].commit < k <= |s.peers[i].log| && s.peers[i].log[k - 1].term == s.peers[i].term
    requires HasQuorum(Replicas(s.peers[i], i, k), members)
    ensures var s' := With(s, i, s.peers[i].(commit := k), {});
            Inv(s', h, members) && (CommitInv(s, h, members) ==> CommitInv(s', h, members))
  {
    var p := s.peers[i];
    var s' := With(s, i, p.(commit := k), {});
    assert PeerOk(h, i, p);
    InvFrame(s, h, s', h, members, i);
    if CommitInv(s, h, members) {
      assert PeerCommitOk(h, members, i, p);
      CountMonotone(Replicas(p, i, k), Holders(h, members, p.term, k), members);
      assert Chosen(h, members, p.term, k);
      forall a | a in h.acks && a.0 == i ensures AckOk(s', h, a) {
        assert AckOk(s, h, a);
      }
      CommitFrame(s, h, s', h, members, i);
    }
  }
}
