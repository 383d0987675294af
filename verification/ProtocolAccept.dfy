/** A follower accepts an AppendEntries message of its own term. */
module ProtocolAccept {
  import opened RaftTypes
  import opened LogMerge
  import opened Protocol
  import opened ProtocolSteps

  /** The checks on the entry before the new ones. */
  predicate Acceptable(p: Peer, m: Message) {
    m.AppendEntries? && m.term == p.term && m.prevIndex <= |p.log| && TermAt(p.log, m.prevIndex) == m.prevTerm
  }

  function Merging(p: Peer, m: Message): Merged
    requires m.AppendEntries?
  {
    Merge(Merged(p.log, false, false), m.entries, p.applied)
  }

  function Accepting(p: Peer, m: Message): Peer
    requires m.AppendEntries?
  {
    var r := Merging(p, m);
    p.(log := r.log, commit := NextCommit(p.commit, m.leaderCommit, |r.log|, r.rebuild),
       applied := if r.rebuild then 0 else p.applied)
  }

  /** Nothing older than the message's term is left beyond the entries it carried. The reply reports
      the follower's last index, so this is what makes the reply true of the leader's log. */
  predicate NoStaleSuffix(p: Peer, m: Message)
    requires m.AppendEntries?
  {
    var log := Merging(p, m).log;
    forall k :: m.prevIndex + |m.entries| <= k < |log| ==> log[k].term == m.term
  }

  function Sent(m: Message): nat
    requires m.AppendEntries?
  {
    m.prevIndex + |m.entries|
  }

  ghost predicate Ready(s: Sys, h: History, members: seq<NodeId>, i: NodeId, m: Message) {
    && Inv(s, h, members) && i in s.peers && s.peers[i].role == Follower
    && m in s.net && Acceptable(s.peers[i], m)
  }

  /** The follower ends with exactly what the leader sent, or already had it and keeps what it has. */
  lemma AcceptShape(s: Sys, h: History, members: seq<NodeId>, i: NodeId, m: Message)
    requires Ready(s, h, members, i, m)
    ensures m.term in h.reigns && Sent(m) <= |h.reigns[m.term].log|
    ensures var p, sender, r := s.peers[i], h.reigns[m.term].log, Merging(s.peers[i], m);
            && ((r == Merged(p.log, false, false) && sender[..Sent(m)] <= p.log)
                || (r.log == sender[..Sent(m)]
                    && (forall q :: 0 <= q <= |p.log| && q <= |sender| && p.log[..q] == sender[..q] ==> q <= Sent(m))))
            && (p.applied <= |p.log| && p.log[..p.applied] <= sender ==> !r.rebuild)
  {
    hide Inv, Merge, Indexed, Matching, MessageOk, TermAt, Ready;
    AcceptPrefix(s, h, members, i, m);
    MergeShape(Merged(s.peers[i].log, false, false), h.reigns[m.term].log, m.prevIndex, Sent(m), s.peers[i].applied);
  }

  /** What the checks establish: the logs agree up to the previous index. */
  lemma AcceptPrefix(s: Sys, h: History, members: seq<NodeId>, i: NodeId, m: Message)
    requires Ready(s, h, members, i, m)
    ensures m.AppendEntries? && m.term in h.reigns && i in s.peers
    ensures var log, sender := s.peers[i].log, h.reigns[m.term].log;
            && Sent(m) <= |sender| && m.prevIndex <= |log| && m.entries == sender[m.prevIndex..Sent(m)]
            && log[..m.prevIndex] == sender[..m.prevIndex] && Indexed(sender) && Matching(log, sender)
  {
    var p := s.peers[i];
    assert MessageOk(h, m) && PeerOk(h, i, p) && ReignOk(h, members, m.term);
    var sender := h.reigns[m.term].log;
    ReignTraced(h, members, m.term, |sender|);
    assert sender[..|sender|] == sender;
    LogMatching(h, members, p.log, sender);
    hide Inv, PeerOk, ReignOk;
    if m.prevIndex > 0 {
      assert p.log[m.prevIndex - 1].term == sender[m.prevIndex - 1].term;
    }
  }

  function Acknowledged(h: History, i: NodeId, t: nat, last: nat): History {
    h.(acks := h.acks[(i, t) := if (i, t) in h.acks then Max(h.acks[(i, t)], last) else last])
  }

  lemma AcceptPeer(s: Sys, h: History, members: seq<NodeId>, i: NodeId, m: Message, h': History)
    requires Ready(s, h, members, i, m)
    requires h' == Acknowledged(h, i, m.term, |Merging(s.peers[i], m).log|)
    ensures Extends(h, h') && PeerOk(h', i, Accepting(s.peers[i], m))
  {
    var p, p' := s.peers[i], Accepting(s.peers[i], m);
    AcceptShape(s, h, members, i, m);
    assert PeerOk(h, i, p) && ReignOk(h, members, m.term);
    if p'.log != p.log {
      ReignTraced(h, members, m.term, Sent(m));
    }
    TracedStable(h, h', p'.log);
  }

  lemma AcceptInv(s: Sys, h: History, members: seq<NodeId>, i: NodeId, m: Message, h': History)
    requires Ready(s, h, members, i, m)
    requires h' == Acknowledged(h, i, m.term, |Merging(s.peers[i], m).log|)
    ensures var p' := Accepting(s.peers[i], m);
            var s' := With(s, i, p', {AppendReply(p'.term, i, m.source, true, |p'.log|)});
            LocalChange(s, h, s', h', i) && Inv(s', h', members)
  {
    AcceptPeer(s, h, members, i, m, h');
    hide PeerOk, Merge, NextCommit, Inv;
    var p' := Accepting(s.peers[i], m);
    InvFrame(s, h, With(s, i, p', {AppendReply(p'.term, i, m.source, true, |p'.log|)}), h', members, i);
  }

  /** The follower's new log is a prefix of the leader's, so that the index it reports is really
      replicated, exactly when no stale suffix is left. */
  lemma HonestLog(s: Sys, h: History, members: seq<NodeId>, i: NodeId, m: Message)
    requires Ready(s, h, members, i, m)
    ensures m.term in h.reigns
    ensures Merging(s.peers[i], m).log <= h.reigns[m.term].log <==> NoStaleSuffix(s.peers[i], m)
  {
    AcceptShape(s, h, members, i, m);
    var p, r := s.peers[i], h.reigns[m.term];
    assert PeerOk(h, i, p) && MessageOk(h, m) && ReignOk(h, members, m.term);
    if |p.log| > Sent(m) && Merging(p, m).log == p.log {
      if NoStaleSuffix(p, m) {
        assert LastTerm(p.log) == m.term;
      }
      if p.log <= r.log {
        assert forall k :: Sent(m) <= k < |p.log| ==> p.log[k] == r.log[k];
      }
    }
  }

  /** Accepting never drops a committed entry, never rebuilds, and commits only what is chosen. */
  lemma AcceptCommitted(s: Sys, h: History, members: seq<NodeId>, i: NodeId, m: Message)
    requires Ready(s, h, members, i, m) && CommitInv(s, h, members)
    ensures var p, p' := s.peers[i], Accepting(s.peers[i], m);
            && !Merging(p, m).rebuild && p.commit <= |p.log| && p.log[..p.commit] <= p'.log
            && p.commit <= p'.commit <= |p'.log|
            && p'.applied <= p'.commit && Committed(h, members, p'.log[..p'.commit], p'.term)
  {
    var p, p' := s.peers[i], Accepting(s.peers[i], m);
    AcceptShape(s, h, members, i, m);
    assert PeerCommitOk(h, members, i, p) && MessageCommitOk(h, members, m);
    var sender := h.reigns[m.term].log;
    CommittedInReign(s, h, members, p.log[..p.commit], p.term, m.term);
    assert p.log[..p.applied] <= p.log[..p.commit];
    assert p.log[..p.commit] == sender[..p.commit];
    assert p.log[..p.commit] == p'.log[..p.commit];
    if m.leaderCommit > p.commit {
      assert p'.log[..m.leaderCommit] == sender[..m.leaderCommit];
    }
  }

  /** What the follower had acknowledged of an earlier term survives, or this term's leader lacked it. */
  lemma AcceptKeeps(s: Sys, h: History, members: seq<NodeId>, i: NodeId, m: Message, t: nat, k: nat)
    requires Ready(s, h, members, i, m)
    requires t in h.reigns && k <= |h.reigns[t].log| && t <= m.term
    requires Keeps(h, t, k, s.peers[i].log, m.term + 1)
    ensures Keeps(h, t, k, Merging(s.peers[i], m).log, m.term + 1)
  {
    AcceptShape(s, h, members, i, m);
    var p := s.peers[i];
    var sender := h.reigns[m.term].log;
    var held := h.reigns[t].log[..k];
    if held <= p.log {
      if held <= sender {
        assert p.log[..k] == sender[..k];
      } else {
        assert ReignOk(h, members, m.term);
        assert Missing(h, t, k, m.term);
      }
    }
  }

  lemma AcceptCommit(s: Sys, h: History, members: seq<NodeId>, i: NodeId, m: Message, h': History)
    requires Ready(s, h, members, i, m) && CommitInv(s, h, members) && NoStaleSuffix(s.peers[i], m)
    requires h' == Acknowledged(h, i, m.term, |Merging(s.peers[i], m).log|)
    requires var p' := Accepting(s.peers[i], m);
             LocalChange(s, h, With(s, i, p', {AppendReply(p'.term, i, m.source, true, |p'.log|)}), h', i)
    ensures var p' := Accepting(s.peers[i], m);
            CommitInv(With(s, i, p', {AppendReply(p'.term, i, m.source, true, |p'.log|)}), h', members)
  {
    var p := s.peers[i];
    var p' := Accepting(p, m);
    var s' := With(s, i, p', {AppendReply(p'.term, i, m.source, true, |p'.log|)});
    AcceptCommitted(s, h, members, i, m);
    CommittedStable(h, h', members, p'.log[..p'.commit], p'.term, p'.term);
    forall a | a in h'.acks && a.0 == i ensures AckOk(s', h', a) {
      AcceptAck(s, h, members, i, m, h', a);
    }
    CommitFrame(s, h, s', h', members, i);
  }

  lemma AcceptAck(s: Sys, h: History, members: seq<NodeId>, i: NodeId, m: Message, h': History, a: (NodeId, nat))
    requires Ready(s, h, members, i, m) && CommitInv(s, h, members) && NoStaleSuffix(s.peers[i], m)
    requires h' == Acknowledged(h, i, m.term, |Merging(s.peers[i], m).log|)
    requires a in h'.acks && a.0 == i
    ensures var p' := Accepting(s.peers[i], m);
            AckOk(With(s, i, p', {AppendReply(p'.term, i, m.source, true, |p'.log|)}), h', a)
  {
    var p' := Accepting(s.peers[i], m);
    HonestLog(s, h, members, i, m);
    if a in h.acks { assert AckOk(s, h, a); }
    var t, log', limit := a.1, p'.log, p'.term + 1;
    forall k: nat | k <= h'.acks[a] ensures Keeps(h', t, k, log', limit) {
      if a in h.acks && k <= h.acks[a] {
        assert Keeps(h, t, k, s.peers[i].log, limit);
        AcceptKeeps(s, h, members, i, m, t, k);
        KeepsStable(h, h', t, k, log', limit);
      }
    }
  }

  lemma AcceptRetains(s: Sys, h: History, members: seq<NodeId>, i: NodeId, m: Message)
    requires Ready(s, h, members, i, m)
    ensures Retains(h, s.peers[i], Accepting(s.peers[i], m))
  {
    AcceptShape(s, h, members, i, m);
    hide Inv, Merge, NextCommit;
    var sender, log, log' := h.reigns[m.term].log, s.peers[i].log, Merging(s.peers[i], m).log;
    forall x: nat | x <= |sender| && sender[..x] <= log ensures sender[..x] <= log' {
      assert log[..x] == sender[..x];
    }
  }

  lemma AcceptStep(s: Sys, h: History, members: seq<NodeId>, i: NodeId, m: Message) returns (h': History)
    requires Ready(s, h, members, i, m)
    ensures var p' := Accepting(s.peers[i], m);
            var s' := With(s, i, p', {AppendReply(p'.term, i, m.source, true, |p'.log|)});
            && Extends(h, h') && Reported(h, h', i, p'.term) && Inv(s', h', members) && Retains(h, s.peers[i], p')
            && (CommitInv(s, h, members) && NoStaleSuffix(s.peers[i], m) ==> CommitInv(s', h', members))
  {
    h' := Acknowledged(h, i, m.term, |Merging(s.peers[i], m).log|);
    AcceptInv(s, h, members, i, m, h');
    AcceptRetains(s, h, members, i, m);
    if CommitInv(s, h, members) && NoStaleSuffix(s.peers[i], m) {
      AcceptCommit(s, h, members, i, m, h');
    }
  }
}
