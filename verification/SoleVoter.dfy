/** A node whose own vote is a majority: what it has committed is what it has acknowledged, and while it
    leads nobody can make it drop an entry. */
module SoleVoter {
  import opened RaftTypes
  import opened Quorum
  import opened LogMerge
  import opened Protocol
  import opened ProtocolSteps
  import opened NodeSpec
  import opened NodeLocal
  import opened Cluster

  /** Node i has acknowledged its log up to x in the term of entry x. */
  predicate AckedAt(h: History, i: NodeId, log: Log, x: nat)
    requires 1 <= x <= |log|
  {
    var a := (i, log[x - 1].term);
    a in h.acks && x <= h.acks[a]
  }

  predicate AckedTo(h: History, i: NodeId, log: Log, index: nat) {
    index == 0 || exists x {:trigger AckedAt(h, i, log, x)} :: 1 <= x <= |log| && index <= x && AckedAt(h, i, log, x)
  }

  lemma OwnQuorum(h: History, members: seq<NodeId>, t: nat, k: nat, i: NodeId)
    requires (i, t) in h.acks && k <= h.acks[(i, t)] && HasQuorum({i}, members)
    ensures HasQuorum(Holders(h, members, t, k), members)
  {
    CountMonotone({i}, Holders(h, members, t, k), members);
  }

  lemma AckedChosen(s: Sys, h: History, members: seq<NodeId>, i: NodeId, x: nat)
    requires Inv(s, h, members) && CommitInv(s, h, members) && i in s.peers && HasQuorum({i}, members)
    requires 1 <= x <= |s.peers[i].log| && AckedAt(h, i, s.peers[i].log, x)
    ensures var log := s.peers[i].log; Chosen(h, members, log[x - 1].term, x) && log[..x] <= h.reigns[log[x - 1].term].log
    ensures s.peers[i].log[x - 1].term <= s.peers[i].term
  {
    var log := s.peers[i].log;
    var t := log[x - 1].term;
    assert PeerOk(h, i, s.peers[i]);
    TracedPrefix(h, members, log, x);
    assert LastTerm(log[..x]) == t && log[..x][x - 1] == log[x - 1];
    OwnQuorum(h, members, t, x, i);
  }

  lemma ChosenAcked(s: Sys, h: History, members: seq<NodeId>, i: NodeId, t: nat, k: nat)
    requires Inv(s, h, members) && CommitInv(s, h, members) && i in s.peers && HasQuorum({i}, members)
    requires Chosen(h, members, t, k)
    ensures var log := s.peers[i].log; h.reigns[t].log[..k] <= log && log[k - 1].term == t && AckedAt(h, i, log, k)
  {
    var log, chosen := s.peers[i].log, h.reigns[t].log[..k];
    var j := QuorumsMeet(Holders(h, members, t, k), {i}, members);
    assert AckOk(s, h, (i, t)) && Keeps(h, t, k, log, s.peers[i].term + 1);
    if !(chosen <= log) {
      var v :| t < v < s.peers[i].term + 1 && Missing(h, t, k, v);
      LeaderCompleteness(s, h, members, t, k, v);
      assert false;
    }
    assert log[k - 1] == chosen[k - 1];
  }

  /** Exactly what such a node has acknowledged in an entry's own term is chosen. */
  lemma SoleChosen(s: Sys, h: History, members: seq<NodeId>, i: NodeId, index: nat, limit: nat)
    requires Inv(s, h, members) && CommitInv(s, h, members) && i in s.peers && HasQuorum({i}, members)
    requires index <= |s.peers[i].log| && s.peers[i].term <= limit
    ensures Committed(h, members, s.peers[i].log[..index], limit) <==> AckedTo(h, i, s.peers[i].log, index)
  {
    var log := s.peers[i].log;
    var kept := log[..index];
    if AckedTo(h, i, log, index) && index > 0 {
      var x :| 1 <= x <= |log| && index <= x && AckedAt(h, i, log, x);
      AckedChosen(s, h, members, i, x);
      hide Chosen, Inv, CommitInv, AckedAt;
      assert kept <= log[..x];
    }
    if Committed(h, members, kept, limit) && index > 0 {
      var t: nat, k: nat :| t <= limit && Chosen(h, members, t, k) && |kept| <= k && kept <= h.reigns[t].log;
      ChosenAcked(s, h, members, i, t, k);
    }
  }

  /** Nothing is chosen in a term such a node has not reached. */
  lemma SoleLimit(s: Sys, h: History, members: seq<NodeId>, i: NodeId, log: Log, limit: nat)
    requires Inv(s, h, members) && CommitInv(s, h, members) && i in s.peers && HasQuorum({i}, members)
    requires Committed(h, members, log, limit)
    ensures Committed(h, members, log, s.peers[i].term)
    ensures Extends(h, h)
  {
    if log != [] {
      var t: nat, k: nat :| t <= limit && Chosen(h, members, t, k) && |log| <= k && log <= h.reigns[t].log;
      var j := QuorumsMeet(Holders(h, members, t, k), {i}, members);
      assert AckOk(s, h, (i, t));
    }
  }

  // ---- The log during a tick ----

  lemma {:induction false} ReceiveAllLog(n: Node, inbox: seq<Message>)
    ensures var n' := ReceiveAll(n, inbox);
            n'.log == n.log && n'.id == n.id && (n.role != Leader ==> n'.role != Leader && n'.commit == n.commit)
    decreases |inbox|
  {
    if inbox != [] {
      ReceiveLog(n, inbox[0]);
      hide Receive;
      ReceiveAllLog(Receive(n, inbox[0]), inbox[1..]);
    }
  }

  lemma ReceiveLog(n: Node, m: Message)
    ensures var n' := Receive(n, m);
            n'.log == n.log && n'.id == n.id && (n.role != Leader ==> n'.role != Leader && n'.commit == n.commit)
  {
    hide RecordReply;
    if m.AppendReply? { RecordReplyLog(AdoptTerm(n, m.term), m); }
  }

  lemma RecordReplyLog(n: Node, m: Message)
    requires m.AppendReply?
    ensures var n' := RecordReply(n, m); n'.log == n.log && n'.id == n.id && (n.role != Leader ==> n' == n)
  {
    hide CommitScan, SendTo;
    if m.source in n.nextIndex {
      SendToLog(n.(nextIndex := n.nextIndex[m.source := BackOff(n.nextIndex[m.source])]), m.source);
    }
  }

  lemma SendToLog(n: Node, peer: NodeId)
    ensures SendTo(n, peer).log == n.log && SendTo(n, peer).id == n.id
  {
    hide AppendMessage;
  }

  lemma AppendLocalLog(n: Node, c: Command)
    ensures n.log <= AppendLocal(n, c).log
  {
    hide CommitScan, AppendMessages;
  }

  lemma {:induction false} AppendAllLog(n: Node, commands: seq<Command>)
    ensures n.log <= AppendAll(n, commands).log
    decreases |commands|
  {
    if commands != [] {
      AppendLocalLog(n, commands[0]);
      hide AppendLocal;
      AppendAllLog(AppendLocal(n, commands[0]), commands[1..]);
    }
  }

  /** Latching only adds to the log, and only a leader's commits. */
  lemma LatchLog(n: Node, inbox: seq<Message>, commands: seq<Command>)
    ensures n.log <= Latch(n, inbox, commands).log
    ensures Latch(n, inbox, commands).commit != n.commit ==> n.role == Leader
  {
    ReceiveAllLog(n, inbox);
    AppendAllLog(ReceiveAll(n, inbox), commands);
    hide ReceiveAll, AppendAll;
  }

  predicate KeptOrTaken(n: Node, n': Node) {
    n'.log == n.log || (n'.role != Leader && n.appends != [] && n.appends[0].term == n'.term)
  }

  /** The role transition keeps the log, or it has taken a message of the term it ends in as a follower. */
  lemma RoleStepLog(n: Node, clock: Clock)
    requires Sorted(n)
    ensures KeptOrTaken(n, RoleStep(n, clock))
  {
    hide TimedOut, ConfigQuorum, BecomeCandidate, BecomeLeader, Broadcast, TakeAppend, TakeVoteRequest, TakeVoteReply, KeptOrTaken;
    StandingLog(n);
    if n.role != Leader && TimedOut(n, clock) {
      SameLog(n, RoleStep(n, clock));
    } else if n.role == Candidate && ConfigQuorum(n.votes, n.config) {
      SameLog(n, RoleStep(n, clock));
    } else if n.appends != [] {
      TakeAppendLog(n);
      assert n.role == Follower ==> n.(role := Follower) == n;
    } else {
      QueueLog(n, clock);
    }
  }

  lemma SameLog(n: Node, n': Node)
    requires n'.log == n.log
    ensures KeptOrTaken(n, n')
  {
  }

  lemma QueueLog(n: Node, clock: Clock)
    requires Sorted(n) && n.appends == [] && (n.role != Leader ==> !TimedOut(n, clock))
    requires n.role == Candidate ==> !ConfigQuorum(n.votes, n.config)
    ensures KeptOrTaken(n, RoleStep(n, clock))
  {
    hide TimedOut, ConfigQuorum, BecomeCandidate, BecomeLeader, Broadcast, TakeAppend, TakeVoteRequest, TakeVoteReply, KeptOrTaken;
    if n.voteRequests != [] {
      TakeVoteRequestLog(n);
      TakeVoteRequestLog(n.(role := Follower));
    } else if n.voteReplies != [] {
      TakeVoteReplyLog(n);
    } else {
      StandingLog(n);
    }
    SameLog(n, RoleStep(n, clock));
  }

  lemma TakeVoteRequestLog(n: Node)
    requires n.voteRequests != [] && n.voteRequests[0].RequestVote?
    ensures TakeVoteRequest(n).log == n.log
  {
    hide Grants;
  }

  lemma TakeVoteReplyLog(n: Node)
    requires n.voteReplies != [] && n.voteReplies[0].VoteReply?
    ensures TakeVoteReply(n).log == n.log
  {
    hide IsVoting;
  }

  lemma StandingLog(n: Node)
    ensures BecomeCandidate(n.(role := Candidate)).log == BecomeLeader(n.(role := Leader)).log == Broadcast(n).log == n.log
  {
    hide BallotRequests, SendAll;
    SendAllLog(n, n.peers);
    var e := Enthroned(n.(role := Leader));
    SendAllLog(e, e.peers);
  }

  lemma SendAllLog(n: Node, peers: seq<NodeId>)
    ensures SendAll(n, peers).log == n.log
  {
    hide AppendMessages;
  }

  lemma TakeAppendLog(n: Node)
    requires n.appends != [] && n.appends[0].AppendEntries?
    ensures KeptOrTaken(n, TakeAppend(n.(role := Follower)))
  {
    hide Merge, NextCommit, AcceptsPrevious;
  }

  lemma MembershipLog(n: Node)
    ensures n.log <= MembershipStep(n).log
    ensures MembershipStep(n).commit != n.commit ==> n.role == Leader
  {
    hide AppendLocal, CaughtUp;
    if n.membership == Stable && HasChangeRequest(n) {
      AppendLocalLog(n.(membership := JointPending, target := Some(n.requested.value), jointIndex := |n.log| + 1, outbox := []),
                     EnterJoint(n.requested.value));
    } else if n.membership == Joint && CanFinalize(n) {
      AppendLocalLog(n.(membership := Finalizing, finalIndex := |n.log| + 1), LeaveJoint(n.target.value));
    } else {
      NoChange(n);
    }
  }

  /** A tick keeps the node's log, unless it took a message of the term it ends in and only latching committed. */
  lemma WorkLog(n: Node, e: Event)
    requires (e.Tick? || e.TornTick?) && Sorted(Latched(n, e))
    ensures var n1, n2, w := Latched(n, e), RoleStep(Latched(n, e), e.clock), Worked(n, e);
            && (n.log <= w.log || (n1.appends != [] && n1.appends[0].term == n2.term && w.commit == n2.commit))
            && (n1.commit != n.commit ==> n.role == Leader)
  {
    hide Latch, RoleStep, MembershipStep, Sorted;
    LatchLog(n, e.inbox, e.commands);
    RoleStepLog(Latched(n, e), e.clock);
    MembershipLog(RoleStep(Latched(n, e), e.clock));
  }

  /** No leader of a later term has been elected without the vote of a node that is a majority. */
  lemma NoLaterReign(s: Sys, h: History, members: seq<NodeId>, i: NodeId, t: nat)
    requires Inv(s, h, members) && i in s.peers && HasQuorum({i}, members) && t in h.reigns
    ensures t <= s.peers[i].term
  {
    assert ReignOk(h, members, t);
    var j := QuorumsMeet({i}, h.reigns[t].votes, members);
    assert CastFor(h, i, t, h.reigns[t].leader) && Promised(s, h, (i, t));
  }
}
