/** A save torn between its two files keeps the new commit index with the old log. What a tick commits
    is already chosen by what was durable and sent before the tick, unless the node commits alone. */
module TornSaves {
  import opened RaftTypes
  import opened Quorum
  import opened LogMerge
  import opened Protocol
  import opened ProtocolSteps
  import opened ProtocolAccept
  import opened NodeSpec
  import opened NodeLocal
  import opened Refinement
  import opened TickRefinement

  /** The node's commit index is chosen in the history before the tick, and so is all it may count on. */
  ghost predicate Backed(h: History, members: seq<NodeId>, n: Node) {
    && n.commit <= |n.log| && Committed(h, members, n.log[..n.commit], n.term)
    && (n.role == Leader ==>
          && (n.term in h.reigns ==>
                && h.reigns[n.term].log <= n.log
                && (n.id, n.term) in h.acks && h.acks[(n.id, n.term)] == |h.reigns[n.term].log|)
          && forall j :: j in n.matchIndex && j != n.id && n.matchIndex[j] > 0 ==>
               (j, n.term) in h.acks && n.matchIndex[j] <= h.acks[(j, n.term)])
  }

  /** The state before the tick. */
  ghost predicate AtStart(s: Sys, h: History, members: seq<NodeId>, i: NodeId) {
    Inv(s, h, members) && CommitInv(s, h, members) && i in s.peers
  }

  /** From n to n' the node has committed nothing that only it may hold: it is not all its configuration's
      quorums need, or its commit index is where it was. */
  predicate Aided(n: Node, n': Node) {
    !ConfigQuorum({n.id}, n.config) || n'.commit == n.commit
  }

  lemma StartBacked(s: Sys, h: History, members: seq<NodeId>, n: Node)
    requires AtStart(s, h, members, n.id) && Sim(s, n.id, n)
    ensures Backed(h, members, n)
  {
    assert PeerOk(h, n.id, s.peers[n.id]) && PeerCommitOk(h, members, n.id, s.peers[n.id]);
  }

  /** Only these fields matter. */
  lemma SameBacked(h: History, members: seq<NodeId>, n: Node, n': Node)
    requires Backed(h, members, n)
    requires n'.id == n.id && n'.log == n.log && n'.commit == n.commit && n'.term == n.term && n'.role == n.role
    requires n'.matchIndex == n.matchIndex
    ensures Backed(h, members, n')
  {
  }

  lemma RetreatBacked(h: History, members: seq<NodeId>, n: Node, n': Node)
    requires Backed(h, members, n)
    requires n'.log == n.log && n'.commit == n.commit && n.term <= n'.term && n'.role != Leader
    ensures Backed(h, members, n')
  {
    CommittedStable(h, h, members, n.log[..n.commit], n.term, n'.term);
  }

  /** A majority that counts this node counts another one too. */
  lemma {:induction false} AnotherHolder(held: set<NodeId>, i: NodeId, members: seq<NodeId>) returns (j: NodeId)
    requires HasQuorum(held, members) && !HasQuorum({i}, members)
    ensures j in held && j in members && j != i
  {
    if forall x :: x in members && x in held ==> x == i {
      CountMonotone(held, {i}, members);
      assert false;
    }
    j :| j in members && j in held && j != i;
  }

  lemma AdvanceBacked(s: Sys, h: History, members: seq<NodeId>, n: Node)
    requires AtStart(s, h, members, n.id) && Backed(h, members, n) && n.role == Leader && n.config.current == members
    requires Aided(n, AdvanceCommit(n))
    ensures Backed(h, members, AdvanceCommit(n))
  {
    var c := CommitScan(n, |n.log|);
    if c != n.commit {
      var j := AnotherHolder(HeldBy(n, c), n.id, if HasQuorum({n.id}, members) then n.config.joint.value else members);
      assert AckOk(s, h, (j, n.term));
      assert n.log[..c] == h.reigns[n.term].log[..c];
      CountMonotone(HeldBy(n, c), Holders(h, members, n.term, c), members);
      assert Chosen(h, members, n.term, c);
    }
  }

  lemma SendAllBacked(h: History, members: seq<NodeId>, n: Node, peers: seq<NodeId>)
    requires Backed(h, members, n)
    ensures Backed(h, members, SendAll(n, peers))
  {
    SameBacked(h, members, n, SendAll(n, peers));
  }

  lemma AppendLocalBacked(s: Sys, h: History, members: seq<NodeId>, n: Node, c: Command)
    requires AtStart(s, h, members, n.id) && Backed(h, members, n) && n.role == Leader && n.config.current == members
    requires Aided(n, AppendLocal(n, c))
    ensures Backed(h, members, AppendLocal(n, c))
  {
    var n1 := Appended(n, c);
    assert n1.log[..n.commit] == n.log[..n.commit];
    AdvanceBacked(s, h, members, n1);
    SendAllBacked(h, members, AdvanceCommit(n1), AdvanceCommit(n1).peers);
  }

  /** Before the dump a leader's scan only raises the commit index. */
  lemma AppendLocalRaises(n: Node, c: Command)
    ensures AppendLocal(n, c).commit >= n.commit && AppendLocal(n, c).id == n.id && AppendLocal(n, c).config == n.config
  {
    hide AppendMessages;
  }

  lemma {:induction false} AppendAllRaises(n: Node, commands: seq<Command>)
    ensures AppendAll(n, commands).commit >= n.commit
    decreases |commands|
  {
    if commands != [] {
      AppendLocalRaises(n, commands[0]);
      AppendAllRaises(AppendLocal(n, commands[0]), commands[1..]);
    }
  }

  lemma RecordRaises(n: Node, m: Message)
    requires m.AppendReply?
    ensures RecordReply(n, m).commit >= n.commit
  {
    hide AppendMessage;
  }

  lemma ReceiveRaises(n: Node, m: Message)
    ensures Receive(n, m).commit >= n.commit && Receive(n, m).id == n.id && Receive(n, m).config == n.config
  {
    ReceiveRoutine(n, m);
    if m.AppendReply? { RecordRaises(AdoptTerm(n, m.term), m); }
    hide RecordReply;
  }

  lemma {:induction false} ReceiveAllRaises(n: Node, inbox: seq<Message>)
    ensures ReceiveAll(n, inbox).commit >= n.commit && ReceiveAll(n, inbox).id == n.id && ReceiveAll(n, inbox).config == n.config
    decreases |inbox|
  {
    if inbox != [] {
      ReceiveRaises(n, inbox[0]);
      ReceiveAllRaises(Receive(n, inbox[0]), inbox[1..]);
    }
  }

  lemma AckBacked(s: Sys, h: History, members: seq<NodeId>, n: Node, m: Message, n': Node)
    requires AtStart(s, h, members, n.id) && Backed(h, members, n) && n.role == Leader
    requires m in s.net && m.AppendReply? && m.term == n.term && m.success
    requires n' == n.(matchIndex := n.matchIndex[m.source := m.matchIndex], nextIndex := n'.nextIndex)
    ensures Backed(h, members, n')
  {
    assert MessageCommitOk(h, members, m);
  }

  lemma SendOneBacked(h: History, members: seq<NodeId>, n: Node, n': Node, peer: NodeId)
    requires Backed(h, members, n) && n' == n.(nextIndex := n'.nextIndex)
    ensures Backed(h, members, SendTo(n', peer))
  {
    SameBacked(h, members, n, SendTo(n', peer));
  }

  lemma RecordReplyBacked(s: Sys, h: History, members: seq<NodeId>, n: Node, m: Message)
    requires AtStart(s, h, members, n.id) && Backed(h, members, n) && n.config.current == members
    requires m in s.net && m.AppendReply? && Aided(n, RecordReply(n, m))
    ensures Backed(h, members, RecordReply(n, m))
  {
    hide AtStart, Backed, AdvanceCommit, SendTo;
    if n.role == Leader && m.term == n.term {
      if m.success {
        var n1 := n.(matchIndex := n.matchIndex[m.source := m.matchIndex], nextIndex := n.nextIndex[m.source := m.matchIndex + 1]);
        AckBacked(s, h, members, n, m, n1);
        AdvanceBacked(s, h, members, n1);
      } else if m.source in n.nextIndex {
        var n1 := n.(nextIndex := n.nextIndex[m.source := BackOff(n.nextIndex[m.source])]);
        SendOneBacked(h, members, n, n1, m.source);
      } else {
        SameBacked(h, members, n, RecordReply(n, m));
      }
    }
  }

  lemma ReceiveBacked(s: Sys, h: History, members: seq<NodeId>, n: Node, m: Message)
    requires AtStart(s, h, members, n.id) && Backed(h, members, n) && n.config.current == members && m in s.net
    requires Aided(n, Receive(n, m))
    ensures Backed(h, members, Receive(n, m))
  {
    if m.AppendReply? {
      var n1 := AdoptTerm(n, m.term);
      if m.term > n.term { RetreatBacked(h, members, n, n1); }
      RecordReplyBacked(s, h, members, n1, m);
    }
  }

  lemma {:induction false} ReceiveAllBacked(s: Sys, h: History, members: seq<NodeId>, n: Node, inbox: seq<Message>)
    requires AtStart(s, h, members, n.id) && Backed(h, members, n) && n.config.current == members
    requires (forall m :: m in inbox ==> m in s.net) && Aided(n, ReceiveAll(n, inbox))
    ensures Backed(h, members, ReceiveAll(n, inbox))
    decreases |inbox|
  {
    if inbox != [] {
      var n1 := Receive(n, inbox[0]);
      ReceiveRaises(n, inbox[0]);
      ReceiveAllRaises(n1, inbox[1..]);
      hide Receive, Backed, AtStart, ConfigQuorum;
      ReceiveBacked(s, h, members, n, inbox[0]);
      ReceiveAllBacked(s, h, members, n1, inbox[1..]);
    }
  }

  lemma {:induction false} AppendAllBacked(s: Sys, h: History, members: seq<NodeId>, n: Node, commands: seq<Command>)
    requires AtStart(s, h, members, n.id) && Backed(h, members, n) && n.role == Leader && n.config.current == members
    requires Aided(n, AppendAll(n, commands))
    ensures Backed(h, members, AppendAll(n, commands))
    decreases |commands|
  {
    if commands != [] {
      var n1 := AppendLocal(n, commands[0]);
      AppendLocalRaises(n, commands[0]);
      AppendAllRaises(n1, commands[1..]);
      AppendLocalRoutine(n, commands[0]);
      hide AppendLocal, Backed, AtStart, ConfigQuorum, Routine;
      AppendLocalBacked(s, h, members, n, commands[0]);
      AppendAllBacked(s, h, members, n1, commands[1..]);
    }
  }

  lemma LatchBacked(s: Sys, h: History, members: seq<NodeId>, n: Node, inbox: seq<Message>, commands: seq<Command>)
    requires AtStart(s, h, members, n.id) && Backed(h, members, n) && n.config.current == members
    requires (forall m :: m in inbox ==> m in s.net) && Aided(n, Latch(n, inbox, commands))
    ensures Backed(h, members, Latch(n, inbox, commands))
  {
    var n1 := ReceiveAll(n, inbox);
    ReceiveAllRaises(n, inbox);
    AppendAllRaises(n1, commands);
    hide ReceiveAll, AppendAll, Backed, AtStart, ConfigQuorum;
    ReceiveAllBacked(s, h, members, n, inbox);
    if n1.role == Leader { AppendAllBacked(s, h, members, n1, commands); }
  }

  // ---- Role transition: from the state (s1, h1) the latch led to ----

  /** From (s, h) the system has come to (s1, h1). */
  ghost predicate Since(s: Sys, h: History, s1: Sys, h1: History, members: seq<NodeId>) {
    Inv(s1, h1, members) && Extends(h, h1) && s.net <= s1.net
  }

  /** What an accepted message leaves committed is what its sender had, or what the node had. */
  lemma AcceptedCommit(s: Sys, h: History, members: seq<NodeId>, n: Node, m: Message)
    requires Inv(s, h, members) && CommitInv(s, h, members) && Sim(s, n.id, n) && n.role == Follower
    requires m in s.net && m.AppendEntries? && m.term == n.term && AcceptsPrevious(n, m)
    ensures m.term in h.reigns && m.leaderCommit <= |h.reigns[m.term].log| && n.commit <= |n.log|
    ensures var w := AppendFromLeader(n, m);
            && w.commit <= |w.log| && w.term == n.term && w.role == Follower
            && w.log[..w.commit] == if m.leaderCommit > n.commit then h.reigns[m.term].log[..m.leaderCommit] else n.log[..n.commit]
  {
    assert MessageOk(h, m) && MessageCommitOk(h, members, m);
    var p := s.peers[n.id];
    assert PeerOf(AppendFromLeader(n, m)) == Accepting(p, m);
    AcceptShape(s, h, members, n.id, m);
    AcceptCommitted(s, h, members, n.id, m);
    hide Inv, CommitInv, Merge, AppendFromLeader;
  }

  lemma AcceptBacked(s: Sys, h: History, s1: Sys, h1: History, members: seq<NodeId>, n: Node, m: Message)
    requires AtStart(s, h, members, n.id) && Backed(h, members, n) && n.role == Follower
    requires Since(s, h, s1, h1, members) && CommitInv(s1, h1, members) && Sim(s1, n.id, n)
    requires m in s.net && m.AppendEntries? && m.term == n.term && AcceptsPrevious(n, m)
    ensures Backed(h, members, AppendFromLeader(n, m))
  {
    hide CommitInv, Inv, Sim, AppendFromLeader, AcceptsPrevious, Committed;
    AcceptedCommit(s1, h1, members, n, m);
    SentCommitted(s, h, h1, members, m);
  }

  lemma SentCommitted(s: Sys, h: History, h1: History, members: seq<NodeId>, m: Message)
    requires Inv(s, h, members) && CommitInv(s, h, members) && Extends(h, h1) && m in s.net && m.AppendEntries?
    ensures m.term in h.reigns && m.leaderCommit <= |h.reigns[m.term].log|
    ensures m.term in h1.reigns && h1.reigns[m.term].log[..m.leaderCommit] == h.reigns[m.term].log[..m.leaderCommit]
    ensures Committed(h, members, h.reigns[m.term].log[..m.leaderCommit], m.term)
  {
    assert MessageOk(h, m) && MessageCommitOk(h, members, m) && SameReign(h.reigns[m.term], h1.reigns[m.term]);
  }

  lemma AnswerBacked(s: Sys, h: History, s1: Sys, h1: History, members: seq<NodeId>, n: Node, m: Message)
    requires AtStart(s, h, members, n.id) && Backed(h, members, n) && n.role == Follower
    requires Since(s, h, s1, h1, members) && CommitInv(s1, h1, members) && Sim(s1, n.id, n)
    requires m in s.net && m.AppendEntries?
    ensures Backed(h, members, AnswerAppend(n, m))
  {
    var n1 := if m.term == n.term then n.(leader := Some(m.source)) else n;
    SameBacked(h, members, n, n1);
    if m.term == n.term && AcceptsPrevious(n1, m) {
      AcceptBacked(s, h, s1, h1, members, n1, m);
      SameBacked(h, members, AppendFromLeader(n1, m), AnswerAppend(n, m));
    } else {
      SameBacked(h, members, n1, AnswerAppend(n, m));
    }
  }

  lemma TakeAppendBacked(s: Sys, h: History, s1: Sys, h1: History, members: seq<NodeId>, n: Node)
    requires AtStart(s, h, members, n.id) && Backed(h, members, n) && n.role == Follower
    requires Since(s, h, s1, h1, members) && CommitInv(s1, h1, members) && Sim(s1, n.id, n)
    requires n.appends != [] && n.appends[0] in s.net
    ensures Backed(h, members, TakeAppend(n))
  {
    hide Inv, CommitInv, Backed, AnswerAppend;
    var m := n.appends[0];
    var n0 := n.(appends := n.appends[1..]);
    var n1 := AdoptTerm(n0, m.term);
    RetreatBacked(h, members, n, n1);
    var s2 := AdoptTermSim(s1, h1, members, n.id, n0, m.term);
    AnswerBacked(s, h, s2, h1, members, n1, m);
  }

  lemma LeaderBacked(s: Sys, h: History, s1: Sys, h1: History, members: seq<NodeId>, n: Node)
    requires AtStart(s, h, members, n.id) && Backed(h, members, n) && n.role == Candidate
    requires Since(s, h, s1, h1, members) && Sim(s1, n.id, n) && HasQuorum(n.votes, members)
    ensures Backed(h, members, BecomeLeader(n.(role := Leader)))
  {
    NoOtherReign(s1, h1, members, n.id);
    var n1 := n.(role := Leader, leader := Some(n.id), nextIndex := map p | p in n.peers :: |n.log| + 1,
                 matchIndex := (map p | p in n.peers :: 0)[n.id := |n.log|]);
    SendAllBacked(h, members, n1, n1.peers);
  }

  lemma VoteRequestBacked(h: History, members: seq<NodeId>, n: Node, m: Message)
    requires Backed(h, members, n) && m.RequestVote? && (m.term <= n.term || n.role != Leader)
    ensures Backed(h, members, HandleRequestVote(n, m))
  {
    hide IsVoting, UpToDate, Backed;
    var n1 := AdoptTerm(n, m.term);
    if m.term > n.term { RetreatBacked(h, members, n, n1); }
    SameBacked(h, members, n1, HandleRequestVote(n, m));
  }

  lemma VoteReplyBacked(h: History, members: seq<NodeId>, n: Node, m: Message)
    requires Backed(h, members, n) && m.VoteReply? && n.role != Leader
    ensures Backed(h, members, HandleVoteReply(n, m))
  {
    hide IsVoting, Backed;
    RetreatBacked(h, members, n, HandleVoteReply(n, m));
  }

  lemma DemotedAppendBacked(s: Sys, h: History, s1: Sys, h1: History, members: seq<NodeId>, n: Node)
    requires AtStart(s, h, members, n.id) && Backed(h, members, n)
    requires Since(s, h, s1, h1, members) && CommitInv(s1, h1, members) && Sim(s1, n.id, n)
    requires n.appends != [] && n.appends[0] in s.net
    ensures Backed(h, members, TakeAppend(n.(role := Follower)))
  {
    var f := n.(role := Follower);
    var s2 := DemoteSim(s1, h1, members, n.id, n, f);
    RetreatBacked(h, members, n, f);
    TakeAppendBacked(s, h, s2, h1, members, f);
  }

  lemma TimedOutBacked(h: History, members: seq<NodeId>, n: Node, clock: Clock)
    requires Backed(h, members, n) && Sorted(n) && TimedOut(n, clock) && n.role != Leader
    ensures Backed(h, members, RoleStep(n, clock))
  {
    hide Backed, TimedOut, Sorted, TakeAppend, TakeVoteRequest, TakeVoteReply, BecomeLeader, BallotRequests, ConfigQuorum;
    RetreatBacked(h, members, n, RoleStep(n, clock));
  }

  lemma RoleStepBacked(s: Sys, h: History, s1: Sys, h1: History, members: seq<NodeId>, n: Node, clock: Clock)
    requires AtStart(s, h, members, n.id) && Backed(h, members, n) && n.config.current == members
    requires Since(s, h, s1, h1, members) && CommitInv(s1, h1, members) && Sim(s1, n.id, n)
    requires forall m :: m in n.appends ==> m in s.net
    ensures Backed(h, members, RoleStep(n, clock))
  {
    assert Sorted(n);
    hide Backed, AtStart, Inv, CommitInv, Since, Sim, TimedOut, BecomeLeader, TakeAppend, TakeVoteRequest, BecomeCandidate, Sorted;
    if TimedOut(n, clock) && n.role != Leader {
      TimedOutBacked(h, members, n, clock);
    } else if n.role == Candidate && ConfigQuorum(n.votes, n.config) {
      LeaderBacked(s, h, s1, h1, members, n);
    } else if n.appends != [] {
      DemotedAppendBacked(s, h, s1, h1, members, n);
      assert n.role == Follower ==> n.(role := Follower) == n;
    } else {
      QuietStepBacked(h, members, n, clock);
    }
  }

  lemma TakeVoteRequestBacked(h: History, members: seq<NodeId>, n: Node, n': Node)
    requires Backed(h, members, n) && Sorted(n) && n.voteRequests != []
    requires n' == if n.role != Follower && n.voteRequests[0].term > n.term then n.(role := Follower) else n
    ensures Backed(h, members, TakeVoteRequest(n'))
  {
    var n1 := n'.(voteRequests := n'.voteRequests[1..]);
    if n'.role == n.role {
      SameBacked(h, members, n, n1);
    } else {
      RetreatBacked(h, members, n, n1);
    }
    VoteRequestBacked(h, members, n1, n.voteRequests[0]);
  }

  lemma QuietStepBacked(h: History, members: seq<NodeId>, n: Node, clock: Clock)
    requires Backed(h, members, n) && Sorted(n) && n.appends == []
    requires n.role != Leader ==> !TimedOut(n, clock)
    requires n.role == Candidate ==> !ConfigQuorum(n.votes, n.config)
    ensures Backed(h, members, RoleStep(n, clock))
  {
    if n.voteRequests != [] {
      TakeVoteRequestBacked(h, members, n, if n.role != Follower && n.voteRequests[0].term > n.term then n.(role := Follower) else n);
    } else if n.voteReplies != [] {
      var n1 := n.(voteReplies := n.voteReplies[1..]);
      SameBacked(h, members, n, n1);
      if n.role == Candidate { VoteReplyBacked(h, members, n1, n.voteReplies[0]); }
    } else {
      SendAllBacked(h, members, n, n.peers);
    }
  }

  lemma MembershipStepBacked(s: Sys, h: History, members: seq<NodeId>, n: Node)
    requires AtStart(s, h, members, n.id) && Backed(h, members, n) && n.config.current == members
    requires Aided(n, MembershipStep(n))
    ensures Backed(h, members, MembershipStep(n))
  {
    hide AtStart, CaughtUp, Backed, AppendLocal, ConfigQuorum;
    if n.membership == Stable && HasChangeRequest(n) {
      var target := n.requested.value;
      var n1 := n.(membership := JointPending, target := Some(target), jointIndex := |n.log| + 1, outbox := []);
      SameBacked(h, members, n, n1);
      AppendLocalBacked(s, h, members, n1, EnterJoint(target));
    } else if n.membership == Joint && CanFinalize(n) {
      var n1 := n.(membership := Finalizing, finalIndex := |n.log| + 1);
      SameBacked(h, members, n, n1);
      AppendLocalBacked(s, h, members, n1, LeaveJoint(n.target.value));
    } else {
      NoChange(n);
      SameBacked(h, members, n, MembershipStep(n));
    }
  }
}
