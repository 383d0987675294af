/** The phases of a tick are sequences of protocol actions. */
module TickRefinement {
  import opened RaftTypes
  import opened LogMerge
  import opened Protocol
  import opened ProtocolSteps
  import opened NodeSpec
  import opened NodeLocal
  import opened Refinement
  import opened Members

  lemma ReceiveSim(s: Sys, h: History, members: seq<NodeId>, i: NodeId, n: Node, m: Message) returns (s': Sys)
    requires Inv(s, h, members) && Sim(s, i, n) && n.config.current == members
    requires m in s.net && m.target == i && !Receive(n, m).fault
    ensures Reaches(s, h, s', h, members, i) && Sim(s', i, Receive(n, m))
    ensures CommitInv(s, h, members) ==> CommitInv(s', h, members)
  {
    if m.AppendReply? {
      s' := AppendReplySim(s, h, members, i, n, m);
    } else {
      s' := s;
    }
  }

  lemma {:induction false} ReceiveAllSim(s: Sys, h: History, members: seq<NodeId>, i: NodeId, n: Node, inbox: seq<Message>) returns (s': Sys)
    requires Inv(s, h, members) && Sim(s, i, n) && n.config.current == members
    requires Deliverable(s, i, inbox) && !ReceiveAll(n, inbox).fault
    ensures Reaches(s, h, s', h, members, i) && Sim(s', i, ReceiveAll(n, inbox))
    ensures CommitInv(s, h, members) ==> CommitInv(s', h, members)
    decreases |inbox|
  {
    s' := s;
    if inbox != [] {
      var n1 := Receive(n, inbox[0]);
      ReceiveRoutine(n, inbox[0]);
      ReceiveAllRoutine(n1, inbox[1..]);
      var s1 := ReceiveSim(s, h, members, i, n, inbox[0]);
      s' := ReceiveAllSim(s1, h, members, i, n1, inbox[1..]);
      ReachesTransitive(s, h, s1, h, s', h, members, i);
    }
  }

  lemma {:induction false} AppendAllSim(s: Sys, h: History, members: seq<NodeId>, i: NodeId, n: Node, commands: seq<Command>) returns (s': Sys, h': History)
    requires Inv(s, h, members) && Sim(s, i, n) && n.config.current == members && n.role == Leader
    requires !AppendAll(n, commands).fault
    ensures Reaches(s, h, s', h', members, i) && Sim(s', i, AppendAll(n, commands)) && s'.peers[i].role == Leader
    ensures CommitInv(s, h, members) ==> CommitInv(s', h', members)
    decreases |commands|
  {
    s', h' := s, h;
    if commands != [] {
      var n1 := AppendLocal(n, commands[0]);
      AppendLocalRoutine(n, commands[0]);
      AppendAllRoutine(n1, commands[1..]);
      var s1, h1 := AppendLocalSim(s, h, members, i, n, commands[0]);
      s', h' := AppendAllSim(s1, h1, members, i, n1, commands[1..]);
      ReachesTransitive(s, h, s1, h1, s', h', members, i);
    }
  }

  lemma LatchSim(s: Sys, h: History, members: seq<NodeId>, i: NodeId, n: Node, inbox: seq<Message>, commands: seq<Command>)
    returns (s': Sys, h': History)
    requires Inv(s, h, members) && Sim(s, i, n) && n.config.current == members
    requires Deliverable(s, i, inbox) && !Latch(n, inbox, commands).fault
    ensures Reaches(s, h, s', h', members, i) && Sim(s', i, Latch(n, inbox, commands)) && (h' == h || s'.peers[i].role == Leader)
    ensures CommitInv(s, h, members) ==> CommitInv(s', h', members)
  {
    var n1 := ReceiveAll(n, inbox);
    ReceiveAllRoutine(n, inbox);
    AppendAllRoutine(n1, commands);
    s' := ReceiveAllSim(s, h, members, i, n, inbox);
    h' := h;
    if n1.role == Leader {
      var s1 := s';
      s', h' := AppendAllSim(s1, h, members, i, n1, commands);
      ReachesTransitive(s, h, s1, h, s', h', members, i);
    }
  }

  /** If the role transition answers an AppendEntries message, it answers honestly. */
  predicate HonestStep(n: Node)
    requires Sorted(n)
  {
    n.appends != [] && !(n.role == Candidate && ConfigQuorum(n.votes, n.config)) ==> Honest(n, n.appends[0])
  }

  /** Dropping the head of a queue or the role changes nothing but the role. */
  lemma DemoteSim(s: Sys, h: History, members: seq<NodeId>, i: NodeId, n: Node, n': Node) returns (s': Sys)
    requires Inv(s, h, members) && Sim(s, i, n)
    requires n' == n.(role := Follower, votes := n'.votes, leader := n'.leader)
    ensures Reaches(s, h, s', h, members, i) && Sim(s', i, n')
    ensures CommitInv(s, h, members) ==> CommitInv(s', h, members)
  {
    s' := RetreatSim(s, h, members, i, n, n', {});
  }

  lemma TakeAppendSim(s: Sys, h: History, members: seq<NodeId>, i: NodeId, n: Node) returns (s': Sys, h': History)
    requires Inv(s, h, members) && Sim(s, i, n) && n.appends != []
    ensures Reaches(s, h, s', h', members, i) && Sim(s', i, TakeAppend(n.(role := Follower)))
    ensures CommitInv(s, h, members) && Honest(n, n.appends[0]) ==> CommitInv(s', h', members)
  {
    var m := n.appends[0];
    var s1 := DemoteSim(s, h, members, i, n, n.(role := Follower));
    var n1 := n.(role := Follower, appends := n.appends[1..]);
    assert Honest(n, m) ==> Honest(n1, m) by {
      HonestLocal(n, n1, m);
    }
    s', h' := AppendEntriesSim(s1, h, members, i, n1, m);
    ReachesTransitive(s, h, s1, h, s', h', members, i);
  }

  lemma HonestLocal(n: Node, n': Node, m: Message)
    requires m.AppendEntries? && n' == n.(role := n'.role, appends := n'.appends)
    ensures Honest(n, m) ==> Honest(n', m)
  {
    hide Merge, NextCommit, NoOlderBeyond, AcceptsPrevious;
    var n1, n1' := AdoptTerm(n, m.term), AdoptTerm(n', m.term);
    SamePrevious(n1, n1', m);
    if m.term == n1.term && AcceptsPrevious(n1, m) {
      assert AppendFromLeader(n1, m).log == AppendFromLeader(n1', m).log;
    }
  }

  lemma SamePrevious(n: Node, n': Node, m: Message)
    requires m.AppendEntries? && n'.log == n.log
    ensures AcceptsPrevious(n', m) <==> AcceptsPrevious(n, m)
  {
  }

  lemma TakeVoteRequestSim(s: Sys, h: History, members: seq<NodeId>, i: NodeId, n: Node) returns (s': Sys, h': History)
    requires Inv(s, h, members) && Sim(s, i, n) && n.voteRequests != []
    ensures Reaches(s, h, s', h', members, i) && Sim(s', i, TakeVoteRequest(n))
    ensures CommitInv(s, h, members) ==> CommitInv(s', h', members)
  {
    s', h' := RequestVoteSim(s, h, members, i, n.(voteRequests := n.voteRequests[1..]), n.voteRequests[0]);
  }

  /** A request of a later term demotes first. */
  lemma DemotedVoteRequestSim(s: Sys, h: History, members: seq<NodeId>, i: NodeId, n: Node) returns (s': Sys, h': History)
    requires Inv(s, h, members) && Sim(s, i, n) && n.voteRequests != []
    ensures Reaches(s, h, s', h', members, i)
    ensures Sim(s', i, TakeVoteRequest(if n.voteRequests[0].term > n.term then n.(role := Follower) else n))
    ensures CommitInv(s, h, members) ==> CommitInv(s', h', members)
  {
    if n.voteRequests[0].term > n.term {
      var n1 := n.(role := Follower);
      var s1 := DemoteSim(s, h, members, i, n, n1);
      s', h' := TakeVoteRequestSim(s1, h, members, i, n1);
      ReachesTransitive(s, h, s1, h, s', h', members, i);
    } else {
      s', h' := TakeVoteRequestSim(s, h, members, i, n);
    }
  }

  lemma SimHere(s: Sys, h: History, members: seq<NodeId>, i: NodeId, n: Node)
    requires Inv(s, h, members) && Sim(s, i, n)
    ensures Sorted(n) && Reaches(s, h, s, h, members, i)
    ensures n.voteReplies != [] ==> Sim(s, i, n.(voteReplies := n.voteReplies[1..]))
  {
    hide Inv, Common;
    SamePeerRetains(h, s.peers[i]);
  }

  lemma FollowerSim(s: Sys, h: History, members: seq<NodeId>, i: NodeId, n: Node, clock: Clock) returns (s': Sys, h': History)
    requires Inv(s, h, members) && Sim(s, i, n) && n.role == Follower
    ensures Reaches(s, h, s', h', members, i) && Sim(s', i, RoleStep(n, clock))
    ensures CommitInv(s, h, members) && HonestStep(n) ==> CommitInv(s', h', members)
  {
    hide Inv, CommitInv, IsVoting, Reaches, Sim, Honest, BecomeCandidate, TakeAppend, TakeVoteRequest;
    SimHere(s, h, members, i, n);
    if TimedOut(n, clock) {
      s', h' := CandidateSim(s, h, members, i, n);
    } else if n.appends != [] {
      assert n.(role := Follower) == n;
      s', h' := TakeAppendSim(s, h, members, i, n);
    } else if n.voteRequests != [] {
      s', h' := TakeVoteRequestSim(s, h, members, i, n);
    } else {
      s', h' := s, h;
    }
  }

  lemma CandidateStepSim(s: Sys, h: History, members: seq<NodeId>, i: NodeId, n: Node, clock: Clock) returns (s': Sys, h': History)
    requires Inv(s, h, members) && Sim(s, i, n) && n.role == Candidate && n.config.current == members
    requires !RoleStep(n, clock).fault
    ensures Reaches(s, h, s', h', members, i) && Sim(s', i, RoleStep(n, clock))
    ensures CommitInv(s, h, members) && HonestStep(n) ==> CommitInv(s', h', members)
  {
    hide Inv, CommitInv, IsVoting;
    h' := h;
    if TimedOut(n, clock) {
      s' := DemoteSim(s, h, members, i, n, n.(role := Follower, votes := {}, leader := None));
    } else if ConfigQuorum(n.votes, n.config) {
      s', h' := LeaderSim(s, h, members, i, n);
    } else if n.appends != [] {
      s', h' := TakeAppendSim(s, h, members, i, n);
    } else if n.voteRequests != [] {
      s', h' := DemotedVoteRequestSim(s, h, members, i, n);
    } else if n.voteReplies != [] {
      s' := VoteReplySim(s, h, members, i, n.(voteReplies := n.voteReplies[1..]), n.voteReplies[0]);
    } else {
      s' := s;
    }
  }

  lemma LeaderStepSim(s: Sys, h: History, members: seq<NodeId>, i: NodeId, n: Node, clock: Clock) returns (s': Sys, h': History)
    requires Inv(s, h, members) && Sim(s, i, n) && n.role == Leader && n.config.current == members
    requires !RoleStep(n, clock).fault
    ensures Reaches(s, h, s', h', members, i) && Sim(s', i, RoleStep(n, clock))
    ensures CommitInv(s, h, members) && HonestStep(n) ==> CommitInv(s', h', members)
  {
    h' := h;
    if n.appends != [] {
      s', h' := TakeAppendSim(s, h, members, i, n);
    } else if n.voteRequests != [] {
      s', h' := DemotedVoteRequestSim(s, h, members, i, n);
    } else if n.voteReplies != [] {
      s' := s;
    } else if clock.heartbeatDue {
      s' := SendAllSim(s, h, members, i, n, n.peers);
    } else {
      s' := s;
    }
  }

  lemma RoleStepSim(s: Sys, h: History, members: seq<NodeId>, i: NodeId, n: Node, clock: Clock) returns (s': Sys, h': History)
    requires Inv(s, h, members) && Sim(s, i, n) && n.config.current == members
    requires !RoleStep(n, clock).fault
    ensures Reaches(s, h, s', h', members, i) && Sim(s', i, RoleStep(n, clock))
    ensures CommitInv(s, h, members) && HonestStep(n) ==> CommitInv(s', h', members)
  {
    match n.role
    case Follower => s', h' := FollowerSim(s, h, members, i, n, clock);
    case Candidate => s', h' := CandidateStepSim(s, h, members, i, n, clock);
    case Leader => s', h' := LeaderStepSim(s, h, members, i, n, clock);
  }

  lemma MembershipStepSim(s: Sys, h: History, members: seq<NodeId>, i: NodeId, n: Node) returns (s': Sys, h': History)
    requires Inv(s, h, members) && Sim(s, i, n) && n.config.current == members
    requires !MembershipStep(n).fault
    ensures Reaches(s, h, s', h', members, i) && Sim(s', i, MembershipStep(n))
    ensures CommitInv(s, h, members) ==> CommitInv(s', h', members)
  {
    hide Inv, CommitInv, CaughtUp, AppendLocal;
    if n.membership == Stable && HasChangeRequest(n) {
      var members' := n.requested.value;
      var n1 := n.(membership := JointPending, target := Some(members'), jointIndex := |n.log| + 1, outbox := []);
      s', h' := AppendLocalSim(s, h, members, i, n1, EnterJoint(members'));
    } else if n.membership == Joint && CanFinalize(n) {
      s', h' := AppendLocalSim(s, h, members, i, n.(membership := Finalizing, finalIndex := |n.log| + 1), LeaveJoint(n.target.value));
    } else {
      s', h' := s, h;
    }
  }

  // ---- Dump ----

  /** Applying touches no durable state; it may forget peers, and a node applying its own removal halts. */
  predicate Applied(n: Node, n': Node) {
    && n'.id == n.id && SameDurable(n, n') && n'.fault == n.fault
    && (forall j :: j in n'.matchIndex && n'.matchIndex[j] > 0 ==> j in n.matchIndex && n'.matchIndex[j] == n.matchIndex[j])
    && ((n'.running == n.running && n'.role == n.role && n'.votes == n.votes && n'.outbox == n.outbox
         && n'.appends == n.appends && n'.voteRequests == n.voteRequests && n'.voteReplies == n.voteReplies)
        || (!n'.running && n'.role == Follower && n'.votes == {} && n'.outbox == []
            && n'.appends == [] && n'.voteRequests == [] && n'.voteReplies == []))
  }

  lemma RefreshFacts(n: Node)
    ensures var n' := RefreshPeers(n);
            && n' == n.(peers := n'.peers, nextIndex := n'.nextIndex, matchIndex := n'.matchIndex)
            && forall j :: j in n'.matchIndex && n'.matchIndex[j] > 0 ==> j in n.matchIndex && n'.matchIndex[j] == n.matchIndex[j]
  {
  }

  lemma EnterFacts(n: Node, c: Command)
    requires c.EnterJoint?
    ensures Applied(n, ApplyCommand(n, c)) && ApplyCommand(n, c).applied == n.applied
  {
    var target := Normalize(c.members);
    RefreshFacts(n.(config := JointConfig(n.config.current, target, n.applied), requested := Some(target), requestPending := true,
                    target := Some(target), jointIndex := n.applied, membership := Joint, dirty := true));
  }

  lemma LeaveFacts(n: Node, c: Command)
    requires c.LeaveJoint?
    ensures Applied(n, ApplyCommand(n, c)) && ApplyCommand(n, c).applied == n.applied
  {
    RefreshFacts(n.(config := StableConfig(Normalize(c.members), n.applied), requested := None, requestPending := false,
                    target := None, finalIndex := n.applied, membership := Stable, dirty := true));
  }

  lemma CommandFacts(n: Node, c: Command)
    ensures Applied(n, ApplyCommand(n, c)) && ApplyCommand(n, c).applied == n.applied
  {
    match c
    case EnterJoint(_) => EnterFacts(n, c);
    case LeaveJoint(_) => LeaveFacts(n, c);
    case _ =>
  }

  lemma ApplyNextFacts(n: Node)
    requires n.applied < n.commit <= |n.log|
    ensures Applied(n, ApplyNext(n)) && ApplyNext(n).applied == n.applied + 1
  {
    var n1 := n.(applied := n.applied + 1);
    CommandFacts(n1, n1.log[n1.applied - 1].command);
  }

  lemma AppliedSim(s: Sys, h: History, members: seq<NodeId>, i: NodeId, n: Node, n': Node) returns (s': Sys)
    requires Inv(s, h, members) && Sim(s, i, n) && n.applied < n.commit <= |n.log|
    requires Applied(n, n') && n'.applied == n.applied + 1
    ensures Reaches(s, h, s', h, members, i) && Sim(s', i, n')
    ensures CommitInv(s, h, members) ==> CommitInv(s', h, members)
  {
    hide Inv, CommitInv;
    var p' := s.peers[i].(applied := n.applied + 1, matched := n'.matchIndex);
    TuneKeeps(s, h, members, i, p', {});
    s' := With(s, i, p', {});
    assert Retains(h, s.peers[i], p');
    hide Retains;
    if PeerOf(n') != p' {
      var s1 := s';
      s' := RetreatSim(s1, h, members, i, n.(applied := n.applied + 1, matchIndex := n'.matchIndex), n', {});
      ReachesTransitive(s, h, s1, h, s', h, members, i);
    }
  }

  lemma {:induction false} ApplyAllSim(s: Sys, h: History, members: seq<NodeId>, i: NodeId, n: Node) returns (s': Sys)
    requires Inv(s, h, members) && Sim(s, i, n) && InWindow(n)
    ensures Reaches(s, h, s', h, members, i) && Sim(s', i, ApplyAll(n))
    ensures CommitInv(s, h, members) ==> CommitInv(s', h, members)
    decreases n.commit - n.applied
  {
    s' := s;
    if n.applied < n.commit {
      ApplyNextFacts(n);
      var s1 := AppliedSim(s, h, members, i, n, ApplyNext(n));
      s' := ApplyAllSim(s1, h, members, i, ApplyNext(n));
      ReachesTransitive(s, h, s1, h, s', h, members, i);
    }
  }
}
