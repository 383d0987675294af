/** Membership: a node in a joint configuration always knows the members it is moving to, so the entry
    that ends the joint phase names exactly the members whose majorities it needed. */
module JointTarget {
  import opened RaftTypes
  import opened LogMerge
  import opened NodeSpec
  import opened NodeLocal
  import opened Members
  import opened Cluster

  /** The pending members are the new members of the joint configuration, in normal form. */
  predicate Targeted(n: Node) {
    n.config.joint.Some? ==> n.target == n.config.joint && Normalize(n.config.joint.value) == n.config.joint.value
  }

  predicate SameTarget(n: Node, n': Node) {
    n'.config == n.config && n'.target == n.target
  }

  lemma AppendLocalTarget(n: Node, c: Command)
    ensures SameTarget(n, AppendLocal(n, c))
  {
    hide CommitScan, AppendMessages;
  }

  lemma AppendReplyTarget(n: Node, m: Message)
    requires m.AppendReply?
    ensures SameTarget(n, HandleAppendReply(n, m))
  {
    hide AdvanceCommit, SendTo;
    var n1 := AdoptTerm(n, m.term);
    if m.source in n1.nextIndex {
      SendTarget(n1.(nextIndex := n1.nextIndex[m.source := BackOff(n1.nextIndex[m.source])]), m.source);
    }
    AdvanceTarget(n1.(matchIndex := n1.matchIndex[m.source := m.matchIndex], nextIndex := n1.nextIndex[m.source := m.matchIndex + 1]));
  }

  lemma SendTarget(n: Node, peer: NodeId)
    ensures SameTarget(n, SendTo(n, peer))
  {
    hide AppendMessage, SendIndex;
  }

  lemma AdvanceTarget(n: Node)
    ensures SameTarget(n, AdvanceCommit(n))
  {
    hide CommitScan;
  }

  lemma {:induction false} ReceiveAllTarget(n: Node, inbox: seq<Message>)
    ensures SameTarget(n, ReceiveAll(n, inbox))
    decreases |inbox|
  {
    hide HandleAppendReply;
    if inbox != [] {
      if inbox[0].AppendReply? { AppendReplyTarget(n, inbox[0]); }
      ReceiveAllTarget(Receive(n, inbox[0]), inbox[1..]);
    }
  }

  lemma {:induction false} AppendAllTarget(n: Node, commands: seq<Command>)
    ensures SameTarget(n, AppendAll(n, commands))
    decreases |commands|
  {
    hide AppendLocal;
    if commands != [] {
      AppendLocalTarget(n, commands[0]);
      AppendAllTarget(AppendLocal(n, commands[0]), commands[1..]);
    }
  }

  lemma AnswerTarget(n: Node, m: Message)
    requires m.AppendEntries?
    ensures SameTarget(n, HandleAppendEntries(n, m))
  {
    var n1 := AdoptTerm(n, m.term);
    assert SameTarget(n, n1);
    hide AdoptTerm, Merge, AcceptsPrevious, NextCommit;
  }

  lemma VoteTarget(n: Node, m: Message)
    ensures m.RequestVote? ==> SameTarget(n, HandleRequestVote(n, m))
    ensures m.VoteReply? ==> SameTarget(n, HandleVoteReply(n, m))
  {
    hide IsVoting, UpToDate;
  }

  lemma TakeTarget(n: Node)
    requires Sorted(n)
    ensures n.appends != [] ==> SameTarget(n, TakeAppend(n))
    ensures n.voteRequests != [] ==> SameTarget(n, TakeVoteRequest(n))
    ensures n.voteReplies != [] ==> SameTarget(n, TakeVoteReply(n))
  {
    hide HandleAppendEntries, HandleRequestVote, HandleVoteReply;
    if n.appends != [] { AnswerTarget(n.(appends := n.appends[1..]), n.appends[0]); }
    if n.voteRequests != [] { VoteTarget(n.(voteRequests := n.voteRequests[1..]), n.voteRequests[0]); }
    if n.voteReplies != [] { VoteTarget(n.(voteReplies := n.voteReplies[1..]), n.voteReplies[0]); }
  }

  lemma FollowerTarget(n: Node, clock: Clock)
    requires Sorted(n) && n.role == Follower
    ensures SameTarget(n, RoleStep(n, clock))
  {
    hide TimedOut, TakeAppend, TakeVoteRequest, TakeVoteReply, BecomeCandidate, BecomeLeader, Broadcast, Sorted;
    if TimedOut(n, clock) { OfficeTarget(n.(role := Candidate)); } else { TakeTarget(n); }
  }

  lemma DemotableTarget(n: Node)
    requires Sorted(n)
    ensures n.appends != [] ==> SameTarget(n, TakeAppend(n.(role := Follower)))
    ensures n.voteRequests != [] ==>
              SameTarget(n, TakeVoteRequest(if n.voteRequests[0].term > n.term then n.(role := Follower) else n))
    ensures n.voteReplies != [] ==> SameTarget(n, TakeVoteReply(n))
  {
    hide TakeAppend, TakeVoteRequest, TakeVoteReply;
    TakeTarget(n);
    TakeTarget(n.(role := Follower));
  }

  lemma CandidateTarget(n: Node, clock: Clock)
    requires Sorted(n) && n.role == Candidate
    ensures SameTarget(n, RoleStep(n, clock))
  {
    hide TimedOut, ConfigQuorum, TakeAppend, TakeVoteRequest, TakeVoteReply, BecomeLeader;
    if TimedOut(n, clock) {
    } else if ConfigQuorum(n.votes, n.config) {
      OfficeTarget(n.(role := Leader));
    } else {
      DemotableTarget(n);
    }
  }

  lemma LeaderTarget(n: Node, clock: Clock)
    requires Sorted(n) && n.role == Leader
    ensures SameTarget(n, RoleStep(n, clock))
  {
    hide TakeAppend, TakeVoteRequest, TakeVoteReply, Broadcast;
    DemotableTarget(n);
    OfficeTarget(n);
  }

  lemma RoleStepTarget(n: Node, clock: Clock)
    requires Sorted(n)
    ensures SameTarget(n, RoleStep(n, clock))
  {
    hide RoleStep;
    match n.role
    case Follower => FollowerTarget(n, clock);
    case Candidate => CandidateTarget(n, clock);
    case Leader => LeaderTarget(n, clock);
  }

  lemma OfficeTarget(n: Node)
    ensures SameTarget(n, BecomeLeader(n)) && SameTarget(n, Broadcast(n)) && SameTarget(n, BecomeCandidate(n))
  {
    hide AppendMessages, BallotRequests;
  }

  lemma MembershipStepTarget(n: Node)
    requires Targeted(n)
    ensures Targeted(MembershipStep(n))
  {
    hide AppendLocal, CaughtUp, Normalize;
    if n.requested.Some? {
      AppendLocalTarget(n.(membership := JointPending, target := n.requested, jointIndex := |n.log| + 1, outbox := []),
                        EnterJoint(n.requested.value));
    }
    if n.target.Some? {
      AppendLocalTarget(n.(membership := Finalizing, finalIndex := |n.log| + 1), LeaveJoint(n.target.value));
    }
  }

  lemma WorkedTarget(n: Node, e: Event)
    requires (e.Tick? || e.TornTick?) && Sorted(Latched(n, e)) && Targeted(n)
    ensures SameTarget(n, RoleStep(Latched(n, e), e.clock)) && Targeted(Worked(n, e))
  {
    hide RoleStep, MembershipStep, Targeted;
    ReceiveAllTarget(n, e.inbox);
    AppendAllTarget(ReceiveAll(n, e.inbox), e.commands);
    RoleStepTarget(Latched(n, e), e.clock);
    TargetMoves(n, RoleStep(Latched(n, e), e.clock));
    MembershipStepTarget(RoleStep(Latched(n, e), e.clock));
  }

  lemma TargetMoves(n: Node, n': Node)
    requires SameTarget(n, n') && Targeted(n)
    ensures Targeted(n')
  {
  }

  lemma CommandTarget(n: Node, c: Command)
    requires Targeted(n)
    ensures Targeted(ApplyCommand(n, c))
  {
    match c
    case EnterJoint(members) =>
      NormalizeBySet(members, members);
      hide Normalize, RefreshPeers, PeersOf;
      assert forall x: Node :: SameTarget(x, RefreshPeers(x)) by { PeersTarget(); }
    case LeaveJoint(members) =>
      hide Normalize, PeersOf, IsVoting;
    case _ =>
  }

  lemma PeersTarget()
    ensures forall x: Node :: SameTarget(x, RefreshPeers(x))
  {
    hide PeersOf;
  }

  lemma ApplyNextTarget(n: Node)
    requires Targeted(n) && n.applied < |n.log|
    ensures Targeted(ApplyNext(n))
  {
    hide ApplyCommand;
    TargetMoves(n, n.(applied := n.applied + 1));
    CommandTarget(n.(applied := n.applied + 1), n.log[n.applied].command);
  }

  lemma {:induction false} ApplyAllTarget(n: Node)
    requires Targeted(n) && InWindow(n)
    ensures Targeted(ApplyAll(n))
    decreases n.commit - n.applied
  {
    hide Targeted, ApplyNext;
    if n.applied < n.commit {
      ApplyNextTarget(n);
      ApplyAllTarget(ApplyNext(n));
    }
  }

  lemma LoadTarget(n: Node, disk: Disk)
    ensures Targeted(Load(n, disk))
  {
    if disk.meta.Some? && disk.meta.value.config.joint.Some? {
      NormalizeBySet(disk.meta.value.config.joint.value, []);
    }
    hide Normalize, PeersOf;
  }

  ghost predicate AllTargeted(c: State) {
    forall i {:trigger Targeted(c.nodes[i])} :: i in c.nodes && c.nodes[i].running ==> Targeted(c.nodes[i])
  }

  lemma StepTarget(c: State, e: Event)
    requires Enabled(c, e) && AllTargeted(c)
    ensures AllTargeted(Step(c, e))
  {
    hide Worked, Load, ApplyAll, Targeted, Normalize, Sorted;
    var n := c.nodes[e.id];
    match e
    case Tick(_, _, _, _) =>
      WorkedTarget(n, e);
      var w := Worked(n, e);
      TargetMoves(w, w.(dirty := false));
      ApplyAllTarget(w.(dirty := false));
      var a := ApplyAll(w.(dirty := false));
      TargetMoves(a, a.(outbox := []));
    case Start(i) =>
      LoadTarget(n, c.disks[i]);
    case RequestChange(i, members) =>
      if n.running { TargetMoves(n, n.(requested := Some(Normalize(members)), requestPending := true)); }
    case _ =>
  }

  /** The joint target is never lost, whatever requests, elections, stops, crashes and restarts happen. */
  lemma {:induction false} TargetKept(r: Run, k: nat, i: NodeId)
    requires IsRun(r) && k < |r.states|
    ensures AllTargeted(r.states[k])
    ensures i in r.states[k].nodes && r.states[k].nodes[i].running ==> Targeted(r.states[k].nodes[i])
  {
    hide Step, Enabled, Targeted;
    if k == 0 {
      forall j | j in r.states[0].nodes ensures Targeted(r.states[0].nodes[j]) {
        FreshTarget(j, r.states[0].nodes[j].initial);
      }
    } else {
      TargetKept(r, k - 1, i);
      assert Follows(r, k - 1);
      StepTarget(r.states[k - 1], r.events[k - 1]);
    }
  }

  lemma FreshTarget(i: NodeId, initial: seq<NodeId>)
    ensures Targeted(Fresh(i, initial))
  {
    hide Normalize, PeersOf;
  }

  /** In any run, the entry a leader appends to end a joint phase names the joint configuration's new
      members, the ones whose majority it needed; and applying that entry makes them the members. */
  lemma FinalEntryNamesTarget(r: Run, k: nat)
    requires IsRun(r) && k < |r.events| && r.events[k].Tick? && Enabled(r.states[k], r.events[k])
    ensures var n := r.states[k].nodes[r.events[k].id];
            var n1 := RoleStep(Latched(n, r.events[k]), r.events[k].clock);
            n1.membership == Joint && CanFinalize(n1) ==>
              && n.config.joint.Some?
              && Worked(n, r.events[k]).log == n1.log + [Entry(|n1.log| + 1, n1.term, LeaveJoint(n.config.joint.value), n1.id)]
              && Normalize(n.config.joint.value) == n.config.joint.value
  {
    assert |r.states| == |r.events| + 1;
    hide RoleStep, Latched, Targeted, MembershipStep, CanFinalize, Step, Initial, IsRun, Worked, Sorted;
    var e := r.events[k];
    var n := r.states[k].nodes[e.id];
    TargetKept(r, k, e.id);
    FinalOf(n, e);
  }

  lemma FinalOf(n: Node, e: Event)
    requires e.Tick? && Sorted(Latched(n, e)) && Targeted(n)
    ensures var n1 := RoleStep(Latched(n, e), e.clock);
            n1.membership == Joint && CanFinalize(n1) ==>
              && n.config.joint.Some?
              && Worked(n, e).log == n1.log + [Entry(|n1.log| + 1, n1.term, LeaveJoint(n.config.joint.value), n1.id)]
              && Normalize(n.config.joint.value) == n.config.joint.value
  {
    hide RoleStep, Latched, CaughtUp, AppendLocal, MembershipStep, Normalize;
    WorkedTarget(n, e);
    var n1 := RoleStep(Latched(n, e), e.clock);
    if n1.membership == Joint && CanFinalize(n1) { FinalEntry(n1); }
  }

  lemma FinalEntry(n: Node)
    requires n.membership == Joint && CanFinalize(n)
    ensures MembershipStep(n).log == n.log + [Entry(|n.log| + 1, n.term, LeaveJoint(n.target.value), n.id)]
  {
    hide CommitScan, AppendMessages, CaughtUp;
  }
}
