/** When a tick raises: an index error for a peer whose next index lies beyond the log, or a key error for
    a refusal from a node that is no peer. */
module TickFaults {
  import opened RaftTypes
  import opened LogMerge
  import opened Protocol
  import opened ProtocolSteps
  import opened NodeSpec
  import opened NodeLocal
  import opened Refinement
  import opened Members
  import opened Cluster
  import opened ClusterSafety
  import opened RunProofs

  // ---- What raises, told on the state before the tick and its messages ----

  /** A message to some peer would start beyond the end of a log of this length. */
  predicate Ahead(n: Node, last: nat) {
    exists p :: p in n.peers && p in n.nextIndex && n.nextIndex[p] > last + 1
  }

  /** A refusal of the leader's own term, from a node it has no next index for. */
  predicate Stranger(n: Node, m: Message) {
    m.AppendReply? && !m.success && n.role == Leader && m.term == n.term && m.source !in n.nextIndex
  }

  /** A refusal of the leader's own term, after which it still starts beyond its log. */
  predicate Overrun(n: Node, m: Message) {
    && m.AppendReply? && !m.success && n.role == Leader && m.term == n.term && m.source in n.nextIndex
    && BackOff(n.nextIndex[m.source]) > |n.log| + 1
  }

  /** Messages are handled in order, each by what the earlier ones left. */
  predicate StrangerIn(n: Node, inbox: seq<Message>)
    decreases |inbox|
  {
    inbox != [] && (Stranger(n, inbox[0]) || StrangerIn(Receive(n, inbox[0]), inbox[1..]))
  }

  predicate OverrunIn(n: Node, inbox: seq<Message>)
    decreases |inbox|
  {
    inbox != [] && (Overrun(n, inbox[0]) || OverrunIn(Receive(n, inbox[0]), inbox[1..]))
  }

  /** Nothing in its queues keeps a leader from its heartbeat. */
  predicate Beats(n: Node, clock: Clock) {
    n.role == Leader && n.appends == [] && n.voteRequests == [] && n.voteReplies == [] && clock.heartbeatDue
  }

  /** A membership entry is to be appended. */
  predicate WillChange(n: Node) {
    (n.membership == Stable && HasChangeRequest(n)) || (n.membership == Joint && CanFinalize(n))
  }

  /** A leader that stays leader has a membership entry to append. */
  predicate Changes(n: Node) {
    && n.role == Leader && n.appends == [] && (n.voteRequests == [] || n.voteRequests[0].term <= n.term)
    && WillChange(n)
  }

  /** The index error: a leader, its messages received, sends to a peer whose next index lies beyond the
      log, which is one longer once something has been appended. */
  predicate Overruns(n: Node, e: Event)
    requires e.Tick? || e.TornTick?
  {
    var n1 := ReceiveAll(n, e.inbox);
    || OverrunIn(n, e.inbox)
    || (n1.role == Leader && e.commands != [] && Ahead(n1, |n1.log| + 1))
    || (e.commands == [] && Beats(n1, e.clock) && Ahead(n1, |n1.log|))
    || (e.commands == [] && Changes(n1) && Ahead(n1, |n1.log| + 1))
  }

  /** Whether a tick raises depends on nothing else: an index error or a key error. */
  predicate Raises(n: Node, e: Event)
    requires e.Tick? || e.TornTick?
  {
    StrangerIn(n, e.inbox) || Overruns(n, e)
  }

  lemma BroadcastFault(n: Node)
    ensures Broadcast(n).fault <==> n.fault || Ahead(n, |n.log|)
  {
    hide AppendMessages;
    if Ahead(n, |n.log|) {
      var p :| p in n.peers && p in n.nextIndex && n.nextIndex[p] > |n.log| + 1;
      assert SendIndex(n, p) > |n.log| + 1;
    }
  }

  lemma AdvanceSame(n: Node)
    ensures var w := AdvanceCommit(n);
            w.peers == n.peers && w.nextIndex == n.nextIndex && w.log == n.log && w.fault == n.fault && w.role == n.role && w.term == n.term
  {
    hide CommitScan;
  }

  lemma SameAhead(n: Node, n': Node, last: nat)
    requires n'.peers == n.peers && n'.nextIndex == n.nextIndex
    ensures Ahead(n', last) <==> Ahead(n, last)
  {
    if Ahead(n, last) {
      var p :| p in n.peers && p in n.nextIndex && n.nextIndex[p] > last + 1;
      assert p in n'.peers;
    }
    if Ahead(n', last) {
      var p :| p in n'.peers && p in n'.nextIndex && n'.nextIndex[p] > last + 1;
      assert p in n.peers;
    }
  }

  lemma LessAhead(n: Node, last: nat, last': nat)
    requires Ahead(n, last') && last <= last'
    ensures Ahead(n, last)
  {
    var p :| p in n.peers && p in n.nextIndex && n.nextIndex[p] > last' + 1;
    assert n.nextIndex[p] > last + 1;
  }

  lemma AppendLocalFault(n: Node, c: Command)
    ensures var w := AppendLocal(n, c);
            && (w.fault <==> n.fault || Ahead(n, |n.log| + 1))
            && w.peers == n.peers && w.nextIndex == n.nextIndex && |w.log| == |n.log| + 1 && w.role == n.role
  {
    var n1 := Appended(n, c);
    var n2 := AdvanceCommit(n1);
    AdvanceSame(n1);
    BroadcastFault(n2);
    SameAhead(n, n2, |n.log| + 1);
    hide Ahead, AppendMessages, CommitScan, AdvanceCommit;
  }

  lemma {:induction false} AppendAllFault(n: Node, commands: seq<Command>)
    ensures var w := AppendAll(n, commands);
            (w.fault <==> n.fault || (commands != [] && Ahead(n, |n.log| + 1))) && w.peers == n.peers && w.nextIndex == n.nextIndex
    ensures |AppendAll(n, commands).log| == |n.log| + |commands|
    decreases |commands|
  {
    if commands != [] {
      var n1 := AppendLocal(n, commands[0]);
      AppendLocalFault(n, commands[0]);
      hide Ahead, AppendLocal;
      AppendAllFault(n1, commands[1..]);
      SameAhead(n, n1, |n1.log| + 1);
      if Ahead(n, |n1.log| + 1) { LessAhead(n, |n.log| + 1, |n1.log| + 1); }
    }
  }

  lemma ReceiveFault(n: Node, m: Message)
    ensures Receive(n, m).fault <==> n.fault || Stranger(n, m) || Overrun(n, m)
    ensures Receive(n, m).log == n.log
  {
    if m.AppendReply? && n.role == Leader && m.term == n.term {
      ReplyFault(n, m);
    }
    hide RecordReply, AppendMessage;
    if m.AppendReply? && !(n.role == Leader && m.term == n.term) { OtherReply(n, m); }
  }

  lemma OtherReply(n: Node, m: Message)
    requires m.AppendReply? && !(n.role == Leader && m.term == n.term)
    ensures HandleAppendReply(n, m).fault == n.fault && HandleAppendReply(n, m).log == n.log
  {
  }

  lemma ReplyFault(n: Node, m: Message)
    requires m.AppendReply? && n.role == Leader && m.term == n.term
    ensures HandleAppendReply(n, m).fault <==> n.fault || Stranger(n, m) || Overrun(n, m)
    ensures HandleAppendReply(n, m).log == n.log
  {
    hide CommitScan, AppendMessage;
    if m.success {
      AdvanceSame(n.(matchIndex := n.matchIndex[m.source := m.matchIndex], nextIndex := n.nextIndex[m.source := m.matchIndex + 1]));
    }
  }

  lemma {:induction false} ReceiveAllFault(n: Node, inbox: seq<Message>)
    ensures ReceiveAll(n, inbox).fault <==> n.fault || StrangerIn(n, inbox) || OverrunIn(n, inbox)
    ensures ReceiveAll(n, inbox).log == n.log
    decreases |inbox|
  {
    if inbox != [] {
      ReceiveFault(n, inbox[0]);
      hide Receive, Stranger, Overrun;
      ReceiveAllFault(Receive(n, inbox[0]), inbox[1..]);
    }
  }

  lemma RoleStepFault(n: Node, clock: Clock)
    requires Sorted(n)
    ensures RoleStep(n, clock).fault <==> n.fault || (Beats(n, clock) && Ahead(n, |n.log|))
  {
    if n.role == Leader && n.appends == [] {
      LeaderStepFault(n, clock);
    } else {
      OtherStepFault(n, clock);
    }
  }

  lemma LeaderStepFault(n: Node, clock: Clock)
    requires Sorted(n) && n.role == Leader && n.appends == []
    ensures RoleStep(n, clock).fault <==> n.fault || (Beats(n, clock) && Ahead(n, |n.log|))
  {
    hide Ahead, AppendMessages, TakeVoteRequest;
    BroadcastFault(n);
    if n.voteRequests != [] { VoteFault(n); }
  }

  lemma HandleVoteFault(n: Node, m: Message)
    requires m.RequestVote?
    ensures HandleRequestVote(n, m).fault == n.fault
  {
    hide IsVoting, UpToDate;
  }

  lemma VoteFault(n: Node)
    requires Sorted(n) && n.voteRequests != []
    ensures TakeVoteRequest(n).fault == n.fault && TakeVoteRequest(n.(role := Follower)).fault == n.fault
  {
    hide HandleRequestVote;
    HandleVoteFault(n.(voteRequests := n.voteRequests[1..]), n.voteRequests[0]);
    HandleVoteFault(n.(role := Follower, voteRequests := n.voteRequests[1..]), n.voteRequests[0]);
  }

  lemma TakeAppendFault(n: Node)
    requires Sorted(n) && n.appends != []
    ensures TakeAppend(n).fault == n.fault && TakeAppend(n).role == (if n.appends[0].term > n.term then Follower else n.role)
  {
    SortedAppends(n);
    hide Merge, AcceptsPrevious, NextCommit, Sorted;
  }

  lemma SortedAppends(n: Node)
    requires Sorted(n)
    ensures n.appends != [] ==> n.appends[0].AppendEntries?
  {
  }

  lemma OtherStepFault(n: Node, clock: Clock)
    requires Sorted(n) && !(n.role == Leader && n.appends == [])
    ensures RoleStep(n, clock).fault == n.fault
  {
    hide IsVoting, TakeAppend, TakeVoteRequest, TakeVoteReply, BecomeLeader, ConfigQuorum, BallotRequests, TimedOut;
    if n.role != Leader && TimedOut(n, clock) {
    } else if n.role == Candidate && ConfigQuorum(n.votes, n.config) {
      OfficeFault(n.(role := Leader));
    } else if n.appends != [] {
      TakeAppendFault(n.(role := Follower));
      assert n.role == Follower ==> n.(role := Follower) == n;
    } else if n.voteRequests != [] {
      VoteFault(n);
    } else if n.voteReplies != [] {
      ReplyVoteFault(n);
    }
  }

  lemma ReplyVoteFault(n: Node)
    requires Sorted(n)
    ensures n.voteReplies != [] ==> TakeVoteReply(n).fault == n.fault
  {
    hide IsVoting;
  }

  /** A new leader's next indices are right behind its log. */
  lemma OfficeFault(n: Node)
    ensures BecomeLeader(n).fault == n.fault
    ensures var w := BecomeLeader(n); forall p :: p in w.nextIndex ==> w.nextIndex[p] == |w.log| + 1
  {
    BroadcastFault(Enthroned(n));
    hide AppendMessages;
  }

  lemma MembershipFault(n: Node)
    ensures MembershipStep(n).fault <==> n.fault || (WillChange(n) && Ahead(n, |n.log| + 1))
  {
    if WillChange(n) {
      ChangeFault(n);
    }
    hide Ahead, CaughtUp, BeginChange, FinalizeChange;
  }

  lemma ChangeFault(n: Node)
    requires WillChange(n)
    ensures MembershipStep(n).fault <==> n.fault || Ahead(n, |n.log| + 1)
  {
    hide Ahead, CaughtUp, AppendLocal;
    if n.membership == Stable {
      var n1 := n.(membership := JointPending, target := Some(n.requested.value), jointIndex := |n.log| + 1, outbox := []);
      AppendLocalFault(n1, EnterJoint(n.requested.value));
      SameAhead(n, n1, |n.log| + 1);
    } else {
      var n1 := n.(membership := Finalizing, finalIndex := |n.log| + 1);
      AppendLocalFault(n1, LeaveJoint(n.target.value));
      SameAhead(n, n1, |n.log| + 1);
    }
  }

  /** After the role transition, only a leader that stayed leader can be about to send beyond its log. */
  lemma ChangesAfter(n: Node, clock: Clock)
    requires Sorted(n)
    ensures var w := RoleStep(n, clock);
            WillChange(w) && Ahead(w, |w.log| + 1) <==> Changes(n) && Ahead(n, |n.log| + 1)
  {
    var w := RoleStep(n, clock);
    if n.role == Leader && n.appends == [] && (n.voteRequests == [] || n.voteRequests[0].term <= n.term) {
      StaysLeader(n, clock);
      SameAhead(n, w, |n.log| + 1);
    } else {
      LeavesOrEnters(n, clock);
    }
    hide RoleStep, Ahead, CaughtUp;
  }

  /** What replication and membership changes go by. */
  predicate SameStanding(n: Node, w: Node) {
    && w.role == n.role && w.peers == n.peers && w.nextIndex == n.nextIndex && w.matchIndex == n.matchIndex && w.log == n.log
    && w.id == n.id && w.membership == n.membership && w.requestPending == n.requestPending && w.requested == n.requested
    && w.config == n.config && w.target == n.target
  }

  lemma SameChange(n: Node, w: Node)
    requires SameStanding(n, w)
    ensures WillChange(w) <==> WillChange(n)
  {
    assert CaughtUp(w) == CaughtUp(n);
    hide CaughtUp;
  }

  lemma VoteStays(n: Node)
    requires Sorted(n) && n.voteRequests != [] && n.voteRequests[0].term <= n.term
    ensures SameStanding(n, TakeVoteRequest(n))
  {
    hide IsVoting, UpToDate;
  }

  lemma StaysLeader(n: Node, clock: Clock)
    requires Sorted(n) && n.role == Leader && n.appends == [] && (n.voteRequests == [] || n.voteRequests[0].term <= n.term)
    ensures SameStanding(n, RoleStep(n, clock)) && (WillChange(RoleStep(n, clock)) <==> WillChange(n))
  {
    hide TakeVoteRequest, AppendMessages, Sorted, WillChange;
    if n.voteRequests != [] { VoteStays(n); }
    SameChange(n, RoleStep(n, clock));
  }

  predicate StartsBehind(n: Node) {
    n.role == Leader ==> forall p :: p in n.nextIndex ==> n.nextIndex[p] == |n.log| + 1
  }

  lemma LeavesOrEnters(n: Node, clock: Clock)
    requires Sorted(n) && !(n.role == Leader && n.appends == [] && (n.voteRequests == [] || n.voteRequests[0].term <= n.term))
    ensures StartsBehind(RoleStep(n, clock))
  {
    hide TakeAppend, TakeVoteRequest, TakeVoteReply, BecomeLeader, ConfigQuorum, BallotRequests, TimedOut, SendAll;
    if n.role == Candidate && !TimedOut(n, clock) && ConfigQuorum(n.votes, n.config) {
      OfficeFault(n.(role := Leader));
    } else if n.role == Follower && TimedOut(n, clock) {
    } else if n.appends != [] {
      TakeAppendFault(n.(role := Follower));
      assert n.role == Follower ==> n.(role := Follower) == n;
    } else if n.voteRequests != [] {
      VoteRole(n);
    } else if n.voteReplies != [] && n.role == Candidate {
      VoteReplyRole(n);
    }
  }

  lemma VoteRole(n: Node)
    requires Sorted(n) && n.voteRequests != []
    ensures n.role != Leader ==> TakeVoteRequest(n).role != Leader
    ensures TakeVoteRequest(n.(role := Follower)).role != Leader
  {
    hide IsVoting, UpToDate;
  }

  lemma VoteReplyRole(n: Node)
    requires Sorted(n) && n.voteReplies != [] && n.role == Candidate
    ensures TakeVoteReply(n).role != Leader
  {
    hide IsVoting;
  }

  /** The exact condition: a tick raises if and only if its node, as it stands before the tick, and its
      messages meet it. */
  lemma RaisesIff(n: Node, e: Event)
    requires (e.Tick? || e.TornTick?) && Sorted(n) && !n.fault
    ensures Sorted(Latched(n, e))
    ensures Worked(n, e).fault <==> Raises(n, e)
  {
    hide ReceiveAll, AppendAll, RoleStep, MembershipStep, Ahead, StrangerIn, OverrunIn, WillChange, Sorted, Beats, Changes;
    LatchSorted(n, e.inbox, e.commands);
    ReceiveAllFault(n, e.inbox);
    var n1, n2 := ReceiveAll(n, e.inbox), Latched(n, e);
    AppendAllFault(n1, e.commands);
    if n1.role == Leader && e.commands != [] {
      AppendedRaises(n1, n2, e);
    } else {
      NothingAppended(n1, e);
    }
    RoleStepFault(n2, e.clock);
    MembershipFault(RoleStep(n2, e.clock));
    ChangesAfter(n2, e.clock);
  }

  lemma NothingAppended(n1: Node, e: Event)
    requires (e.Tick? || e.TornTick?) && !(n1.role == Leader && e.commands != [])
    ensures (if n1.role == Leader then AppendAll(n1, e.commands) else n1) == n1
    ensures n1.role != Leader ==> !Beats(n1, e.clock) && !Changes(n1)
  {
  }

  lemma AppendedRaises(n1: Node, n2: Node, e: Event)
    requires n2.peers == n1.peers && n2.nextIndex == n1.nextIndex && |n2.log| >= |n1.log| + 1
    ensures Ahead(n2, |n2.log|) || Ahead(n2, |n2.log| + 1) ==> Ahead(n1, |n1.log| + 1)
  {
    SameAhead(n1, n2, |n2.log|);
    SameAhead(n1, n2, |n2.log| + 1);
    if Ahead(n2, |n2.log|) { LessAhead(n1, |n1.log| + 1, |n2.log|); }
    if Ahead(n2, |n2.log| + 1) { LessAhead(n1, |n1.log| + 1, |n2.log| + 1); }
  }

  lemma {:induction false} ReceiveAllSorted(n: Node, inbox: seq<Message>)
    requires Sorted(n)
    ensures Sorted(ReceiveAll(n, inbox))
    decreases |inbox|
  {
    if inbox != [] {
      ReceiveSorted(n, inbox[0]);
      ReceiveAllSorted(Receive(n, inbox[0]), inbox[1..]);
    }
  }

  lemma ReceiveSorted(n: Node, m: Message)
    requires Sorted(n)
    ensures Sorted(Receive(n, m))
  {
    hide AdvanceCommit;
    if m.AppendReply? { AppendReplyQueues(n, m); }
  }

  lemma {:induction false} AppendAllSorted(n: Node, commands: seq<Command>)
    requires Sorted(n)
    ensures Sorted(AppendAll(n, commands))
    decreases |commands|
  {
    if commands != [] { AppendAllSorted(AppendLocal(n, commands[0]), commands[1..]); }
  }

  lemma LatchSorted(n: Node, inbox: seq<Message>, commands: seq<Command>)
    requires Sorted(n)
    ensures Sorted(Latch(n, inbox, commands))
  {
    ReceiveAllSorted(n, inbox);
    AppendAllSorted(ReceiveAll(n, inbox), commands);
  }

  // ---- Runs ----

  /** The guard on ticks excludes nothing but a raise: in every run a running node can take any messages
      addressed to it unless it and they meet that condition; its queues hold the right kinds, and its
      apply loop stays in its log. */
  lemma TicksUnlessItRaises(r: Run, members: seq<NodeId>, k: nat, e: Event)
    requires IsRun(r) && AlwaysBased(r, members) && k < |r.states| && e.Tick?
    requires e.id in r.states[k].nodes && r.states[k].nodes[e.id].running
    requires forall m :: m in e.inbox ==> m in r.states[k].net && m.target == e.id
    ensures Sorted(Latched(r.states[k].nodes[e.id], e))
    ensures Ticks(r.states[k], e) <==> !Raises(r.states[k].nodes[e.id], e)
  {
    hide Inv, CommitInv, Trusted, RoleStep, MembershipStep, Latch, Step, Enabled, Raises;
    var s, h, _, _ := Moments(r, members, k, k);
    var n := r.states[k].nodes[e.id];
    assert NodeRel(r.states[k], s, e.id);
    RaisesIff(n, e);
    WorkRoutine(n, e);
  }

  /** A leader starts for no peer beyond the end of its log. */
  predicate Bounded(n: Node) {
    n.role == Leader ==> forall p :: p in n.nextIndex ==> n.nextIndex[p] <= |n.log| + 1
  }

  /** No acknowledgement of the leader's own term claims more than its log. */
  predicate Plausible(n: Node, inbox: seq<Message>) {
    n.role == Leader ==> forall m :: m in inbox && m.AppendReply? && m.success && m.term == n.term ==> m.matchIndex <= |n.log|
  }

  lemma BoundedAhead(n: Node, last: nat)
    requires Bounded(n) && n.role == Leader && |n.log| <= last
    ensures !Ahead(n, last)
  {
  }

  lemma ReceiveBounded(n: Node, inbox: seq<Message>)
    requires Bounded(n) && inbox != [] && Plausible(n, inbox)
    ensures !Overrun(n, inbox[0])
    ensures var n1 := Receive(n, inbox[0]); Bounded(n1) && Plausible(n1, inbox[1..])
  {
    var m := inbox[0];
    assert m in inbox && forall x :: x in inbox[1..] ==> x in inbox;
    assert Bounded(Receive(n, m)) && Leading(n, Receive(n, m)) by { ReceiveLeading(n, m); }
    hide Receive;
  }

  /** Who leads afterwards led before, in the same term and with the same log. */
  predicate Leading(n: Node, n': Node) {
    n'.role == Leader ==> n.role == Leader && n'.term == n.term && n'.log == n.log
  }

  lemma ReceiveLeading(n: Node, m: Message)
    requires Bounded(n) && Plausible(n, [m])
    ensures Bounded(Receive(n, m)) && Leading(n, Receive(n, m))
  {
    assert m in [m];
    hide RecordReply;
    if m.AppendReply? {
      if m.term <= n.term { RecordLeading(n, m); } else { FollowerRecords(AdoptTerm(n, m.term), m); }
    }
  }

  lemma FollowerRecords(n: Node, m: Message)
    requires m.AppendReply? && n.role != Leader
    ensures RecordReply(n, m) == n
  {
  }

  lemma RecordLeading(n: Node, m: Message)
    requires m.AppendReply? && Bounded(n)
    requires n.role == Leader && m.success && m.term == n.term ==> m.matchIndex <= |n.log|
    ensures Bounded(RecordReply(n, m)) && Leading(n, RecordReply(n, m))
  {
    hide CommitScan, AppendMessage, AdvanceCommit;
    if n.role == Leader && m.term == n.term && m.success {
      AdvanceSame(n.(matchIndex := n.matchIndex[m.source := m.matchIndex], nextIndex := n.nextIndex[m.source := m.matchIndex + 1]));
    }
  }

  lemma {:induction false} ReceiveAllBounded(n: Node, inbox: seq<Message>)
    requires Bounded(n) && Plausible(n, inbox)
    ensures !OverrunIn(n, inbox) && Bounded(ReceiveAll(n, inbox))
    decreases |inbox|
  {
    if inbox != [] {
      ReceiveBounded(n, inbox);
      hide Bounded, Plausible, Overrun, Receive;
      ReceiveAllBounded(Receive(n, inbox[0]), inbox[1..]);
    }
  }

  /** On plausible acknowledgements a bounded leader never sends beyond its log, and stays bounded. */
  lemma BoundedTick(n: Node, e: Event)
    requires (e.Tick? || e.TornTick?) && Bounded(n) && Plausible(n, e.inbox) && Sorted(n)
    ensures Sorted(Latched(n, e)) && !Overruns(n, e) && Bounded(Worked(n, e))
  {
    hide Bounded, Plausible, ReceiveAll, AppendAll, RoleStep, MembershipStep, Ahead, OverrunIn, Sorted;
    LatchSorted(n, e.inbox, e.commands);
    ReceiveAllBounded(n, e.inbox);
    var n1 := ReceiveAll(n, e.inbox);
    if n1.role == Leader {
      BoundedAhead(n1, |n1.log|);
      BoundedAhead(n1, |n1.log| + 1);
      LongerBounded(n1, e.commands);
    }
    RoleBounded(Latched(n, e), e.clock);
    MembershipBounded(RoleStep(Latched(n, e), e.clock));
  }

  lemma LongerBounded(n: Node, commands: seq<Command>)
    requires Bounded(n) && n.role == Leader
    ensures Bounded(AppendAll(n, commands))
  {
    AppendAllFault(n, commands);
    hide AppendAll;
  }

  lemma RoleBounded(n: Node, clock: Clock)
    requires Sorted(n) && Bounded(n)
    ensures Bounded(RoleStep(n, clock))
  {
    if n.role == Leader && n.appends == [] && (n.voteRequests == [] || n.voteRequests[0].term <= n.term) {
      StaysLeader(n, clock);
    } else {
      LeavesOrEnters(n, clock);
    }
    hide RoleStep, WillChange;
  }

  lemma MembershipBounded(n: Node)
    requires Bounded(n)
    ensures Bounded(MembershipStep(n))
  {
    hide CaughtUp, AppendLocal;
    if n.membership == Stable && HasChangeRequest(n) {
      AppendLocalFault(n.(membership := JointPending, target := Some(n.requested.value), jointIndex := |n.log| + 1, outbox := []),
                       EnterJoint(n.requested.value));
    } else if n.membership == Joint && CanFinalize(n) {
      AppendLocalFault(n.(membership := Finalizing, finalIndex := |n.log| + 1), LeaveJoint(n.target.value));
    }
  }

  lemma RefreshBounded(n: Node)
    requires Bounded(n)
    ensures Bounded(RefreshPeers(n))
  {
  }

  lemma ApplyNextBounded(n: Node)
    requires Bounded(n) && n.applied < n.commit <= |n.log|
    ensures Bounded(ApplyNext(n))
  {
    hide IsVoting, Normalize, RefreshPeers, JointWith, StableWith, Bounded, Halt;
    var n1 := n.(applied := n.applied + 1);
    SameBounded(n, n1);
    match n1.log[n1.applied - 1].command
    case EnterJoint(members) => ConfiguredBounded(n1, Normalize(members));
    case LeaveJoint(members) => ConfiguredBounded(n1, Normalize(members));
    case _ => SameBounded(n1, ApplyCommand(n1, n1.log[n1.applied - 1].command));
  }

  lemma ConfiguredBounded(n: Node, members: seq<NodeId>)
    requires Bounded(n)
    ensures Bounded(RefreshPeers(JointWith(n, members))) && Bounded(RefreshPeers(StableWith(n, members)))
    ensures Bounded(Halt(RefreshPeers(StableWith(n, members))))
  {
    hide RefreshPeers, Bounded, Halt, JointConfig, StableConfig;
    SameBounded(n, JointWith(n, members));
    SameBounded(n, StableWith(n, members));
    RefreshBounded(JointWith(n, members));
    RefreshBounded(StableWith(n, members));
    HaltedBounded(RefreshPeers(StableWith(n, members)));
  }

  lemma SameBounded(n: Node, n': Node)
    requires Bounded(n) && n'.role == n.role && n'.nextIndex == n.nextIndex && n'.log == n.log
    ensures Bounded(n')
  {
  }

  lemma HaltedBounded(n: Node)
    ensures Bounded(Halt(n))
  {
  }

  lemma {:induction false} ApplyAllBounded(n: Node)
    requires Bounded(n) && InWindow(n)
    ensures Bounded(ApplyAll(n))
    decreases n.commit - n.applied
  {
    if n.applied < n.commit {
      ApplyNextBounded(n);
      hide Bounded, ApplyNext;
      ApplyAllBounded(ApplyNext(n));
    }
  }

  ghost predicate AllBounded(c: State) {
    forall i :: i in c.nodes ==> Bounded(c.nodes[i])
  }

  /** In a trusted state acknowledgements are plausible. */
  lemma PlausibleHere(c: State, s: Sys, h: History, members: seq<NodeId>, i: NodeId, inbox: seq<Message>)
    requires Inv(s, h, members) && CommitInv(s, h, members) && Rel(c, s) && Up(c, i) && forall m :: m in inbox ==> m in c.net
    ensures Plausible(c.nodes[i], inbox)
  {
    var n := c.nodes[i];
    assert NodeRel(c, s, i) && PeerOk(h, i, s.peers[i]);
    forall m | m in inbox && m.AppendReply? && m.success && n.role == Leader && m.term == n.term ensures m.matchIndex <= |n.log| {
      assert MessageCommitOk(h, members, m) && AckOk(s, h, (m.source, m.term));
    }
  }

  lemma StepBounded(c: State, s: Sys, h: History, members: seq<NodeId>, e: Event)
    requires Inv(s, h, members) && CommitInv(s, h, members) && Rel(c, s) && Enabled(c, e) && AllBounded(c)
    ensures AllBounded(Step(c, e))
  {
    hide Inv, CommitInv, Worked, Latched, ApplyAll, Load, Normalize, Sorted, Plausible, Overruns;
    if e.Tick? {
      var n := c.nodes[e.id];
      PlausibleHere(c, s, h, members, e.id, e.inbox);
      SortedHere(c, s, e.id);
      BoundedTick(n, e);
      ApplyAllBounded(Worked(n, e).(dirty := false));
    } else if e.Start? {
      LoadFacts(c.nodes[e.id], c.disks[e.id]);
    }
  }

  lemma SortedHere(c: State, s: Sys, i: NodeId)
    requires Rel(c, s) && Up(c, i)
    ensures Sorted(c.nodes[i]) && !c.nodes[i].fault
  {
    assert NodeRel(c, s, i);
  }

  lemma {:induction false} AlwaysBounded(r: Run, members: seq<NodeId>, k: nat)
    requires IsRun(r) && AlwaysBased(r, members) && AlwaysTrusted(r) && k < |r.states|
    ensures AllBounded(r.states[k])
  {
    hide Inv, CommitInv, Rel, Trusted, Step, Enabled, AllBounded, Extends, AllRetain, AlwaysBased, AlwaysTrusted;
    if k == 0 {
      StartsBounded(r.states[0]);
    } else {
      AlwaysBounded(r, members, k - 1);
      assert Follows(r, k - 1);
      var s, h, _, _ := Moments(r, members, k - 1, k - 1);
      StepBounded(r.states[k - 1], s, h, members, r.events[k - 1]);
    }
  }

  lemma StartsBounded(c: State)
    requires Initial(c)
    ensures AllBounded(c)
  {
    hide Fresh;
    forall i | i in c.nodes ensures Bounded(c.nodes[i]) {
      FreshFacts(i, c.nodes[i].initial);
    }
  }

  /** In a trusted run no leader ever sends beyond its log. All that can still stop a tick is a refusal of
      the leader's own term from a node that is no longer a peer. */
  lemma TrustedRaises(r: Run, members: seq<NodeId>, k: nat, e: Event)
    requires IsRun(r) && AlwaysBased(r, members) && AlwaysTrusted(r) && k < |r.states| && e.Tick?
    requires Up(r.states[k], e.id) && forall m :: m in e.inbox ==> m in r.states[k].net && m.target == e.id
    ensures !Overruns(r.states[k].nodes[e.id], e)
    ensures Ticks(r.states[k], e) <==> !StrangerIn(r.states[k].nodes[e.id], e.inbox)
  {
    hide Inv, CommitInv, Rel, Trusted, Extends, AllRetain, IsRun, AlwaysBased, AlwaysTrusted, Overruns, StrangerIn, Ticks, Bounded,
         Plausible, Sorted, Latched, Worked;
    var n := r.states[k].nodes[e.id];
    AlwaysBounded(r, members, k);
    var s, h, _, _ := Moments(r, members, k, k);
    PlausibleHere(r.states[k], s, h, members, e.id, e.inbox);
    SortedHere(r.states[k], s, e.id);
    BoundedTick(n, e);
    TicksUnlessItRaises(r, members, k, e);
  }
}
