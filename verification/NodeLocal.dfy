/** What no handler between two dumps does: change the configuration, clear a fault, push the commit
    index past the log, or touch durable state without marking it dirty. */
module NodeLocal {
  import opened RaftTypes
  import opened LogMerge
  import opened NodeSpec

  predicate InWindow(n: Node) {
    n.applied <= n.commit <= |n.log|
  }

  predicate SameDurable(n: Node, n': Node) {
    n'.term == n.term && n'.votedFor == n.votedFor && n'.log == n.log && n'.commit == n.commit
  }

  /** What was applied stays applied, or the application starts over. */
  predicate AppliedKept(n: Node, n': Node)
    requires InWindow(n) && InWindow(n')
  {
    || (n'.applied == n.applied && n'.app == n.app && n'.log[..n.applied] == n.log[..n.applied])
    || (n'.applied == 0 && n'.app == [])
  }

  /** The application commands of a log, in order. */
  function Replay(log: Log): seq<Command> {
    if log == [] then []
    else
      var c := log[|log| - 1].command;
      Replay(log[..|log| - 1]) + if c.AppCommand? then [c] else []
  }

  /** The application has seen exactly the applied entries. */
  predicate Replayed(n: Node) {
    InWindow(n) && n.app == Replay(n.log[..n.applied])
  }

  lemma RoutineReplayed(n: Node, n': Node)
    requires Routine(n, n') && Replayed(n)
    ensures Replayed(n')
  {
    if n'.applied == 0 { assert n'.log[..n'.applied] == []; }
  }

  lemma {:induction false} ReplayPrefix(a: Log, b: Log)
    requires a <= b
    ensures Replay(a) <= Replay(b)
    decreases |b|
  {
    if a != b {
      assert a <= b[..|b| - 1];
      ReplayPrefix(a, b[..|b| - 1]);
    }
  }

  /** A vote is kept for the rest of its term. */
  predicate VoteKept(n: Node, n': Node) {
    n.term < n'.term || (n.term == n'.term && (n.votedFor == None || n'.votedFor == n.votedFor))
  }

  predicate Routine(n: Node, n': Node) {
    && n'.id == n.id && n'.config == n.config && n'.running == n.running
    && n'.threshold == n.threshold && n'.initial == n.initial && n'.peers == n.peers
    && (n.fault ==> n'.fault)
    && (InWindow(n) ==> InWindow(n') && AppliedKept(n, n'))
    && VoteKept(n, n')
    && (!n'.dirty ==> !n.dirty && SameDurable(n, n') && n'.applied == n.applied)
  }

  lemma {:induction false} MergeUnchanged(m: Merged, entries: Log, applied: nat)
    ensures var r := Merge(m, entries, applied);
            && (!r.changed ==> r == m)
            && (r.rebuild || applied > |m.log| || (applied <= |r.log| && r.log[..applied] == m.log[..applied]))
            && (m.rebuild ==> r.rebuild)
    decreases |entries|
  {
    if entries != [] {
      MergeUnchanged(MergeOne(m, entries[0], applied), entries[1..], applied);
    }
  }

  lemma SendAllRoutine(n: Node, peers: seq<NodeId>)
    ensures Routine(n, SendAll(n, peers)) && SameDurable(n, SendAll(n, peers))
    ensures SendAll(n, peers).dirty == n.dirty && SendAll(n, peers).role == n.role && SendAll(n, peers).term == n.term
  {
  }

  lemma AppendedRoutine(n: Node, c: Command)
    ensures Routine(n, Appended(n, c)) && Appended(n, c).role == n.role && Appended(n, c).term == n.term
  {
  }

  lemma AppendLocalRoutine(n: Node, c: Command)
    ensures Routine(n, AppendLocal(n, c)) && AppendLocal(n, c).role == n.role && AppendLocal(n, c).term == n.term
  {
    hide AdvanceCommit, SendAll, Routine, Appended;
    var n1, n2 := Appended(n, c), AdvanceCommit(Appended(n, c));
    AppendedRoutine(n, c);
    AdvanceCommitRoutine(n1);
    SendAllRoutine(n2, n2.peers);
    RoutineTransitive(n, n1, n2);
    RoutineTransitive(n, n2, SendAll(n2, n2.peers));
  }

  lemma RequestVoteRoutine(n: Node, m: Message)
    requires m.RequestVote?
    ensures Routine(n, HandleRequestVote(n, m))
  {
    hide IsVoting, UpToDate, Routine, AnswerVote;
    var n1 := AdoptTerm(n, m.term);
    AdoptTermRoutine(n, m.term);
    AnswerVoteRoutine(n1, m);
    RoutineTransitive(n, n1, AnswerVote(n1, m));
  }

  lemma AnswerVoteRoutine(n: Node, m: Message)
    requires m.RequestVote?
    ensures Routine(n, AnswerVote(n, m))
  {
    hide IsVoting, UpToDate;
  }

  lemma VoteReplyRoutine(n: Node, m: Message)
    requires m.VoteReply?
    ensures Routine(n, HandleVoteReply(n, m))
  {
    hide IsVoting;
  }

  lemma RoutineTransitive(a: Node, b: Node, c: Node)
    requires Routine(a, b) && Routine(b, c)
    ensures Routine(a, c)
  {
  }

  lemma AdoptTermRoutine(n: Node, term: nat)
    ensures Routine(n, AdoptTerm(n, term))
  {
  }

  lemma AdvanceCommitRoutine(n: Node)
    ensures Routine(n, AdvanceCommit(n)) && AdvanceCommit(n).role == n.role && AdvanceCommit(n).term == n.term
  {
  }

  lemma RecordReplyRoutine(n: Node, m: Message)
    requires m.AppendReply?
    ensures Routine(n, RecordReply(n, m))
  {
    hide AdvanceCommit;
    if n.role == Leader && m.term == n.term && m.success {
      var n1 := n.(matchIndex := n.matchIndex[m.source := m.matchIndex], nextIndex := n.nextIndex[m.source := m.matchIndex + 1]);
      AdvanceCommitRoutine(n1);
      RoutineTransitive(n, n1, AdvanceCommit(n1));
    } else if n.role == Leader && m.term == n.term && m.source in n.nextIndex {
      SendToRoutine(n.(nextIndex := n.nextIndex[m.source := BackOff(n.nextIndex[m.source])]), m.source);
    }
  }

  lemma SendToRoutine(n: Node, peer: NodeId)
    ensures Routine(n, SendTo(n, peer)) && SameDurable(n, SendTo(n, peer))
    ensures SendTo(n, peer).dirty == n.dirty && SendTo(n, peer).role == n.role
  {
    hide AppendMessage;
  }

  lemma AppendReplyRoutine(n: Node, m: Message)
    requires m.AppendReply?
    ensures Routine(n, HandleAppendReply(n, m))
  {
    AdoptTermRoutine(n, m.term);
    RecordReplyRoutine(AdoptTerm(n, m.term), m);
    RoutineTransitive(n, AdoptTerm(n, m.term), RecordReply(AdoptTerm(n, m.term), m));
  }

  lemma AcceptRoutine(n: Node, m: Message)
    requires m.AppendEntries? && AcceptsPrevious(n, m)
    ensures Routine(n, AppendFromLeader(n, m))
  {
    MergeUnchanged(Merged(n.log, false, false), m.entries, n.applied);
  }

  lemma AnswerRoutine(n: Node, m: Message)
    requires m.AppendEntries?
    ensures Routine(n, AnswerAppend(n, m))
  {
    var n1 := if m.term == n.term then n.(leader := Some(m.source)) else n;
    if m.term == n.term && AcceptsPrevious(n1, m) {
      AcceptRoutine(n1, m);
    }
  }

  lemma AppendEntriesRoutine(n: Node, m: Message)
    requires m.AppendEntries?
    ensures Routine(n, HandleAppendEntries(n, m))
  {
    AdoptTermRoutine(n, m.term);
    AnswerRoutine(AdoptTerm(n, m.term), m);
    RoutineTransitive(n, AdoptTerm(n, m.term), AnswerAppend(AdoptTerm(n, m.term), m));
  }

  lemma ReceiveRoutine(n: Node, m: Message)
    ensures Routine(n, Receive(n, m))
  {
    if m.AppendReply? { AppendReplyRoutine(n, m); }
  }

  lemma {:induction false} ReceiveAllRoutine(n: Node, inbox: seq<Message>)
    ensures Routine(n, ReceiveAll(n, inbox))
    decreases |inbox|
  {
    if inbox != [] {
      var n1 := Receive(n, inbox[0]);
      ReceiveRoutine(n, inbox[0]);
      ReceiveAllRoutine(n1, inbox[1..]);
      RoutineTransitive(n, n1, ReceiveAll(n1, inbox[1..]));
    }
  }

  lemma {:induction false} AppendAllRoutine(n: Node, commands: seq<Command>)
    ensures Routine(n, AppendAll(n, commands))
    decreases |commands|
  {
    if commands != [] {
      var n1 := AppendLocal(n, commands[0]);
      AppendLocalRoutine(n, commands[0]);
      AppendAllRoutine(n1, commands[1..]);
      RoutineTransitive(n, n1, AppendAll(n1, commands[1..]));
    }
  }

  lemma LatchRoutine(n: Node, inbox: seq<Message>, commands: seq<Command>)
    ensures Routine(n, Latch(n, inbox, commands))
  {
    ReceiveAllRoutine(n, inbox);
    AppendAllRoutine(ReceiveAll(n, inbox), commands);
  }

  lemma TakeRoutine(n: Node)
    requires Sorted(n)
    ensures n.appends != [] ==> Routine(n, TakeAppend(n))
    ensures n.voteRequests != [] ==> Routine(n, TakeVoteRequest(n))
    ensures n.voteReplies != [] ==> Routine(n, TakeVoteReply(n))
  {
    if n.appends != [] { TakeAppendRoutine(n); }
    if n.voteRequests != [] { TakeVoteRequestRoutine(n); }
    if n.voteReplies != [] { TakeVoteReplyRoutine(n); }
  }

  lemma TakeAppendRoutine(n: Node)
    requires Sorted(n) && n.appends != []
    ensures Routine(n, TakeAppend(n))
  {
    AppendEntriesRoutine(n.(appends := n.appends[1..]), n.appends[0]);
  }

  lemma TakeVoteRequestRoutine(n: Node)
    requires Sorted(n) && n.voteRequests != []
    ensures Routine(n, TakeVoteRequest(n))
  {
    RequestVoteRoutine(n.(voteRequests := n.voteRequests[1..]), n.voteRequests[0]);
  }

  lemma TakeVoteReplyRoutine(n: Node)
    requires Sorted(n) && n.voteReplies != []
    ensures Routine(n, TakeVoteReply(n))
  {
    VoteReplyRoutine(n.(voteReplies := n.voteReplies[1..]), n.voteReplies[0]);
  }

  lemma BecomeLeaderRoutine(n: Node)
    ensures Routine(n, BecomeLeader(n)) && Routine(n, Broadcast(n))
  {
    var n1 := n.(leader := Some(n.id), nextIndex := map p | p in n.peers :: |n.log| + 1,
                 matchIndex := (map p | p in n.peers :: 0)[n.id := |n.log|]);
    SendAllRoutine(n1, n1.peers);
    SendAllRoutine(n, n.peers);
  }

  lemma RoleStepRoutine(n: Node, clock: Clock)
    requires Sorted(n)
    ensures Routine(n, RoleStep(n, clock))
  {
    match n.role
    case Follower =>
      FollowerRoutine(n, clock);
    case Candidate =>
      CandidateRoutine(n, clock);
    case Leader =>
      LeaderRoutine(n, clock);
  }

  lemma StandRoutine(n: Node)
    ensures Routine(n, BecomeCandidate(n.(role := Candidate)))
  {
    hide BallotRequests;
  }

  lemma PoppedRoutine(n: Node)
    requires n.voteReplies != []
    ensures Routine(n, n.(voteReplies := n.voteReplies[1..])) && Routine(n, n)
  {
  }

  lemma FollowerRoutine(n: Node, clock: Clock)
    requires Sorted(n) && n.role == Follower
    ensures Routine(n, RoleStep(n, clock))
  {
    hide TimedOut, TakeAppend, TakeVoteRequest, TakeVoteReply, BecomeLeader, BecomeCandidate, ConfigQuorum, SendAll;
    if TimedOut(n, clock) {
      StandRoutine(n);
    } else if n.appends != [] {
      TakeAppendRoutine(n);
    } else if n.voteRequests != [] {
      TakeVoteRequestRoutine(n);
    } else if n.voteReplies != [] {
      PoppedRoutine(n);
    }
    hide Sorted;
  }

  lemma CandidateRoutine(n: Node, clock: Clock)
    requires Sorted(n) && n.role == Candidate
    ensures Routine(n, RoleStep(n, clock))
  {
    hide IsVoting, BecomeLeader, TakeAppend, TakeVoteRequest, TakeVoteReply;
    if TimedOut(n, clock) {
    } else if ConfigQuorum(n.votes, n.config) {
      BecomeLeaderRoutine(n.(role := Leader));
    } else {
      DemotableRoutine(n);
    }
  }

  lemma LeaderRoutine(n: Node, clock: Clock)
    requires Sorted(n) && n.role == Leader
    ensures Routine(n, RoleStep(n, clock))
  {
    hide BecomeLeader, TakeAppend, TakeVoteRequest;
    if n.appends == [] && n.voteRequests == [] {
      BecomeLeaderRoutine(n);
    } else {
      DemotableRoutine(n);
    }
  }

  lemma DemotableRoutine(n: Node)
    requires Sorted(n)
    ensures n.appends != [] ==> Routine(n, TakeAppend(n.(role := Follower)))
    ensures n.voteRequests != [] ==>
              Routine(n, TakeVoteRequest(if n.voteRequests[0].term > n.term then n.(role := Follower) else n))
    ensures n.voteReplies != [] ==> Routine(n, TakeVoteReply(n))
  {
    TakeRoutine(n);
    TakeRoutine(n.(role := Follower));
  }

  lemma ChangeRoutine(n: Node, members: seq<NodeId>)
    ensures Routine(n, BeginChange(n, members)) && Routine(n, FinalizeChange(n, members))
    ensures BeginChange(n, members).term == FinalizeChange(n, members).term == n.term
  {
    hide AppendLocal, Routine;
    var n1 := n.(membership := JointPending, target := Some(members), jointIndex := |n.log| + 1, outbox := []);
    var n2 := n.(membership := Finalizing, finalIndex := |n.log| + 1);
    PendingRoutine(n, n1);
    PendingRoutine(n, n2);
    AppendLocalRoutine(n1, EnterJoint(members));
    AppendLocalRoutine(n2, LeaveJoint(members));
    RoutineTransitive(n, n1, AppendLocal(n1, EnterJoint(members)));
    RoutineTransitive(n, n2, AppendLocal(n2, LeaveJoint(members)));
  }

  /** The bookkeeping of a membership change. */
  lemma PendingRoutine(n: Node, n': Node)
    requires n' == n.(membership := n'.membership, requested := n'.requested, requestPending := n'.requestPending,
                      target := n'.target, jointIndex := n'.jointIndex, finalIndex := n'.finalIndex, outbox := n'.outbox)
    ensures Routine(n, n')
  {
  }

  lemma MembershipStepRoutine(n: Node)
    ensures Routine(n, MembershipStep(n)) && MembershipStep(n).term == n.term
  {
    hide BeginChange, FinalizeChange, CaughtUp, Routine;
    if n.membership == Stable && HasChangeRequest(n) {
      ChangeRoutine(n, n.requested.value);
    } else if n.membership == Joint && CanFinalize(n) {
      ChangeRoutine(n, n.target.value);
    } else {
      NoChange(n);
      PendingRoutine(n, n);
      PendingRoutine(n, n.(membership := Joint));
      PendingRoutine(n, ChangeDone(n));
    }
  }

  /** Without a membership entry to append, only the bookkeeping of a change moves on. */
  lemma NoChange(n: Node)
    requires !(n.membership == Stable && HasChangeRequest(n)) && !(n.membership == Joint && CanFinalize(n))
    ensures var w := MembershipStep(n); w == n || w == n.(membership := Joint) || w == ChangeDone(n)
  {
    hide BeginChange, FinalizeChange, HasChangeRequest, CanFinalize, ChangeDone;
  }
}
