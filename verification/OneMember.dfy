/** A cluster of one member, with any number of nodes beside it that are no members: as long as no node
    is joint, every run is trusted, whatever crashes between its files. */
module OneMember {
  import opened RaftTypes
  import opened Protocol
  import opened ProtocolSteps
  import opened Members
  import opened NodeSpec
  import opened NodeLocal
  import opened Refinement
  import opened TickRefinement
  import opened Cluster
  import opened ClusterSafety
  import opened RunProofs
  import opened ClusterTheorems

  predicate Unjoined(c: State) {
    forall i :: i in c.nodes && c.nodes[i].running ==> c.nodes[i].config.joint == None
  }

  predicate AlwaysUnjoined(r: Run) {
    forall k: nat {:trigger Unjoined(r.states[k])} :: k < |r.states| ==> Unjoined(r.states[k])
  }

  /** Every entry is the member's own; other nodes have none. */
  predicate OwnLog(log: Log, id: NodeId, i: NodeId) {
    (id != i ==> log == []) && forall k :: 0 <= k < |log| ==> log[k].creator == i
  }

  predicate AboutVotes(m: Message) {
    m.RequestVote? || m.VoteReply?
  }

  /** Nobody replicates to anybody, and only the member i ever stands or leads. */
  predicate Lone(n: Node, i: NodeId) {
    && n.appends == [] && n.peers == PeersOf(n.config, n.id) && OwnLog(n.log, n.id, i)
    && (n.id != i ==> n.role == Follower)
    && forall m :: m in n.outbox ==> AboutVotes(m)
  }

  predicate Single(n: Node, i: NodeId) {
    n.config.current == [i] && n.config.joint == None
  }

  /** What the phases of a tick before the dump do to such a node. */
  predicate Goes(n: Node, n': Node, i: NodeId) {
    Lone(n', i) && n'.id == n.id && n'.config == n.config && n.log <= n'.log
  }

  lemma NoPeers(n: Node, i: NodeId)
    requires Lone(n, i) && Single(n, i)
    ensures n.id == i ==> n.peers == []
    ensures IsVoting(n) ==> n.id == i
  {
    assert AllMembers(n.config) == [i];
    if n.id == i {
      assert [i][0] == i && [i][1..] == [];
      assert Without([i], [i]) == Without([i][1..], [i]);
    }
  }

  lemma {:induction false} ReceiveAllLone(n: Node, i: NodeId, inbox: seq<Message>)
    requires Lone(n, i) && forall m :: m in inbox ==> AboutVotes(m)
    ensures Goes(n, ReceiveAll(n, inbox), i)
    decreases |inbox|
  {
    if inbox != [] {
      assert AboutVotes(inbox[0]);
      ReceiveAllLone(Receive(n, inbox[0]), i, inbox[1..]);
    }
  }

  lemma SendNobody(n: Node)
    requires n.peers == []
    ensures Broadcast(n) == n
  {
    assert AppendMessages(n, []) == [];
  }

  lemma AppendLocalLone(n: Node, i: NodeId, c: Command)
    requires Lone(n, i) && Single(n, i) && n.role == Leader
    ensures Goes(n, AppendLocal(n, c), i) && AppendLocal(n, c).role == Leader
  {
    NoPeers(n, i);
    hide PeersOf, CommitScan, SendAll;
    SendNobody(AdvanceCommit(Appended(n, c)));
  }

  lemma {:induction false} AppendAllLone(n: Node, i: NodeId, commands: seq<Command>)
    requires Lone(n, i) && Single(n, i) && n.role == Leader
    ensures Goes(n, AppendAll(n, commands), i)
    decreases |commands|
  {
    if commands != [] {
      AppendLocalLone(n, i, commands[0]);
      hide AppendLocal, PeersOf;
      AppendAllLone(AppendLocal(n, commands[0]), i, commands[1..]);
    }
  }

  lemma LatchLone(n: Node, i: NodeId, e: Event)
    requires (e.Tick? || e.TornTick?) && Lone(n, i) && Single(n, i) && forall m :: m in e.inbox ==> AboutVotes(m)
    ensures Goes(n, Latched(n, e), i)
  {
    hide AppendAll, ReceiveAll, PeersOf;
    ReceiveAllLone(n, i, e.inbox);
    var n1 := ReceiveAll(n, e.inbox);
    if n1.role == Leader { AppendAllLone(n1, i, e.commands); }
  }

  lemma AdoptLone(n: Node, i: NodeId, term: nat)
    requires Lone(n, i)
    ensures Goes(n, AdoptTerm(n, term), i)
  {
    hide PeersOf, OwnLog;
  }

  lemma AnswerVoteLone(n: Node, i: NodeId, m: Message)
    requires Lone(n, i) && m.RequestVote?
    ensures Goes(n, AnswerVote(n, m), i)
  {
    hide PeersOf, OwnLog, Grants;
  }

  lemma VoteRequestLone(n: Node, i: NodeId)
    requires Lone(n, i) && Sorted(n) && n.voteRequests != []
    ensures Goes(n, TakeVoteRequest(n), i)
  {
    SortedHead(n);
    var n1 := n.(voteRequests := n.voteRequests[1..]);
    AdoptLone(n1, i, n.voteRequests[0].term);
    AnswerVoteLone(AdoptTerm(n1, n.voteRequests[0].term), i, n.voteRequests[0]);
    hide PeersOf, AdoptTerm, AnswerVote, Sorted, OwnLog;
  }

  lemma SortedHead(n: Node)
    requires Sorted(n)
    ensures n.voteRequests != [] ==> n.voteRequests[0].RequestVote?
    ensures n.voteReplies != [] ==> n.voteReplies[0].VoteReply?
  {
  }

  lemma VoteReplyLone(n: Node, i: NodeId)
    requires Lone(n, i) && Sorted(n) && n.voteReplies != []
    ensures Goes(n, TakeVoteReply(n), i)
  {
    SortedHead(n);
    var n1 := n.(voteReplies := n.voteReplies[1..]);
    AdoptLone(n1, i, n.voteReplies[0].term);
    hide PeersOf, IsVoting, Sorted, OwnLog, AdoptTerm;
  }

  lemma CandidateLone(n: Node, i: NodeId)
    requires Lone(n, i) && Single(n, i) && n.id == i
    ensures Goes(n, BecomeCandidate(n.(role := Candidate)), i) && Goes(n, BecomeLeader(n.(role := Leader)), i)
  {
    NoPeers(n, i);
    hide PeersOf, SendAll, OwnLog;
    assert BallotRequests(Standing(n.(role := Candidate)), []) == [];
    SendNobody(Enthroned(n.(role := Leader)));
  }

  lemma BroadcastLone(n: Node, i: NodeId)
    requires Lone(n, i) && Single(n, i) && n.role == Leader
    ensures Goes(n, Broadcast(n), i)
  {
    NoPeers(n, i);
    SendNobody(n);
  }

  lemma RoleStepLone(n: Node, i: NodeId, clock: Clock)
    requires Lone(n, i) && Single(n, i) && Sorted(n)
    ensures Goes(n, RoleStep(n, clock), i)
  {
    hide PeersOf, BecomeCandidate, BecomeLeader, TakeVoteRequest, TakeVoteReply, SendAll, ConfigQuorum, OwnLog, TakeAppend;
    NoPeers(n, i);
    if n.role != Leader && TimedOut(n, clock) {
      if n.role == Follower { CandidateLone(n, i); }
    } else if n.role == Candidate && ConfigQuorum(n.votes, n.config) {
      CandidateLone(n, i);
    } else {
      QueueLone(n, i, clock);
    }
  }

  lemma QueueLone(n: Node, i: NodeId, clock: Clock)
    requires Lone(n, i) && Single(n, i) && Sorted(n) && (n.role != Leader ==> !TimedOut(n, clock))
    requires n.role == Candidate ==> !ConfigQuorum(n.votes, n.config)
    ensures Goes(n, RoleStep(n, clock), i)
  {
    hide PeersOf, BecomeCandidate, BecomeLeader, TakeVoteRequest, TakeVoteReply, SendAll, ConfigQuorum, OwnLog, TakeAppend, TimedOut, Sorted;
    if n.voteRequests != [] {
      VoteRequestLone(n, i);
      DemotedLone(n, i);
    } else if n.voteReplies != [] {
      VoteReplyLone(n, i);
    } else if n.role == Leader {
      BroadcastLone(n, i);
    }
  }

  lemma DemotedLone(n: Node, i: NodeId)
    requires Lone(n, i) && Sorted(n) && n.voteRequests != []
    ensures Goes(n, TakeVoteRequest(n.(role := Follower)), i)
  {
    hide PeersOf, TakeVoteRequest, OwnLog;
    VoteRequestLone(n.(role := Follower), i);
  }

  lemma MembershipStepLone(n: Node, i: NodeId)
    requires Lone(n, i) && Single(n, i)
    ensures Goes(n, MembershipStep(n), i)
  {
    hide PeersOf, CaughtUp, OwnLog, AppendLocal;
    if n.membership == Stable && HasChangeRequest(n) {
      AppendLocalLone(n.(membership := JointPending, target := Some(n.requested.value), jointIndex := |n.log| + 1, outbox := []), i,
                      EnterJoint(n.requested.value));
    }
  }

  lemma WorkLone(n: Node, i: NodeId, e: Event)
    requires (e.Tick? || e.TornTick?) && Lone(n, i) && Single(n, i) && forall m :: m in e.inbox ==> AboutVotes(m)
    requires Sorted(Latched(n, e))
    ensures Latched(n, e).appends == [] && Goes(n, Worked(n, e), i)
  {
    hide PeersOf, RoleStep, MembershipStep, OwnLog, Latched, Sorted;
    LatchLone(n, i, e);
    RoleStepLone(Latched(n, e), i, e.clock);
    MembershipStepLone(RoleStep(Latched(n, e), e.clock), i);
  }

  lemma RefreshLone(n: Node, i: NodeId)
    requires n.appends == [] && OwnLog(n.log, n.id, i) && (n.id != i ==> n.role == Follower)
    requires forall m :: m in n.outbox ==> AboutVotes(m)
    ensures Lone(RefreshPeers(n), i)
  {
    hide PeersOf, OwnLog;
  }

  lemma AppliedLone(n: Node, i: NodeId, n': Node)
    requires Lone(n, i)
    requires n'.id == n.id && n'.config == n.config && n'.peers == n.peers && n'.log == n.log && n'.role == n.role
    requires n'.appends == n.appends && n'.outbox == n.outbox
    ensures Lone(n', i)
  {
    hide PeersOf, OwnLog;
  }

  lemma HaltLone(n: Node, i: NodeId)
    requires Lone(n, i)
    ensures Lone(Halt(n), i) && Halt(n).id == n.id
  {
    hide PeersOf, OwnLog;
  }

  lemma RefreshedLone(n: Node, i: NodeId, members: seq<NodeId>)
    requires Lone(n, i)
    ensures Lone(RefreshPeers(JointWith(n, members)), i) && Lone(RefreshPeers(StableWith(n, members)), i)
    ensures RefreshPeers(JointWith(n, members)).id == RefreshPeers(StableWith(n, members)).id == n.id
  {
    RefreshLone(JointWith(n, members), i);
    RefreshLone(StableWith(n, members), i);
    RefreshFacts(JointWith(n, members));
    RefreshFacts(StableWith(n, members));
    hide RefreshPeers, OwnLog, JointConfig, StableConfig, PeersOf;
  }

  lemma ApplyCommandLone(n: Node, i: NodeId, c: Command)
    requires Lone(n, i)
    ensures Lone(ApplyCommand(n, c), i) && ApplyCommand(n, c).id == n.id
  {
    hide IsVoting, Normalize, RefreshPeers, JointWith, StableWith, Lone, Halt;
    match c
    case EnterJoint(members) =>
      RefreshedLone(n, i, Normalize(members));
    case LeaveJoint(members) =>
      RefreshedLone(n, i, Normalize(members));
      HaltLone(RefreshPeers(StableWith(n, Normalize(members))), i);
    case SetMaxLog(_) =>
      AppliedLone(n, i, ApplyCommand(n, c));
    case AppCommand(_, _, _) =>
      AppliedLone(n, i, ApplyCommand(n, c));
  }

  lemma ApplyNextLone(n: Node, i: NodeId)
    requires Lone(n, i) && n.applied < n.commit <= |n.log|
    ensures Lone(ApplyNext(n), i) && ApplyNext(n).id == n.id
  {
    hide ApplyCommand, Lone;
    var n1 := n.(applied := n.applied + 1);
    AppliedLone(n, i, n1);
    ApplyCommandLone(n1, i, n1.log[n1.applied - 1].command);
  }

  lemma {:induction false} ApplyAllLone(n: Node, i: NodeId)
    requires Lone(n, i) && InWindow(n)
    ensures Lone(ApplyAll(n), i)
    decreases n.commit - n.applied
  {
    if n.applied < n.commit {
      ApplyNextLone(n, i);
      hide Lone, ApplyNext;
      ApplyAllLone(ApplyNext(n), i);
    }
  }

  // ---- Runs ----

  /** All of the above, of one node and its disk. */
  predicate Quiet(c: State, i: NodeId, j: NodeId)
    requires j in c.nodes && j in c.disks
  {
    c.nodes[j].id == j && OwnLog(LogOf(c, j), j, i) && (c.nodes[j].running ==> Lone(c.nodes[j], i))
  }

  ghost predicate Solitary(c: State, i: NodeId) {
    && (forall m :: m in c.net ==> AboutVotes(m))
    && c.nodes.Keys == c.disks.Keys
    && forall j {:trigger Quiet(c, i, j)} :: j in c.nodes ==> Quiet(c, i, j)
  }

  lemma LoadLone(n: Node, disk: Disk, i: NodeId)
    requires OwnLog(DurableLog(disk), n.id, i)
    ensures Lone(Load(n, disk), i) && Load(n, disk).id == n.id && Load(n, disk).log == DurableLog(disk) && Load(n, disk).running
  {
    hide Normalize, AllMembers, Without, OwnLog;
  }

  lemma FreshLone(j: NodeId, initial: seq<NodeId>, i: NodeId)
    ensures var n := Fresh(j, initial); Lone(n, i) && n.id == j && n.running && n.log == []
  {
    hide Load, Lone, StableConfig;
    LoadLone(Node(j, initial, true, Follower, 0, None, [], 0, 0, None, {}, StableConfig(initial, 0), [], map[], map[],
                  [], [], [], [], None, false, None, 0, 0, Stable, DEFAULT_THRESHOLD, [], false, false), NO_DISK, i);
  }

  lemma StartsSolitary(c: State, i: NodeId)
    requires Initial(c)
    ensures Solitary(c, i)
  {
    hide Lone, Fresh;
    forall j | j in c.nodes ensures Quiet(c, i, j) {
      FreshLone(j, c.nodes[j].initial, i);
    }
  }

  predicate SingleHere(c: State, i: NodeId) {
    Based(c, [i]) && Unjoined(c)
  }

  /** Disks of running nodes hold their logs; without a meta file there is no log. */
  ghost predicate InStep(c: State) {
    && c.nodes.Keys == c.disks.Keys
    && forall j :: j in c.nodes ==> DurableLog(c.disks[j]) == LogOf(c, j) && (c.disks[j].meta.None? ==> c.disks[j].log == [])
  }

  lemma RelInStep(c: State, s: Sys)
    requires Rel(c, s)
    ensures InStep(c)
  {
    forall j | j in c.nodes ensures DurableLog(c.disks[j]) == LogOf(c, j) && (c.disks[j].meta.None? ==> c.disks[j].log == []) {
      assert NodeRel(c, s, j);
    }
  }

  /** One node acts; the others are as they were. */
  lemma OneActs(c: State, i: NodeId, e: Event)
    requires Solitary(c, i) && Enabled(c, e)
    requires c.nodes.Keys == Step(c, e).nodes.Keys == Step(c, e).disks.Keys
    requires forall j :: j in c.nodes && j != e.id ==> Step(c, e).nodes[j] == c.nodes[j] && Step(c, e).disks[j] == c.disks[j]
    requires forall m :: m in Step(c, e).net ==> AboutVotes(m)
    requires Quiet(Step(c, e), i, e.id)
    ensures Solitary(Step(c, e), i)
  {
    hide Step, OwnLog, Lone, AboutVotes, Enabled;
    forall j | j in c.nodes ensures Quiet(Step(c, e), i, j) {
      assert Quiet(c, i, j);
    }
  }

  lemma TickSolitary(c: State, i: NodeId, e: Event)
    requires Solitary(c, i) && SingleHere(c, i) && e.Tick? && Enabled(c, e)
    requires e.id in Step(c, e).disks && DurableLog(Step(c, e).disks[e.id]) == Worked(c.nodes[e.id], e).log
    ensures Solitary(Step(c, e), i)
  {
    hide Worked, Latched, Sorted, ApplyAll, OwnLog, PeersOf, DurableLog, AboutVotes;
    var n := c.nodes[e.id];
    assert Quiet(c, i, e.id);
    WorkLone(n, i, e);
    var w := Worked(n, e).(dirty := false);
    ApplyAllLone(w, i);
    ApplyAllId(w);
    OneActs(c, i, e);
  }

  lemma {:induction false} ApplyAllId(n: Node)
    requires InWindow(n)
    ensures ApplyAll(n).id == n.id && ApplyAll(n).log == n.log
    decreases n.commit - n.applied
  {
    if n.applied < n.commit {
      ApplyNextFacts(n);
      ApplyAllId(ApplyNext(n));
    }
  }

  lemma OtherSolitary(c: State, i: NodeId, e: Event)
    requires Solitary(c, i) && InStep(c) && !e.Tick? && Enabled(c, e)
    ensures Solitary(Step(c, e), i)
  {
    hide Worked, Latched, Sorted, OwnLog, PeersOf, Load, Normalize, AboutVotes;
    assert Quiet(c, i, e.id);
    if e.Start? { LoadLone(c.nodes[e.id], c.disks[e.id], i); }
    OneActs(c, i, e);
  }

  lemma {:induction false} AlwaysSolitary(r: Run, i: NodeId, k: nat)
    requires IsRun(r) && AlwaysBased(r, [i]) && AlwaysUnjoined(r) && k < |r.states|
    ensures Solitary(r.states[k], i) && InStep(r.states[k]) && SingleHere(r.states[k], i)
  {
    hide Initial, Step, Enabled, Solitary, Inv, Rel, InStep, CommitInv, Extends, AllRetain, AlwaysTrusted, Based, Unjoined;
    assert Based(r.states[k], [i]) && Unjoined(r.states[k]);
    var s, _, _, _ := Moments(r, [i], k, k);
    RelInStep(r.states[k], s);
    if k == 0 {
      StartsSolitary(r.states[0], i);
    } else {
      AlwaysSolitary(r, i, k - 1);
      assert Follows(r, k - 1);
      var before, _, _, _ := Moments(r, [i], k - 1, k - 1);
      StepSolitary(r.states[k - 1], before, i, r.events[k - 1]);
    }
  }

  lemma StepSolitary(c: State, s: Sys, i: NodeId, e: Event)
    requires Rel(c, s) && Solitary(c, i) && InStep(c) && SingleHere(c, i) && Enabled(c, e)
    ensures Solitary(Step(c, e), i)
  {
    hide Rel, Solitary, InStep, SingleHere, Enabled, Step, Worked;
    if e.Tick? {
      SavedLog(c, s, e);
      TickSolitary(c, i, e);
    } else {
      OtherSolitary(c, i, e);
    }
  }

  /** With one member and no joint phase there is nothing to trust: no reply is ever asked for, and a torn
      save cuts off only entries nobody has seen. So all safety theorems hold of such a cluster as they stand. */
  lemma OneMemberTrusted(r: Run, i: NodeId)
    requires IsRun(r) && AlwaysBased(r, [i]) && AlwaysUnjoined(r)
    ensures AlwaysTrusted(r)
  {
    hide Initial, Step, Enabled, Solitary, InStep, SingleHere, Trusted;
    forall k: nat | k < |r.events| && Follows(r, k) ensures Trusted(r, k) {
      AlwaysSolitary(r, i, k);
      EventTrusted(r, i, k);
    }
  }

  /** So committed logs never disagree there, with no hypothesis on replies or saves at all. */
  lemma OneMemberSafety(r: Run, i: NodeId, j: nat, k: nat, a: NodeId, b: NodeId)
    requires IsRun(r) && AlwaysBased(r, [i]) && AlwaysUnjoined(r) && j <= k < |r.states| && Up(r.states[j], a) && Up(r.states[k], b)
    ensures Replayed(r.states[j].nodes[a]) && Replayed(r.states[k].nodes[b])
    ensures var x, y := CommittedLog(r.states[j], a), CommittedLog(r.states[k], b); x <= y || y <= x
  {
    hide IsRun, AlwaysBased, AlwaysUnjoined, AlwaysTrusted, Up;
    OneMemberTrusted(r, i);
    StateMachineSafety(r, [i], j, k, a, b);
  }

  lemma EventTrusted(r: Run, i: NodeId, k: nat)
    requires k < |r.events| && |r.states| == |r.events| + 1 && Follows(r, k)
    requires Solitary(r.states[k], i) && InStep(r.states[k]) && SingleHere(r.states[k], i)
    ensures Trusted(r, k)
  {
    hide Worked, Latched, Sorted, PeersOf, TornSafe, Step;
    var c, e := r.states[k], r.events[k];
    assert Quiet(c, i, e.id);
    if e.Tick? || e.TornTick? { WorkLone(c.nodes[e.id], i, e); }
    if e.TornTick? { TearTrusted(r, i, k, e); }
  }

  lemma TearTrusted(r: Run, i: NodeId, k: nat, e: Event)
    requires k < |r.states| && Solitary(r.states[k], i) && InStep(r.states[k]) && e.TornTick? && Enabled(r.states[k], e)
    requires r.states[k].nodes[e.id].log <= Worked(r.states[k].nodes[e.id], e).log
    ensures TornSafe(r, k, e)
  {
    hide Worked, Latched, Sorted, PeersOf, Lone, CommitsAlone;
    var c := r.states[k];
    assert Quiet(c, i, e.id);
    var log, kept := DurableLog(c.disks[e.id]), TornLog(c, e);
    if kept != [] { assert CoveredBy(r, k, e.id, |log|); }
  }
}
