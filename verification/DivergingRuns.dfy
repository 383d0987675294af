/** Why commit safety needs its two hypotheses: two runs of a three node cluster, one with a success
    reply that is not honest and one with a save that is torn, after which two nodes have committed
    different entries at one index; a run within both hypotheses that commits an entry; and a run that
    leaves a leader unable to send. */
module DivergingRuns {
  import opened RaftTypes
  import opened Quorum
  import opened LogMerge
  import opened NodeSpec
  import opened NodeLocal
  import opened Refinement
  import opened TickRefinement
  import opened Members
  import opened Cluster
  import opened ClusterSafety
  import opened RunProofs
  import opened TickFaults
  import opened ThreeNodeRuns

  // ---- Two leaders, one unreplicated entry ----

  const START := State(map i | i in IdSet(IDS) :: FreshMember(i), map i | i in IdSet(IDS) :: NO_DISK, {})

  function FreshMember(i: NodeId): Node {
    Node(i, IDS, true, Follower, 0, None, [], 0, 0, None, {}, Configuration(IDS, None, 0), Without(IDS, [i]),
         map p | p in Without(IDS, [i]) :: 1, map p | p in Without(IDS, [i]) :: 0,
         [], [], [], [], None, false, None, 0, 0, Stable, DEFAULT_THRESHOLD, [], false, false)
  }

  lemma FreshIs(i: NodeId)
    ensures Fresh(i, IDS) == FreshMember(i)
  {
    ThreeIds();
    hide Normalize, Without;
  }

  lemma StartInitial()
    ensures Initial(START)
  {
    forall i | i in START.nodes ensures START.nodes[i] == Fresh(i, START.nodes[i].initial) {
      FreshIs(i);
    }
  }

  lemma StartNodes()
    ensures Based(START, IDS) && START.nodes.Keys == IdSet(IDS)
    ensures forall i :: i in IDS ==> i in START.nodes && START.nodes[i] == FreshMember(i)
  {
    assert forall i :: i in IDS ==> i in IdSet(IDS);
    hide Without;
  }

  lemma StartReachable() returns (g: State)
    ensures Reachable(g, true, true) && forall i :: i in IDS ==> i in g.nodes && g.nodes[i] == FreshMember(i)
  {
    hide *;
    StartInitial();
    StartNodes();
    g := START;
    RunOfNothing(g);
  }

  lemma RunOfNothing(g: State)
    requires Initial(g) && Based(g, IDS) && g.nodes.Keys == IdSet(IDS)
    ensures Reachable(g, true, true)
  {
    var r := Run([g], []);
    assert g.disks.Keys == g.nodes.Keys;
    RunOfOne(g);
    hide Initial, Based, IDS, IdSet, IsRun, AlwaysBased, AlwaysHonest;
    assert EndsIn(r, g, true, true);
  }

  lemma RunOfOne(g: State)
    requires Initial(g) && Based(g, IDS)
    ensures var r := Run([g], []); IsRun(r) && AlwaysBased(r, IDS) && AlwaysHonest(r)
  {
    hide Initial, Based, Enabled, Step, HonestStep, Latched;
  }

  /** The three ids under other names. */
  predicate Three(a: NodeId, b: NodeId, c: NodeId) {
    a in IDS && b in IDS && c in IDS && a != b && a != c && b != c
  }

  const X := AppCommand("set", "x", Some("1"))
  const Y := AppCommand("set", "y", Some("2"))
  const Z := AppCommand("set", "z", Some("3"))

  lemma FirstReign(a: NodeId, b: NodeId, c: NodeId) returns (g: State)
    requires Three(a, b, c)
    ensures Reachable(g, true, true) && a in g.nodes && b in g.nodes && c in g.nodes
    ensures g.nodes[a] == FreshMember(a) && g.nodes[b] == Proposed(Elected(FreshMember(b), c), X)
    ensures g.nodes[c] == Voted(FreshMember(c), 1, b)
  {
    hide Reachable, Without, AppendMessages, AppendMessage, IDS;
    var g0 := StartReachable();
    SoleElected(FreshMember(b), c);
    var g1 := Elect(g0, true, true, b, c);
    g := Propose(g1, true, true, b, X);
  }

  /** b led term 1 and kept its entry to itself; c leads term 2, elected by a. */
  lemma SecondReign(a: NodeId, b: NodeId, c: NodeId) returns (g: State)
    requires Three(a, b, c)
    ensures Reachable(g, true, true) && a in g.nodes && b in g.nodes && c in g.nodes
    ensures g.nodes[a] == Voted(FreshMember(a), 2, c) && g.nodes[b] == Proposed(Elected(FreshMember(b), c), X)
    ensures g.nodes[c] == Elected(Voted(FreshMember(c), 1, b), a)
    ensures AppendEntries(2, c, b, 0, 0, "", [], 0) in g.net
  {
    hide Reachable, Without, AppendMessage, IDS;
    FirstMessage(Voted(FreshMember(c), 1, b), a, b);
    var g2 := FirstReign(a, b, c);
    g := Elect(g2, true, true, c, a);
  }

  lemma FirstMessage(n: Node, j: NodeId, p: NodeId)
    requires n.log == [] && n.commit == 0
    ensures AppendMessage(Elected(n, j), p, 1) == AppendEntries(n.term + 1, n.id, p, 0, 0, "", [], 0)
  {
  }

  lemma SoleElected(n: Node, j: NodeId)
    requires Quiet(n)
    ensures Sole(Elected(n, j))
  {
    hide Without;
  }

  // ---- First run: a torn save ----

  /** A log of at most one entry, not in conflict only if empty, becomes the one entry sent. */
  lemma MergeSingle(log: Log, f: Entry)
    requires f.index == 1 && |log| <= 1 && (log == [] || log[0].term != f.term)
    ensures Merge(Merged(log, false, false), [f], 0) == Merged([f], false, true)
  {
    var m := Merged(log, false, false);
    assert [f][0] == f && [f][1..] == [];
    assert MergeOne(m, f, 0) == Merged([f], false, true);
    assert Merge(MergeOne(m, f, 0), [], 0) == MergeOne(m, f, 0);
  }

  predicate SingleFor(n: Node, m: Message, f: Entry) {
    && |n.log| <= 1 && n.commit == n.applied == 0 && (n.log == [] || n.log[0].term != f.term) && f.index == 1
    && m.AppendEntries? && m.prevIndex == 0 && m.entries == [f] && m.leaderCommit <= 1
  }

  lemma AppendSingle(n: Node, m: Message, f: Entry)
    requires SingleFor(n, m, f)
    ensures AcceptsPrevious(n, m)
    ensures var w := AppendFromLeader(n, m);
            w.log == [f] && w.commit == m.leaderCommit && w.applied == 0 && w.config == n.config && w.fault == n.fault && w.dirty
  {
    MergeSingle(n.log, f);
    hide Merge;
  }

  /** A node with at most one entry, none applied, takes the leader's single entry. */
  lemma TakeSingle(n: Node, m: Message, f: Entry)
    requires SingleFor(n, m, f) && m.term >= n.term
    ensures var w := HandleAppendEntries(n, m);
            w.log == [f] && w.commit == m.leaderCommit && w.applied == 0 && w.config == n.config && w.fault == n.fault && w.dirty
  {
    var n1 := AdoptTerm(n, m.term).(leader := Some(m.source));
    AppendSingle(n1, m, f);
    hide AppendFromLeader, AcceptsPrevious;
  }

  /** An empty follower can take its leader's whole log. */
  predicate Takes(n: Node, m: Message) {
    && Quiet(n) && n.role == Follower && n.log == [] && n.commit == 0
    && m.AppendEntries? && m.term == n.term && m.prevIndex == 0 && Indexed(m.entries) && m.leaderCommit == 0
  }

  lemma TakeAll(n: Node, m: Message)
    requires Takes(n.(appends := []), m)
    ensures Merge(Merged(n.log, false, false), m.entries, n.applied) == Merged(m.entries, false, m.entries != [])
    ensures AcceptsPrevious(n, m) && Honest(n, m)
  {
    assert m.entries[0..|m.entries|] == m.entries && m.entries[..|m.entries|] == m.entries;
    MergeExtends(Merged([], false, false), m.entries, 0, |m.entries|, 0);
    hide Merge, Without;
  }

  lemma AcceptWork(n: Node, m: Message)
    requires Takes(n, m)
    ensures var e, w := Quietly(n.id, [m]), HandleAppendEntries(n, m);
            && Sorted(Latched(n, e)) && HonestStep(Latched(n, e)) && Worked(n, e) == w
            && w.applied == w.commit <= |w.log| && !w.fault && n.running && w.config.current == IDS
            && w.outbox == [AppendReply(m.term, n.id, m.source, true, |m.entries|)]
  {
    AnswerWork(n, m);
    assert n.(role := Follower) == n;
    TakeAll(n, m);
    TakeAll(n.(leader := Some(m.source)), m);
    TakeAll(n.(appends := [m]), m);
    hide Merge, Honest, HonestStep, AcceptsPrevious, Without, IDS;
  }

  lemma Accept(g: State, honest: bool, ticks: bool, i: NodeId, m: Message) returns (g': State)
    requires Reachable(g, honest, ticks) && i in g.nodes && g.nodes[i].id == i && m in g.net && m.target == i
    requires m.AppendEntries? && Takes(g.nodes[i], m)
    ensures Reachable(g', honest, ticks) && g.net <= g'.net && AppendReply(m.term, i, m.source, true, |m.entries|) in g'.net
    ensures g'.nodes == g.nodes[i := Clean(HandleAppendEntries(g.nodes[i], m))]
  {
    hide Reachable, Takes, Quiet, HandleAppendEntries, HonestStep, Latched, Worked, Sorted, IDS, IDLE;
    AcceptWork(g.nodes[i], m);
    g' := TickTo(g, honest, ticks, Quietly(i, [m]), HandleAppendEntries(g.nodes[i], m));
  }

  /** A leader whose last entry is of its own term and which nobody has acknowledged. */
  predicate Holding(n: Node) {
    && Sole(n) && n.log != [] && LastTerm(n.log) == n.term && n.commit == 0
    && forall k :: 0 <= k < |n.log| ==> n.log[k].command.AppCommand?
  }

  const BEAT := Clock(false, true)

  function Committing(n: Node, j: NodeId): Node {
    n.(matchIndex := n.matchIndex[j := |n.log|], nextIndex := n.nextIndex[j := |n.log| + 1], commit := |n.log|, dirty := true)
  }

  predicate Confirms(n: Node, m: Message) {
    && m.AppendReply? && m.success && m.matchIndex == |n.log| && m.term == n.term && m.source in IDS && m.source != n.id
  }

  /** One acknowledgement commits the log; the heartbeat of the same tick tells the others. */
  lemma CommitWork(n: Node, m: Message)
    requires Holding(n) && Confirms(n, m)
    ensures var n1 := Committing(n, m.source);
            && Latched(n, Tick(n.id, [m], [], BEAT)) == n1 && Worked(n, Tick(n.id, [m], [], BEAT)) == Broadcast(n1)
  {
    assert [m][0] == m && [m][1..] == [];
    var n0 := n.(matchIndex := n.matchIndex[m.source := |n.log|], nextIndex := n.nextIndex[m.source := |n.log| + 1]);
    TwoOfThree(n.id, m.source);
    CountMonotone({n.id, m.source}, HeldBy(n0, |n.log|), IDS);
    assert CommitScan(n0, |n.log|) == |n.log|;
    assert Receive(n, m) == AdvanceCommit(n0);
    assert ReceiveAll(n, [m]) == ReceiveAll(Receive(n, m), []);
    hide AdvanceCommit, CommitScan, HasQuorum, SendAll, IDS, Without;
  }

  /** Every peer has been sent the leader's log from its next index on. */
  ghost predicate Told(n: Node, net: set<Message>) {
    forall p :: p in n.peers && SendIndex(n, p) <= |n.log| + 1 ==> AppendMessage(n, p, SendIndex(n, p)) in net
  }

  lemma Tell(n: Node)
    requires !n.fault && forall q :: q in n.peers ==> q in n.nextIndex && n.nextIndex[q] <= |n.log| + 1
    ensures var w := Broadcast(n);
            && w == n.(outbox := w.outbox) && Told(n, set x | x in w.outbox)
  {
    forall p | p in n.peers ensures AppendMessage(n, p, SendIndex(n, p)) in AppendMessages(n, n.peers) {
      AppendSent(n, n.peers, p);
    }
    hide AppendMessages, AppendMessage;
  }

  /** Application commands change nothing but the application. */
  lemma {:induction false} ApplyApps(n: Node)
    requires InWindow(n) && forall k :: 0 <= k < |n.log| ==> n.log[k].command.AppCommand?
    ensures ApplyAll(n) == n.(applied := n.commit, app := ApplyAll(n).app)
    decreases n.commit - n.applied
  {
    if n.applied < n.commit {
      assert ApplyNext(n) == n.(applied := n.applied + 1, app := n.app + [n.log[n.applied].command]);
      ApplyApps(ApplyNext(n));
    }
  }

  lemma CommittingFacts(n: Node, j: NodeId)
    requires Holding(n) && j in IDS
    ensures var n1 := Committing(n, j);
            && InWindow(n1) && !n1.fault && n1.running && n1.config.current == IDS && n1.log == n.log && n1.commit == |n.log|
            && (forall q :: q in n1.peers ==> q in n1.nextIndex && n1.nextIndex[q] <= |n1.log| + 1)
            && forall k :: 0 <= k < |n1.log| ==> n1.log[k].command.AppCommand?
  {
    hide Without, IDS, Alone;
  }

  lemma CommitLatch(n: Node, m: Message)
    requires Holding(n) && Confirms(n, m)
    ensures var e, n1 := Tick(n.id, [m], [], BEAT), Committing(n, m.source);
            n.running && Sorted(Latched(n, e)) && HonestStep(Latched(n, e)) && Worked(n, e) == Broadcast(n1)
  {
    CommitWork(n, m);
    hide Broadcast, Worked, Without, Alone, IDS;
  }

  /** The whole tick in which the leader commits its log and tells its peers. */
  lemma CommitTick(n: Node, m: Message) returns (v: Node)
    requires Holding(n) && Confirms(n, m)
    ensures var e, w := Tick(n.id, [m], [], BEAT), Broadcast(Committing(n, m.source));
            && n.running && Sorted(Latched(n, e)) && HonestStep(Latched(n, e)) && Worked(n, e) == w && !w.fault && InWindow(w)
            && ApplyAll(w.(dirty := false)) == v
            && v.config.current == IDS && v.running && v.log == n.log && v.commit == |n.log|
            && Told(Committing(n, m.source), set x | x in v.outbox)
  {
    hide Broadcast, Worked, Latched, ApplyAll, IDS, HonestStep, Sorted, Holding, Told, Committing;
    CommitLatch(n, m);
    CommittingFacts(n, m.source);
    var n1 := Committing(n, m.source);
    Tell(n1);
    var w := Broadcast(n1);
    ApplyApps(w.(dirty := false));
    v := ApplyAll(w.(dirty := false));
  }

  lemma Commit(g: State, honest: bool, ticks: bool, i: NodeId, m: Message) returns (g': State)
    requires Reachable(g, honest, ticks) && i in g.nodes && g.nodes[i].id == i && m in g.net && m.target == i
    requires m.AppendReply? && Holding(g.nodes[i]) && Confirms(g.nodes[i], m)
    ensures Reachable(g', honest, ticks) && g.net <= g'.net
    ensures Told(Committing(g.nodes[i], m.source), g'.net)
    ensures g'.nodes == g.nodes[i := g'.nodes[i]] && i in g'.nodes
    ensures g'.nodes[i].running && g'.nodes[i].log == g.nodes[i].log && g'.nodes[i].commit == |g.nodes[i].log|
  {
    hide Reachable, Holding, Confirms, Latched, Worked, Broadcast, ApplyAll, HonestStep, Sorted, IDS, BEAT, Told;
    var v := CommitTick(g.nodes[i], m);
    var w := Broadcast(Committing(g.nodes[i], m.source));
    g' := TickApply(g, honest, ticks, Tick(i, [m], [], BEAT), w, v);
    ToldMore(Committing(g.nodes[i], m.source), (set x | x in v.outbox), g'.net);
  }

  lemma ToldMore(n: Node, net: set<Message>, net': set<Message>)
    requires Told(n, net) && net <= net'
    ensures Told(n, net')
  {
  }

  /** The disk of a running node holds its log. */
  lemma LogOnDisk(g: State, honest: bool, ticks: bool, i: NodeId)
    requires Reachable(g, honest, ticks) && i in g.nodes && g.nodes[i].running
    ensures i in g.disks && DurableLog(g.disks[i]) == g.nodes[i].log
  {
    var r :| EndsIn(r, g, honest, ticks);
    LastOnDisk(r, i);
  }

  lemma LastOnDisk(r: Run, i: NodeId)
    requires ThreeNodeRun(r) && i in Last(r).nodes && Last(r).nodes[i].running
    ensures i in Last(r).disks && DurableLog(Last(r).disks[i]) == Last(r).nodes[i].log
  {
    hide IsRun, AlwaysBased, Sim, Replayed, IDS;
    var s, h, _, _ := Moments(r, IDS, |r.events|, |r.events|);
    assert NodeRel(Last(r), s, i);
  }

  /** The overtaken leader hears of the committed entry and crashes between the two files of its save. */
  predicate Tears(n: Node, m: Message, f: Entry) {
    && Quiet(n) && n.role == Leader && |n.log| == 1 && n.commit == 0 && n.log[0].term != f.term && f.index == 1
    && m.AppendEntries? && m.term > n.term && m.prevIndex == 0 && m.entries == [f] && m.leaderCommit == 1
  }

  lemma TearWork(n: Node, m: Message, f: Entry)
    requires Tears(n, m, f)
    ensures var e, w := TornTick(n.id, [m], [], IDLE), HandleAppendEntries(n.(role := Follower), m);
            && n.running && Sorted(Latched(n, e)) && Worked(n, e) == w && InWindow(w) && !w.fault && w.dirty
            && w.commit == 1 && w.config == Configuration(IDS, None, 0)
  {
    AnswerWork(n, m);
    assert Latched(n, TornTick(n.id, [m], [], IDLE)) == Latched(n, Quietly(n.id, [m]));
    TakeSingle(n.(role := Follower), m, f);
    hide HandleAppendEntries, Without, RoleStep, HonestStep, Honest;
  }

  lemma TornStep(g: State, i: NodeId, m: Message, f: Entry) returns (g': State)
    requires Reachable(g, true, false) && i in g.nodes && g.nodes[i].id == i && m in g.net && m.target == i
    requires Tears(g.nodes[i], m, f)
    ensures Reachable(g', true, false) && i in g'.nodes && !g'.nodes[i].running && g'.nodes == g.nodes[i := g'.nodes[i]]
    ensures i in g'.disks && g'.disks[i].meta.Some? && g'.disks[i].log == g.nodes[i].log
    ensures g'.disks[i].meta.value.commit == 1 && g'.disks[i].meta.value.config == Configuration(IDS, None, 0)
  {
    var n, e := g.nodes[i], TornTick(i, [m], [], IDLE);
    assert |n.log| == 1;
    hide Reachable, Tears, Latched, Worked, Sorted, HandleAppendEntries, Step, Based, Lost, IDS;
    TearWork(n, m, f);
    LogOnDisk(g, true, false, i);
    ReachableNodes(g, true, false);
    TornTo(g, e, HandleAppendEntries(n.(role := Follower), m));
    OneMore(g, true, false, e);
    g' := Step(g, e);
  }

  lemma TornTo(g: State, e: Event, w: Node)
    requires Based(g, IDS) && g.nodes.Keys == g.disks.Keys && e.TornTick? && e.id in g.nodes && g.nodes[e.id].running
    requires forall m :: m in e.inbox ==> m in g.net && m.target == e.id
    requires Sorted(Latched(g.nodes[e.id], e)) && Worked(g.nodes[e.id], e) == w && InWindow(w) && !w.fault && w.dirty
    ensures Enabled(g, e) && Based(Step(g, e), IDS) && !Lost(g.nodes[e.id]).running
    ensures Step(g, e) == g.(nodes := g.nodes[e.id := Lost(g.nodes[e.id])], disks := g.disks[e.id := Disk(Save(w).meta, g.disks[e.id].log)])
  {
    hide Worked, Latched, Sorted;
  }

  lemma Restart(g: State, i: NodeId) returns (g': State)
    requires Reachable(g, true, false) && i in g.nodes && i in g.disks && !g.nodes[i].running
    requires var d := g.disks[i];
             d.meta.Some? && d.meta.value.commit == 1 && |d.log| == 1 && d.meta.value.config == Configuration(IDS, None, 0)
    ensures Reachable(g', true, false) && g'.nodes == g.nodes[i := g'.nodes[i]] && i in g'.nodes
    ensures g'.nodes[i].running && g'.nodes[i].log == g.disks[i].log && g'.nodes[i].commit == 1
  {
    var e := Start(i);
    hide Reachable, Load, Based, IDS;
    ReachableNodes(g, true, false);
    LoadedTorn(g.nodes[i], g.disks[i]);
    StartedBased(g, i);
    g' := Step(g, e);
    OneMore(g, true, false, e);
  }

  lemma LoadedTorn(n: Node, d: Disk)
    requires d.meta.Some? && d.meta.value.commit == 1 && |d.log| == 1 && d.meta.value.config == Configuration(IDS, None, 0)
    ensures var n' := Load(n, d); n'.running && n'.log == d.log && n'.commit == 1 && n'.config.current == IDS
  {
    ThreeIds();
    assert IDS != [];
    hide Normalize, PeersOf, IDS;
  }

  lemma StartedBased(g: State, i: NodeId)
    requires Enabled(g, Start(i)) && Based(g, IDS) && Load(g.nodes[i], g.disks[i]).config.current == IDS
    ensures Based(Step(g, Start(i)), IDS)
  {
    hide Load, IDS;
  }

  predicate Diverged(g: State, b: NodeId, c: NodeId) {
    && Up(g, b) && Up(g, c) && g.nodes[b].commit <= |g.nodes[b].log| && g.nodes[c].commit <= |g.nodes[c].log|
    && var x, y := CommittedLog(g, b), CommittedLog(g, c); !(x <= y) && !(y <= x)
  }

  function Second(c: NodeId): Entry {
    Entry(1, 2, Y, c)
  }

  lemma SecondProposes(a: NodeId, b: NodeId, c: NodeId) returns (g: State)
    requires Three(a, b, c)
    ensures Reachable(g, true, true) && a in g.nodes && b in g.nodes && c in g.nodes
    ensures g.nodes[a] == Voted(FreshMember(a), 2, c) && g.nodes[b] == Proposed(Elected(FreshMember(b), c), X)
    ensures g.nodes[c] == Proposed(Elected(Voted(FreshMember(c), 1, b), a), Y)
    ensures AppendEntries(2, c, a, 0, 0, "", [Second(c)], 0) in g.net
  {
    hide *;
    SecondLeads(a, b, c);
    var g3 := SecondReign(a, b, c);
    g := Propose(g3, true, true, c, Y);
  }

  lemma SecondLeads(a: NodeId, b: NodeId, c: NodeId)
    requires Three(a, b, c)
    ensures var n := Elected(Voted(FreshMember(c), 1, b), a);
            && n.id == c && c != a && c != b && Sole(n)
            && AppendEntries(2, c, a, 0, 0, "", [Second(c)], 0) in AppendMessages(Proposed(n, Y), n.peers)
  {
    var n := Elected(Voted(FreshMember(c), 1, b), a);
    WithoutSpec(IDS, [c], a);
    SoleElected(Voted(FreshMember(c), 1, b), a);
    FirstEntrySent(n, Proposed(n, Y), a);
    hide AppendMessages, Without, Sole;
  }

  /** c commits its own first entry with a's acknowledgement, honestly, while b still keeps another. */
  lemma CommittedByTwo(a: NodeId, b: NodeId, c: NodeId) returns (g: State)
    requires Three(a, b, c)
    ensures Reachable(g, true, true) && b in g.nodes && c in g.nodes && g.nodes[b] == Proposed(Elected(FreshMember(b), c), X)
    ensures AppendEntries(2, c, b, 0, 0, "", [Second(c)], 1) in g.net
    ensures g.nodes[c].running && g.nodes[c].log == [Second(c)] && g.nodes[c].commit == 1
  {
    hide *;
    var l, m := Proposed(Elected(Voted(FreshMember(c), 1, b), a), Y), AppendReply(2, a, c, true, 1);
    SecondCommits(a, b, c);
    var g4 := SecondProposes(a, b, c);
    var g5 := Accept(g4, true, true, a, AppendEntries(2, c, a, 0, 0, "", [Second(c)], 0));
    g := Commit(g5, true, true, c, m);
    ToldOne(Committing(l, a), g.net, b);
  }

  lemma ToldOne(n: Node, net: set<Message>, p: NodeId)
    requires Told(n, net) && p in n.peers && SendIndex(n, p) <= |n.log| + 1
    ensures AppendMessage(n, p, SendIndex(n, p)) in net
  {
  }

  lemma SecondCommits(a: NodeId, b: NodeId, c: NodeId)
    requires Three(a, b, c)
    ensures var l, m := Proposed(Elected(Voted(FreshMember(c), 1, b), a), Y), AppendReply(2, a, c, true, 1);
            var t, n1 := AppendEntries(2, c, a, 0, 0, "", [Second(c)], 0), Committing(l, a);
            && l.id == c && l.log == [Second(c)] && a != b && b != c && a != c && Holding(l) && Confirms(l, m)
            && Voted(FreshMember(a), 2, c).id == a && Takes(Voted(FreshMember(a), 2, c), t)
            && b in n1.peers && SendIndex(n1, b) == 1 <= |n1.log| + 1
            && AppendMessage(n1, b, 1) == AppendEntries(2, c, b, 0, 0, "", [Second(c)], 1)
  {
    var l := Proposed(Elected(Voted(FreshMember(c), 1, b), a), Y);
    WithoutSpec(IDS, [c], b);
    HoldingFirst(Voted(FreshMember(c), 1, b), a, Y);
    CommitTold(l, a, b);
    TakesFirst(a, c);
    hide AppendMessage, SendIndex, Holding, Takes, Without;
  }

  lemma CommitTold(l: Node, j: NodeId, p: NodeId)
    requires l.log == [Entry(1, l.term, Y, l.id)] && p != j && p in l.nextIndex && l.nextIndex[p] == 1
    ensures var n1 := Committing(l, j);
            SendIndex(n1, p) == 1 && AppendMessage(n1, p, 1) == AppendEntries(l.term, l.id, p, 0, 0, "", l.log, 1)
  {
    assert l.log[0..] == l.log;
  }

  lemma FirstEntrySent(n: Node, l: Node, p: NodeId)
    requires n.log == [] && l == Proposed(n, Y) && n.commit == 0 && p in l.peers && p in n.nextIndex && n.nextIndex[p] == 1
    ensures AppendEntries(n.term, n.id, p, 0, 0, "", [Entry(1, n.term, Y, n.id)], 0) in AppendMessages(l, l.peers)
  {
    assert l.log == [Entry(1, n.term, Y, n.id)];
    hide AppendMessages;
    LogSent(l, p);
  }

  lemma HoldingFirst(n: Node, j: NodeId, x: Command)
    requires Quiet(n) && n.log == [] && n.app == [] && x.AppCommand?
    ensures Holding(Proposed(Elected(n, j), x))
  {
    hide Without;
  }

  lemma TakesFirst(a: NodeId, c: NodeId)
    requires a in IDS
    ensures Takes(Voted(FreshMember(a), 2, c), AppendEntries(2, c, a, 0, 0, "", [Second(c)], 0))
  {
    hide Without;
  }

  /** The hypotheses of the safety theorems leave room for progress: in a trusted run an entry gets
      committed while another node still holds a different one at its index. */
  lemma TrustedRunCommits() returns (r: Run)
    ensures IsRun(r) && AlwaysBased(r, IDS) && AlwaysTrusted(r) && r.states != []
    ensures Up(Last(r), "b") && Up(Last(r), "c")
    ensures var b, c := Last(r).nodes["b"], Last(r).nodes["c"];
            c.commit == 1 && |c.log| == 1 && |b.log| == 1 && b.log[0] != c.log[0]
  {
    hide *;
    ThreeNames();
    FirstProposed("b", "c");
    var g := CommittedByTwo("a", "b", "c");
    r := RunTo(g, true, true);
    HonestTicksTrusted(r);
    UpHere(g, "b");
    UpHere(g, "c");
  }

  lemma UpHere(g: State, i: NodeId)
    requires i in g.nodes && g.nodes[i].running
    ensures Up(g, i)
  {
  }

  lemma FirstProposed(b: NodeId, c: NodeId)
    ensures var n := Proposed(Elected(FreshMember(b), c), X); n.running && |n.log| == 1 && n.log[0] != Second(c)
  {
    hide Without;
  }

  lemma HonestTicksTrusted(r: Run)
    requires IsRun(r) && AlwaysHonest(r) && OnlyTicks(r)
    ensures AlwaysTrusted(r)
  {
    hide Step, HonestStep, Latched, TornSafe, IDS;
    assert forall k: nat {:trigger Follows(r, k)} :: k < |r.events| && Follows(r, k) ==> r.events[k].Tick?;
  }

  /** With every reply honest but one save torn, two nodes commit different entries at one index. */
  lemma TornSaveDiverges() returns (r: Run)
    ensures IsRun(r) && AlwaysBased(r, IDS) && AlwaysHonest(r) && r.states != [] && Diverged(Last(r), "b", "c")
  {
    hide *;
    ThreeNames();
    var g := Torn("a", "b", "c");
    r := RunTo(g, true, false);
  }

  lemma ThreeNames()
    ensures Three("a", "b", "c")
  {
  }

  lemma Torn(a: NodeId, b: NodeId, c: NodeId) returns (g: State)
    requires Three(a, b, c)
    ensures Reachable(g, true, false) && Diverged(g, b, c)
  {
    TearsFirst(b, c);
    hide Reachable, Without, AppendMessages, Tears, IDS;
    var g6 := CommittedByTwo(a, b, c);
    Forget(g6, true, false);
    var g7 := TornStep(g6, b, AppendEntries(2, c, b, 0, 0, "", [Second(c)], 1), Second(c));
    g := Restart(g7, b);
    DifferentFirst(g, b, c);
  }

  lemma TearsFirst(b: NodeId, c: NodeId)
    requires b in IDS
    ensures Tears(Proposed(Elected(FreshMember(b), c), X), AppendEntries(2, c, b, 0, 0, "", [Second(c)], 1), Second(c))
  {
    hide Without;
  }

  lemma DifferentFirst(g: State, b: NodeId, c: NodeId)
    requires b in g.nodes && c in g.nodes && g.nodes[b].running && g.nodes[c].running
    requires 1 <= g.nodes[b].commit <= |g.nodes[b].log| && 1 <= g.nodes[c].commit <= |g.nodes[c].log|
    requires g.nodes[b].log[0] != g.nodes[c].log[0]
    ensures Diverged(g, b, c)
  {
    var x, y := CommittedLog(g, b), CommittedLog(g, c);
    assert x[0] != y[0];
  }

  lemma RunTo(g: State, honest: bool, ticks: bool) returns (r: Run)
    requires Reachable(g, honest, ticks)
    ensures IsRun(r) && AlwaysBased(r, IDS) && r.states != [] && Last(r) == g
    ensures (honest ==> AlwaysHonest(r)) && (ticks ==> OnlyTicks(r))
  {
    r :| EndsIn(r, g, honest, ticks);
    hide IDS, AlwaysHonest, OnlyTicks, AlwaysBased;
  }

  lemma Forget(g: State, honest: bool, ticks: bool)
    requires Reachable(g, true, true)
    ensures Reachable(g, honest, ticks)
  {
    var r :| EndsIn(r, g, true, true);
    assert EndsIn(r, g, honest, ticks);
  }

  // ---- Second run: a reply that is not honest ----

  /** The overtaken leader answers the new leader's empty heartbeat with its own, longer, length. */
  lemma Overclaim(g: State, i: NodeId, m: Message) returns (g': State)
    requires Reachable(g, false, true) && i in g.nodes && g.nodes[i].id == i && m in g.net && m.target == i
    requires m.AppendEntries? && Hears(g.nodes[i], m)
    ensures Reachable(g', false, true) && g.net <= g'.net && AppendReply(m.term, i, m.source, true, |g.nodes[i].log|) in g'.net
    ensures g'.nodes == g.nodes[i := Heard(g.nodes[i], m)]
  {
    hide Reachable, Hears, HonestStep, Latched, Worked, Sorted, HandleAppendEntries, IDS, IDLE;
    HearWork(g.nodes[i], m);
    g' := TickTo(g, false, true, Quietly(i, [m]), HandleAppendEntries(g.nodes[i].(role := Follower), m));
  }

  predicate Hears(n: Node, m: Message) {
    && Quiet(n) && n.role == Leader && n.commit == 0
    && m.AppendEntries? && m.term > n.term && m.prevIndex == 0 && m.entries == [] && m.leaderCommit == 0
  }

  function Heard(n: Node, m: Message): Node {
    n.(role := Follower, term := m.term, votedFor := None, votes := {}, leader := Some(m.source))
  }

  lemma HearWork(n: Node, m: Message)
    requires Hears(n, m)
    ensures var e, w := Quietly(n.id, [m]), HandleAppendEntries(n.(role := Follower), m);
            && n.running && Sorted(Latched(n, e)) && Worked(n, e) == w && Clean(w) == Heard(n, m)
            && w.applied == w.commit <= |w.log| && !w.fault && w.config.current == IDS
            && w.outbox == [AppendReply(m.term, n.id, m.source, true, |n.log|)]
  {
    AnswerWork(n, m);
    assert Merge(Merged(n.log, false, false), [], 0) == Merged(n.log, false, false);
    hide Without, Honest, HonestStep;
  }

  /** A new leader with an empty log takes the claim as an acknowledgement of the entry it appends next. */
  function Misled(n: Node, j: NodeId, x: Command): Node {
    var n1 := n.(matchIndex := n.matchIndex[j := 1], nextIndex := n.nextIndex[j := 2]);
    Proposed(n1, x).(commit := 1, dirty := true)
  }

  lemma MisleadLatch(n: Node, m: Message, x: Command)
    requires Quiet(n) && n.role == Leader && n.log == [] && n.commit == 0 && m.source in IDS && m.source != n.id
    requires m.AppendReply? && m.success && m.matchIndex == 1 && m.term == n.term
    ensures Latched(n, Tick(n.id, [m], [x], IDLE)) == Broadcast(Misled(n, m.source, x))
  {
    assert [m][0] == m && [m][1..] == [] && [x][0] == x && [x][1..] == [];
    var n0 := n.(matchIndex := n.matchIndex[m.source := 1], nextIndex := n.nextIndex[m.source := 2]);
    var n1 := Proposed(n0, x).(dirty := true);
    TwoOfThree(n.id, m.source);
    CountMonotone({n.id, m.source}, HeldBy(n1, 1), IDS);
    assert CommitScan(n1, 1) == 1;
    assert Receive(n, m) == n0 && ReceiveAll(n, [m]) == ReceiveAll(n0, []);
    assert AdvanceCommit(n1) == Misled(n, m.source, x);
    hide AdvanceCommit, CommitScan, HasQuorum, SendAll, IDS, Without, Misled;
    assert AppendLocal(n0, x) == Broadcast(Misled(n, m.source, x));
    assert AppendAll(n0, [x]) == AppendAll(AppendLocal(n0, x), []);
  }

  lemma MisleadWork(n: Node, m: Message, x: Command)
    requires Quiet(n) && n.role == Leader && n.log == [] && n.commit == 0 && m.source in IDS && m.source != n.id && x.AppCommand?
    requires m.AppendReply? && m.success && m.matchIndex == 1 && m.term == n.term
    requires forall q :: q in n.peers ==> q in n.nextIndex && n.nextIndex[q] == 1
    ensures var e, w := Tick(n.id, [m], [x], IDLE), Broadcast(Misled(n, m.source, x));
            && n.running && Sorted(Latched(n, e)) && Worked(n, e) == w && w == Misled(n, m.source, x).(outbox := w.outbox)
  {
    hide Latched, Without, IDS, SendAll, AppendMessages;
    MisleadLatch(n, m, x);
    Tell(Misled(n, m.source, x));
  }

  lemma MisledFacts(n: Node, j: NodeId, x: Command)
    requires Quiet(n) && n.log == [] && n.commit == 0 && x.AppCommand?
    ensures var w := Misled(n, j, x);
            && InWindow(w) && !w.fault && w.running && w.config.current == IDS && w.log == [Entry(1, n.term, x, n.id)] && w.commit == 1
            && forall k :: 0 <= k < |w.log| ==> w.log[k].command.AppCommand?
  {
    hide Without, IDS;
  }

  lemma MisleadTick(n: Node, m: Message, x: Command) returns (v: Node)
    requires Quiet(n) && n.role == Leader && n.log == [] && n.commit == 0 && m.source in IDS && m.source != n.id && x.AppCommand?
    requires m.AppendReply? && m.success && m.matchIndex == 1 && m.term == n.term
    requires forall q :: q in n.peers ==> q in n.nextIndex && n.nextIndex[q] == 1
    ensures var e, w := Tick(n.id, [m], [x], IDLE), Broadcast(Misled(n, m.source, x));
            && n.running && Sorted(Latched(n, e)) && Worked(n, e) == w && !w.fault && InWindow(w) && ApplyAll(w.(dirty := false)) == v
            && v.config.current == IDS && v.running && v.log == [Entry(1, n.term, x, n.id)] && v.commit == 1
  {
    hide Broadcast, Worked, Latched, ApplyAll, Without, IDS, Sorted, Misled, Quiet;
    MisleadWork(n, m, x);
    MisledFacts(n, m.source, x);
    var w := Broadcast(Misled(n, m.source, x));
    ApplyApps(w.(dirty := false));
    v := ApplyAll(w.(dirty := false));
  }

  /** An empty follower rejects what follows an entry it lacks. */
  lemma RejectWork(n: Node, m: Message)
    requires Quiet(n) && n.role == Follower && n.log == [] && m.AppendEntries? && m.term == n.term && m.prevIndex > 0
    ensures var e, w := Tick(n.id, [m], [], IDLE), HandleAppendEntries(n, m);
            && n.running && Sorted(Latched(n, e)) && Worked(n, e) == w && Clean(w) == n.(leader := Some(m.source))
            && w.applied == w.commit <= |w.log| && !w.fault && w.config.current == IDS
            && w.outbox == [AppendReply(m.term, n.id, m.source, false, 0)]
  {
    AnswerWork(n, m);
    assert n.(role := Follower) == n;
    hide Without, Honest, HonestStep, Merge;
  }

  /** The leader backs off by one index and sends again; the message itself does not matter here. */
  lemma ResendWork(n: Node, m: Message)
    requires Quiet(n) && n.role == Leader && |n.log| == 1 && m.AppendReply? && !m.success && m.term == n.term
    requires m.source in n.nextIndex && n.nextIndex[m.source] == 2
    ensures var e, w := Tick(n.id, [m], [], IDLE), RecordReply(n, m);
            && n.running && Sorted(Latched(n, e)) && Worked(n, e) == w && Clean(w) == n.(nextIndex := n.nextIndex[m.source := 1])
            && w.applied == w.commit <= |w.log| && !w.fault && w.config.current == IDS
  {
    LatchOne(n, m);
    hide Without, AppendMessage;
  }

  function Refused(a: NodeId, b: NodeId, c: NodeId): Node {
    Voted(Voted(FreshMember(a), 2, c), 3, b)
  }

  function Returned(b: NodeId, c: NodeId): Node {
    Heard(Proposed(Elected(FreshMember(b), c), X), AppendEntries(2, c, b, 0, 0, "", [], 0))
  }

  /** c commits the entry b never took, on b's word. */
  lemma CommittedOnClaim(a: NodeId, b: NodeId, c: NodeId) returns (g: State)
    requires Three(a, b, c)
    ensures Reachable(g, false, true) && a in g.nodes && b in g.nodes && c in g.nodes
    ensures g.nodes[a] == Voted(FreshMember(a), 2, c) && g.nodes[b] == Returned(b, c)
    ensures g.nodes[c].running && g.nodes[c].log == [Second(c)] && g.nodes[c].commit == 1
  {
    hide *;
    var g3 := SecondReign(a, b, c);
    Forget(g3, false, true);
    ClaimFacts(a, b, c);
    var g4 := Overclaim(g3, b, AppendEntries(2, c, b, 0, 0, "", [], 0));
    var m := AppendReply(2, b, c, true, 1);
    var v := MisleadTick(g4.nodes[c], m, Y);
    g := TickApply(g4, false, true, Tick(c, [m], [Y], IDLE), Broadcast(Misled(g4.nodes[c], b, Y)), v);
  }

  lemma ClaimFacts(a: NodeId, b: NodeId, c: NodeId)
    requires Three(a, b, c)
    ensures var l, n, m := Proposed(Elected(FreshMember(b), c), X), Elected(Voted(FreshMember(c), 1, b), a), AppendEntries(2, c, b, 0, 0, "", [], 0);
            && a != b && b != c && a != c && b in IDS && Hears(l, m) && |l.log| == 1 && l.id == b && Heard(l, m) == Returned(b, c)
            && Quiet(n) && n.role == Leader && n.log == [] && n.commit == 0 && n.id == c && n.term == 2
            && (forall q :: q in n.peers ==> q in n.nextIndex && n.nextIndex[q] == 1) && Second(c) == Entry(1, 2, Y, c) && Y.AppCommand?
  {
    hide Without, IDS;
  }

  /** b returns as leader of term 3, and a refuses its first message. */
  lemma ThirdReign(a: NodeId, b: NodeId, c: NodeId) returns (g: State)
    requires Three(a, b, c)
    ensures Reachable(g, false, true) && a in g.nodes && b in g.nodes && c in g.nodes
    ensures g.nodes[a] == Refused(a, b, c).(leader := Some(b)) && g.nodes[b] == Elected(Returned(b, c), a)
    ensures g.nodes[c].running && g.nodes[c].log == [Second(c)] && g.nodes[c].commit == 1
    ensures AppendReply(3, a, b, false, 0) in g.net
  {
    hide *;
    var g5 := CommittedOnClaim(a, b, c);
    ReturnFacts(a, b, c);
    var g6 := Elect(g5, false, true, b, a);
    var m := AppendEntries(3, b, a, 1, 1, b, [], 0);
    RejectWork(Refused(a, b, c), m);
    g := TickTo(g6, false, true, Tick(a, [m], [], IDLE), HandleAppendEntries(Refused(a, b, c), m));
  }

  lemma ReturnFacts(a: NodeId, b: NodeId, c: NodeId)
    requires Three(a, b, c)
    ensures var x, y, n := Returned(b, c), Voted(FreshMember(a), 2, c), Refused(a, b, c);
            && a != b && b != c && a != c && a in IDS && CanElect(x, y) && x.id == b && y.id == a && Voted(y, x.term + 1, b) == n && |x.log| == 1
            && Quiet(n) && n.role == Follower && n.log == [] && n.id == a && n.term == 3
            && AppendMessage(Elected(x, a), a, 2) == AppendEntries(3, b, a, 1, 1, b, [], 0)
  {
    ReturnedFacts(a, b, c);
    assert Returned(b, c).role == Follower;
    var y := Voted(FreshMember(a), 2, c);
    assert Quiet(y);
    hide Without, IDS, AppendMessage, Returned, FreshMember, Quiet;
    OneEntrySent(Elected(Returned(b, c), a), a);
  }

  lemma OneEntrySent(n: Node, p: NodeId)
    requires n.log == [Entry(1, 1, X, n.id)] && n.commit == 0
    ensures AppendMessage(n, p, 2) == AppendEntries(n.term, n.id, p, 1, 1, n.id, [], 0)
  {
  }

  function Resent(a: NodeId, b: NodeId, c: NodeId): Node {
    var n := Elected(Returned(b, c), a);
    n.(nextIndex := n.nextIndex[a := 1])
  }

  /** b sends its own first entry again, with one of term 3, and a takes both. */
  lemma ThirdReplicates(a: NodeId, b: NodeId, c: NodeId) returns (g: State)
    requires Three(a, b, c)
    ensures Reachable(g, false, true) && b in g.nodes && c in g.nodes && AppendReply(3, a, b, true, 2) in g.net
    ensures g.nodes[b] == Proposed(Resent(a, b, c), Z)
    ensures g.nodes[c].running && g.nodes[c].log == [Second(c)] && g.nodes[c].commit == 1
  {
    hide *;
    var g7 := ThirdReign(a, b, c);
    ResentFacts(a, b, c);
    var m, n, l := AppendReply(3, a, b, false, 0), Elected(Returned(b, c), a), Proposed(Resent(a, b, c), Z);
    ResendWork(n, m);
    var g8 := TickTo(g7, false, true, Tick(b, [m], [], IDLE), RecordReply(n, m));
    var g9 := Propose(g8, false, true, b, Z);
    g := Accept(g9, false, true, a, AppendEntries(3, b, a, 0, 0, "", l.log, 0));
  }

  lemma ResentFacts(a: NodeId, b: NodeId, c: NodeId)
    requires Three(a, b, c)
    ensures var n, r, f := Elected(Returned(b, c), a), Resent(a, b, c), Refused(a, b, c).(leader := Some(b));
            && a != b && b != c && a != c && n.id == r.id == b && f.id == a
            && Quiet(n) && n.role == Leader && |n.log| == 1 && n.term == 3 && a in n.nextIndex && n.nextIndex[a] == 2
            && n.(nextIndex := n.nextIndex[a := 1]) == r && Sole(r) && |Proposed(r, Z).log| == 2
            && AppendEntries(3, b, a, 0, 0, "", Proposed(r, Z).log, 0) in AppendMessages(Proposed(r, Z), r.peers)
            && Takes(f, AppendEntries(3, b, a, 0, 0, "", Proposed(r, Z).log, 0))
  {
    ReturnedFacts(a, b, c);
    hide Returned, Refused, IDS;
    ResentSole(Returned(b, c), a);
    ResentTaken(Proposed(Resent(a, b, c), Z), Refused(a, b, c).(leader := Some(b)));
  }

  lemma ReturnedFacts(a: NodeId, b: NodeId, c: NodeId)
    requires Three(a, b, c)
    ensures var x, f := Returned(b, c), Refused(a, b, c).(leader := Some(b));
            && Quiet(x) && x.log == [Entry(1, 1, X, b)] && x.id == b && x.term == 2 && x.commit == 0
            && Quiet(f) && f.role == Follower && f.log == [] && f.commit == 0 && f.id == a && f.term == 3
  {
    hide Without, IDS;
  }

  lemma ResentSole(x: Node, a: NodeId)
    requires Quiet(x) && a in IDS && a != x.id && |x.log| == 1 && x.log[0].index == 1 && x.commit == 0
    ensures var n := Elected(x, a);
            var r := n.(nextIndex := n.nextIndex[a := 1]);
            && Quiet(n) && a in n.nextIndex && n.nextIndex[a] == 2 && Sole(r) && |Proposed(r, Z).log| == 2 && a in r.peers
            && Indexed(Proposed(r, Z).log) && Proposed(r, Z).nextIndex[a] == 1
  {
    WithoutSpec(IDS, [x.id], a);
    hide Without, IDS;
  }

  lemma ResentTaken(l: Node, f: Node)
    requires l.commit == 0 && f.id in l.peers && f.id in l.nextIndex && l.nextIndex[f.id] == 1 && Indexed(l.log)
    requires Quiet(f) && f.role == Follower && f.log == [] && f.commit == 0 && f.term == l.term
    ensures var m := AppendEntries(l.term, l.id, f.id, 0, 0, "", l.log, 0);
            m in AppendMessages(l, l.peers) && Takes(f, m)
  {
    LogSent(l, f.id);
    hide AppendMessages, Without, IDS;
  }

  lemma LogSent(l: Node, p: NodeId)
    requires l.commit == 0 && p in l.peers && p in l.nextIndex && l.nextIndex[p] == 1
    ensures AppendEntries(l.term, l.id, p, 0, 0, "", l.log, 0) in AppendMessages(l, l.peers)
  {
    AppendSent(l, l.peers, p);
    assert l.log[0..] == l.log;
  }

  /** With nothing but ticks and complete saves, but one reply that is not honest, two nodes commit
      different entries at one index. */
  lemma DishonestReplyDiverges() returns (r: Run)
    ensures IsRun(r) && AlwaysBased(r, IDS) && OnlyTicks(r) && r.states != [] && Diverged(Last(r), "b", "c")
  {
    hide *;
    ThreeNames();
    var g := Claimed("a", "b", "c");
    r := RunTo(g, false, true);
  }

  lemma Claimed(a: NodeId, b: NodeId, c: NodeId) returns (g: State)
    requires Three(a, b, c)
    ensures Reachable(g, false, true) && Diverged(g, b, c)
  {
    hide *;
    ClaimCommits(a, b, c);
    var g10 := ThirdReplicates(a, b, c);
    g := Commit(g10, false, true, b, AppendReply(3, a, b, true, 2));
    DifferentFirst(g, b, c);
  }

  lemma ClaimCommits(a: NodeId, b: NodeId, c: NodeId)
    requires Three(a, b, c)
    ensures var l := Proposed(Resent(a, b, c), Z);
            && l.id == b && b != c && Holding(l) && Confirms(l, AppendReply(3, a, b, true, 2))
            && |l.log| == 2 && l.log[0] == Entry(1, 1, X, b) != Second(c)
  {
    ReturnedFacts(a, b, c);
    hide Returned, Refused, IDS, Sole, Quiet, Holding;
    ResentSole(Returned(b, c), a);
    HoldingNext(Resent(a, b, c));
  }

  lemma HoldingNext(r: Node)
    requires Sole(r) && r.commit == 0 && forall k :: 0 <= k < |r.log| ==> r.log[k].command.AppCommand?
    ensures Holding(Proposed(r, Z))
  {
    hide Without, IDS;
  }

  // ---- The same reply makes the next heartbeat raise ----

  /** A leader with an empty log after the claim. */
  function Fooled(n: Node, j: NodeId): Node {
    n.(matchIndex := n.matchIndex[j := 1], nextIndex := n.nextIndex[j := 2])
  }

  lemma FooledWork(n: Node, m: Message)
    requires Quiet(n) && n.role == Leader && n.log == [] && m.AppendReply? && m.success && m.matchIndex == 1 && m.term == n.term
    ensures var e, w := Tick(n.id, [m], [], IDLE), Fooled(n, m.source);
            && n.running && Sorted(Latched(n, e)) && Worked(n, e) == w && Clean(w) == w
            && w.applied == w.commit <= |w.log| && !w.fault && w.config.current == IDS
  {
    LatchOne(n, m);
    assert CommitScan(Fooled(n, m.source), 0) == n.commit;
    hide Without, IDS;
  }

  lemma FooledRaises(n: Node, j: NodeId)
    requires Quiet(n) && n.role == Leader && n.log == [] && j in n.peers
    ensures Sorted(Fooled(n, j)) && Raises(Fooled(n, j), Tick(n.id, [], [], BEAT)) && !Fooled(n, j).fault
  {
    var f := Fooled(n, j);
    assert ReceiveAll(f, []) == f && Ahead(f, 0) by { assert f.nextIndex[j] == 2; }
    hide Without, IDS;
  }

  /** A run of ticks alone that leaves a leader unable to send another heartbeat: it has believed a reply
      that was not honest, and reading the term before the index it would start from raises. */
  lemma OverclaimRaises() returns (r: Run, e: Event)
    ensures IsRun(r) && AlwaysBased(r, IDS) && OnlyTicks(r) && r.states != [] && Leads(Last(r), "c", 2)
    ensures e == Tick("c", [], [], BEAT) && Sorted(Latched(Last(r).nodes["c"], e)) && Worked(Last(r).nodes["c"], e).fault
  {
    hide *;
    ThreeNames();
    var g := Claims("a", "b", "c");
    r := RunTo(g, false, true);
    e := Tick("c", [], [], BEAT);
    RaisesIff(g.nodes["c"], e);
  }

  lemma Claims(a: NodeId, b: NodeId, c: NodeId) returns (g: State)
    requires Three(a, b, c)
    ensures Reachable(g, false, true) && Leads(g, c, 2) && c in g.nodes
    ensures var n := g.nodes[c]; Sorted(n) && !n.fault && Raises(n, Tick(c, [], [], BEAT))
  {
    hide *;
    var g3 := SecondReign(a, b, c);
    Forget(g3, false, true);
    ClaimFacts(a, b, c);
    var g4 := Overclaim(g3, b, AppendEntries(2, c, b, 0, 0, "", [], 0));
    var n, m := g4.nodes[c], AppendReply(2, b, c, true, 1);
    FooledWork(n, m);
    g := TickTo(g4, false, true, Tick(c, [m], [], IDLE), Fooled(n, b));
    FooledPeers(a, b, c);
    FooledRaises(n, b);
    FooledLeads(g, n, b);
  }

  lemma FooledPeers(a: NodeId, b: NodeId, c: NodeId)
    requires Three(a, b, c)
    ensures b in Elected(Voted(FreshMember(c), 1, b), a).peers
  {
    WithoutSpec(IDS, [c], b);
    hide Without;
  }

  lemma FooledLeads(g: State, n: Node, j: NodeId)
    requires n.id in g.nodes && g.nodes[n.id] == Clean(Fooled(n, j)) && Quiet(n) && n.role == Leader
    ensures Leads(g, n.id, n.term) && Fooled(n, j).id == n.id
  {
    hide Without, IDS;
  }
}
