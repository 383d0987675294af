/** Safety of every run of the cluster. */
module ClusterSafety {
  import opened RaftTypes
  import opened Quorum
  import opened Protocol
  import opened ProtocolSteps
  import opened NodeSpec
  import opened NodeLocal
  import opened Refinement
  import opened TickRefinement
  import opened TornSaves
  import opened SoleVoter
  import opened Members
  import opened Cluster

  function Durable(disk: Disk): Meta {
    disk.meta.GetOr(NO_META)
  }

  function DurableLog(disk: Disk): Log {
    if disk.meta.Some? then disk.log else []
  }

  /** A node that is down is what its disk would restart it as. */
  function Resting(disk: Disk): Peer {
    var meta, log := Durable(disk), DurableLog(disk);
    Peer(meta.term, meta.votedFor, log, Min(meta.commit, |log|), 0, Follower, {}, map[])
  }

  /** Term, vote, log and commit index in memory are those on disk. */
  predicate OnDisk(n: Node, disk: Disk) {
    var p := Resting(disk);
    n.term == p.term && n.votedFor == p.vote && n.log == p.log && n.commit == p.commit
  }

  ghost predicate NodeRel(c: State, s: Sys, i: NodeId) {
    && i in c.nodes && i in c.disks && i in s.peers && c.nodes[i].id == i
    && var n := c.nodes[i];
       && (n.running ==> Sim(s, i, n) && n.outbox == [] && Replayed(n) && !n.fault && OnDisk(n, c.disks[i]))
       && (!n.running ==> s.peers[i] == Resting(c.disks[i]))
       && (c.disks[i].meta.None? ==> c.disks[i].log == [])
  }

  ghost predicate Rel(c: State, s: Sys) {
    && c.nodes.Keys == c.disks.Keys == s.peers.Keys && c.net <= s.net
    && forall i {:trigger NodeRel(c, s, i)} :: i in c.nodes ==> NodeRel(c, s, i)
  }

  lemma NodeRelStable(c: State, s: Sys, c': State, s': Sys, h: History, h': History, members: seq<NodeId>, i: NodeId, j: NodeId)
    requires NodeRel(c, s, j) && j != i && Reaches(s, h, s', h', members, i)
    requires j in c'.nodes && j in c'.disks && c'.nodes[j] == c.nodes[j] && c'.disks[j] == c.disks[j]
    ensures NodeRel(c', s', j)
  {
  }

  lemma RelFrame(c: State, s: Sys, c': State, s': Sys, h: History, h': History, members: seq<NodeId>, i: NodeId)
    requires Rel(c, s) && Reaches(s, h, s', h', members, i)
    requires c'.nodes.Keys == c.nodes.Keys && c'.disks.Keys == c.disks.Keys
    requires forall j :: j in c.nodes && j != i ==> c'.nodes[j] == c.nodes[j] && c'.disks[j] == c.disks[j]
    requires NodeRel(c', s', i) && c'.net <= s'.net
    ensures Rel(c', s')
  {
    forall j | j in c'.nodes ensures NodeRel(c', s', j) {
      if j != i {
        assert NodeRel(c, s, j);
        NodeRelStable(c, s, c', s', h, h', members, i, j);
      }
    }
  }

  lemma CommandApp(n: Node, c: Command)
    ensures ApplyCommand(n, c).app == n.app + if c.AppCommand? then [c] else []
  {
    hide IsVoting, Normalize, PeersOf;
  }

  lemma ApplyNextReplayed(n: Node)
    requires Replayed(n) && n.applied < n.commit
    ensures Replayed(ApplyNext(n))
  {
    hide ApplyCommand;
    var c := n.log[n.applied].command;
    CommandApp(n.(applied := n.applied + 1), c);
    assert n.log[..n.applied + 1][..n.applied] == n.log[..n.applied];
  }

  lemma {:induction false} ApplyAllFacts(n: Node)
    requires Replayed(n)
    ensures var a := ApplyAll(n); a.id == n.id && SameDurable(n, a) && a.fault == n.fault && Replayed(a) && a.applied == a.commit
    decreases n.commit - n.applied
  {
    if n.applied < n.commit {
      ApplyNextFacts(n);
      ApplyNextReplayed(n);
      ApplyAllFacts(ApplyNext(n));
    }
  }

  /** A tick up to its dump. */
  lemma WorkSim(s: Sys, h: History, members: seq<NodeId>, n: Node, e: Event) returns (s': Sys, h': History)
    requires Inv(s, h, members) && Sim(s, e.id, n) && n.config.current == members
    requires (e.Tick? || e.TornTick?) && Deliverable(s, e.id, e.inbox)
    requires Sorted(Latched(n, e)) && !Worked(n, e).fault
    ensures Reaches(s, h, s', h', members, e.id) && Sim(s', e.id, Worked(n, e)) && Routine(n, Worked(n, e))
    ensures s'.peers[e.id].term == Worked(n, e).term && s'.peers[e.id].log == Worked(n, e).log
    ensures CommitInv(s, h, members) && HonestStep(Latched(n, e)) ==> CommitInv(s', h', members)
  {
    var i := e.id;
    var n1 := Latched(n, e);
    var n2 := RoleStep(n1, e.clock);
    LatchRoutine(n, e.inbox, e.commands);
    RoleStepRoutine(n1, e.clock);
    MembershipStepRoutine(n2);
    RoutineTransitive(n, n1, n2);
    RoutineTransitive(n, n2, MembershipStep(n2));
    var s1, h1 := LatchSim(s, h, members, i, n, e.inbox, e.commands);
    var s2, h2 := RoleStepSim(s1, h1, members, i, n1, e.clock);
    ReachesTransitive(s, h, s1, h1, s2, h2, members, i);
    s', h' := MembershipStepSim(s2, h2, members, i, n2);
    ReachesTransitive(s, h, s2, h2, s', h', members, i);
  }

  /** The node ends down with a disk that keeps its promises and its log. */
  lemma RestSim(s: Sys, h: History, members: seq<NodeId>, i: NodeId, disk: Disk) returns (s': Sys)
    requires Inv(s, h, members) && i in s.peers && DurableLog(disk) == s.peers[i].log
    requires var p, p' := s.peers[i], Resting(disk);
             p.term < p'.term || (p.term == p'.term && (p.vote == None || p'.vote == p.vote))
    ensures Reaches(s, h, s', h, members, i) && s' == With(s, i, Resting(disk), {})
    ensures CommitInv(s, h, members) && Min(Durable(disk).commit, |DurableLog(disk)|) <= s.peers[i].commit ==> CommitInv(s', h, members)
  {
    var p, p' := s.peers[i], Resting(disk);
    s' := With(s, i, p', {});
    RetreatKeeps(s, h, members, i, p', {});
    if CommitInv(s, h, members) && p'.commit <= p.commit {
      assert PeerCommitOk(h, members, i, p);
      CommittedPrefix(h, members, p.log[..p.commit], p.term, p'.commit);
      assert p.log[..p.commit][..p'.commit] == p'.log[..p'.commit];
      CommittedStable(h, h, members, p'.log[..p'.commit], p.term, p'.term);
    }
  }

  /** The dump of a tick whose work left the node as w. */
  lemma DumpSim(s: Sys, h: History, members: seq<NodeId>, i: NodeId, w: Node, disk: Disk) returns (s': Sys)
    requires Inv(s, h, members) && Sim(s, i, w) && Replayed(w) && !w.fault && OnDisk(w, disk)
    requires disk.meta.None? ==> disk.log == []
    ensures var a := ApplyAll(w.(dirty := false));
            && Reaches(s, h, s', h, members, i)
            && (forall m :: m in a.outbox ==> m in s'.net)
            && NodeRel(State(map[i := a.(outbox := [])], map[i := disk], {}), s', i) && s'.peers[i].term == w.term
    ensures CommitInv(s, h, members) ==> CommitInv(s', h, members)
  {
    var w0 := w.(dirty := false);
    ApplyAllFacts(w0);
    s' := ApplyAllSim(s, h, members, i, w0);
    var a := ApplyAll(w0);
    assert OnDisk(a, disk);
    if !a.running {
      var s1 := s';
      s' := RestSim(s1, h, members, i, disk);
      ReachesTransitive(s, h, s1, h, s', h, members, i);
    }
  }

  lemma SavedOnDisk(n: Node, w: Node, disk: Disk)
    requires OnDisk(n, disk) && Routine(n, w) && InWindow(w)
    ensures OnDisk(w, if w.dirty then Save(w) else disk)
  {
  }

  lemma TickSim(c: State, s: Sys, h: History, members: seq<NodeId>, e: Event) returns (s': Sys, h': History)
    requires Inv(s, h, members) && Rel(c, s) && e.Tick? && Enabled(c, e) && c.nodes[e.id].config.current == members
    ensures Reaches(s, h, s', h', members, e.id) && Rel(Ticked(c, e), s')
    ensures CommitInv(s, h, members) && HonestStep(Latched(c.nodes[e.id], e)) ==> CommitInv(s', h', members)
  {
    hide Inv, CommitInv, HonestStep, Worked, ApplyAll, Latched, Routine, OnDisk, Sim, Reaches, Replayed, Sorted;
    var i, n, c' := e.id, c.nodes[e.id], Ticked(c, e);
    assert NodeRel(c, s, i);
    var s1, h1 := WorkSim(s, h, members, n, e);
    SavedOnDisk(n, Worked(n, e), c.disks[i]);
    RoutineReplayed(n, Worked(n, e));
    h' := h1;
    s' := DumpSim(s1, h1, members, i, Worked(n, e), c'.disks[i]);
    ReachesTransitive(s, h, s1, h1, s', h', members, i);
    SameRel(State(map[i := c'.nodes[i]], map[i := c'.disks[i]], {}), c', s', i);
    TickFrame(c, e);
    RelFrame(c, s, c', s', h, h', members, i);
  }

  lemma SameRel(c: State, c': State, s: Sys, i: NodeId)
    requires NodeRel(c, s, i) && i in c'.nodes && i in c'.disks && c'.nodes[i] == c.nodes[i] && c'.disks[i] == c.disks[i]
    ensures NodeRel(c', s, i)
  {
    hide Sim, Replayed, OnDisk;
  }

  lemma TickFrame(c: State, e: Event)
    requires e.Tick? && Enabled(c, e)
    ensures var c' := Ticked(c, e);
            && c'.nodes.Keys == c.nodes.Keys && c'.disks.Keys == c.disks.Keys
            && forall j :: j in c.nodes && j != e.id ==> c'.nodes[j] == c.nodes[j] && (j in c.disks ==> c'.disks[j] == c.disks[j])
  {
    hide Worked, ApplyAll, Latched, Sorted;
  }

  // ---- The other events ----

  /** What a node takes for committed when it starts again after a tear: the old log as far as the new
      commit index reaches in it. */
  function TornLog(c: State, e: Event): Log
    requires e.TornTick? && Enabled(c, e)
  {
    var log := DurableLog(c.disks[e.id]);
    log[..Min(Worked(c.nodes[e.id], e).commit, |log|)]
  }

  /** In this tick the node has committed by its own scan, and its configuration's quorums need nobody
      but itself for that. */
  predicate CommitsAlone(n: Node, e: Event)
    requires (e.Tick? || e.TornTick?) && Sorted(Latched(n, e))
  {
    && ConfigQuorum({n.id}, n.config)
    && (Latched(n, e).commit > n.commit || Worked(n, e).commit > RoleStep(Latched(n, e), e.clock).commit)
  }

  /** Unless the node commits alone, everything the tick committed was chosen before the tick. */
  lemma WorkBacked(s: Sys, h: History, members: seq<NodeId>, n: Node, e: Event)
    requires AtStart(s, h, members, e.id) && Sim(s, e.id, n) && n.config.current == members
    requires (e.Tick? || e.TornTick?) && Deliverable(s, e.id, e.inbox)
    requires Sorted(Latched(n, e)) && !Worked(n, e).fault && !CommitsAlone(n, e)
    ensures Backed(h, members, Worked(n, e))
  {
    assert n.id == e.id && Deliverable(s, e.id, n.appends);
    hide Inv, CommitInv, Backed, Sim, RoleStep, MembershipStep, Latch, ConfigQuorum, Sorted;
    var n1 := Latched(n, e);
    var n2 := RoleStep(n1, e.clock);
    LatchRoutine(n, e.inbox, e.commands);
    RoleStepRoutine(n1, e.clock);
    MembershipStepRoutine(n2);
    PhasesAided(n, e);
    StartBacked(s, h, members, n);
    LatchBacked(s, h, members, n, e.inbox, e.commands);
    var s1, h1 := LatchSim(s, h, members, e.id, n, e.inbox, e.commands);
    LatchAppends(s, n, e.inbox, e.commands);
    RoleStepBacked(s, h, s1, h1, members, n1, e.clock);
    MembershipStepBacked(s, h, members, n2);
  }

  lemma PhasesAided(n: Node, e: Event)
    requires (e.Tick? || e.TornTick?) && Sorted(Latched(n, e)) && !CommitsAlone(n, e)
    ensures var n1 := Latched(n, e);
            var n2 := RoleStep(n1, e.clock);
            && Aided(n, n1) && Aided(n2, MembershipStep(n2))
            && n1.config == n2.config == n.config && n1.id == n2.id == n.id
  {
    var n1 := Latched(n, e);
    var n2 := RoleStep(n1, e.clock);
    LatchRoutine(n, e.inbox, e.commands);
    RoleStepRoutine(n1, e.clock);
    LatchRaises(n, e);
    MembershipRaises(n2);
    hide RoleStep, MembershipStep, Latch, ConfigQuorum, Sorted;
  }

  lemma LatchRaises(n: Node, e: Event)
    requires e.Tick? || e.TornTick?
    ensures Latched(n, e).commit >= n.commit
  {
    ReceiveAllRaises(n, e.inbox);
    AppendAllRaises(ReceiveAll(n, e.inbox), e.commands);
    hide ReceiveAll, AppendAll;
  }

  lemma MembershipRaises(n: Node)
    ensures MembershipStep(n).commit >= n.commit
  {
    hide CaughtUp, AppendLocal;
    if n.membership == Stable && HasChangeRequest(n) {
      AppendLocalRaises(n.(membership := JointPending, target := Some(n.requested.value), jointIndex := |n.log| + 1, outbox := []),
                        EnterJoint(n.requested.value));
    } else if n.membership == Joint && CanFinalize(n) {
      AppendLocalRaises(n.(membership := Finalizing, finalIndex := |n.log| + 1), LeaveJoint(n.target.value));
    } else {
      NoChange(n);
    }
  }

  lemma {:induction false} ReceiveAllAppends(n: Node, inbox: seq<Message>, m: Message)
    requires m in ReceiveAll(n, inbox).appends
    ensures m in n.appends || m in inbox
    decreases |inbox|
  {
    if inbox != [] {
      if inbox[0].AppendReply? { AppendReplyQueues(n, inbox[0]); }
      ReceiveAllAppends(Receive(n, inbox[0]), inbox[1..], m);
    }
  }

  predicate SameQueues(n: Node, n': Node) {
    n'.appends == n.appends && n'.voteRequests == n.voteRequests && n'.voteReplies == n.voteReplies
  }

  lemma AppendReplyQueues(n: Node, m: Message)
    requires m.AppendReply?
    ensures SameQueues(n, HandleAppendReply(n, m))
  {
    hide AdvanceCommit, SendTo;
    var n1 := AdoptTerm(n, m.term);
    if m.source in n1.nextIndex {
      SendQueues(n1.(nextIndex := n1.nextIndex[m.source := BackOff(n1.nextIndex[m.source])]), m.source);
    }
    AdvanceQueues(n1.(matchIndex := n1.matchIndex[m.source := m.matchIndex], nextIndex := n1.nextIndex[m.source := m.matchIndex + 1]));
  }

  lemma SendQueues(n: Node, peer: NodeId)
    ensures SameQueues(n, SendTo(n, peer))
  {
    hide AppendMessage, SendIndex;
  }

  lemma AdvanceQueues(n: Node)
    ensures SameQueues(n, AdvanceCommit(n))
  {
    hide CommitScan;
  }

  lemma {:induction false} AppendAllAppends(n: Node, commands: seq<Command>)
    ensures AppendAll(n, commands).appends == n.appends
    decreases |commands|
  {
    if commands != [] { AppendAllAppends(AppendLocal(n, commands[0]), commands[1..]); }
  }

  /** Latched AppendEntries were already queued or have just been delivered. */
  lemma LatchAppends(s: Sys, n: Node, inbox: seq<Message>, commands: seq<Command>)
    requires (forall m :: m in n.appends ==> m in s.net) && (forall m :: m in inbox ==> m in s.net)
    ensures forall m :: m in Latch(n, inbox, commands).appends ==> m in s.net
  {
    var n1 := ReceiveAll(n, inbox);
    AppendAllAppends(n1, commands);
    forall m | m in n1.appends ensures m in s.net {
      ReceiveAllAppends(n, inbox, m);
    }
  }

  lemma AtTheStart(s: Sys, h: History, members: seq<NodeId>, n: Node)
    requires Inv(s, h, members) && CommitInv(s, h, members) && Sim(s, n.id, n)
    ensures s.peers[n.id].log == n.log && s.peers[n.id].term == n.term && n.commit <= |n.log|
    ensures Committed(h, members, n.log[..n.commit], n.term)
    ensures AtStart(s, h, members, n.id)
    ensures Extends(h, h)
  {
    assert PeerCommitOk(h, members, n.id, s.peers[n.id]);
  }

  /** Unless the node commits alone, what the tick committed was chosen before it; so what a tear leaves
      was chosen if and only if the old log agrees with the new one that far. */
  lemma AidedChosenIff(c: State, s: Sys, h: History, members: seq<NodeId>, e: Event)
    requires Inv(s, h, members) && CommitInv(s, h, members) && Rel(c, s)
    requires e.TornTick? && Enabled(c, e) && c.nodes[e.id].config.current == members && !CommitsAlone(c.nodes[e.id], e)
    ensures var w := Worked(c.nodes[e.id], e);
            && w.commit <= |w.log| && Committed(h, members, w.log[..w.commit], w.term) && |TornLog(c, e)| <= w.commit
            && (TornLog(c, e) <= w.log <==> Committed(h, members, TornLog(c, e), w.term))
  {
    hide Inv, CommitInv, Worked, Latched, Sim, HasQuorum, Committed;
    var i, n, w, kept := e.id, c.nodes[e.id], Worked(c.nodes[e.id], e), TornLog(c, e);
    assert NodeRel(c, s, i);
    AtTheStart(s, h, members, n);
    WorkBacked(s, h, members, n, e);
    if kept <= w.log {
      CommittedPrefix(h, members, w.log[..w.commit], w.term, |kept|);
      assert w.log[..w.commit][..|kept|] == kept;
    }
    if Committed(h, members, kept, w.term) {
      CommittedAgree(s, h, members, kept, w.term, w.log[..w.commit], w.term);
      ComparablePrefix(kept, w.log[..w.commit]);
      assert w.log[..w.commit] <= w.log;
    }
  }

  lemma ComparablePrefix(a: Log, b: Log)
    requires |a| <= |b| && (a <= b || b <= a)
    ensures a <= b
  {
  }

  /** A node that commits alone keeps its log through the tick: no later leader can have sent it anything. */
  lemma AloneKeepsLog(s: Sys, h: History, members: seq<NodeId>, n: Node, e: Event)
    requires Inv(s, h, members) && Sim(s, e.id, n) && n.config.current == members
    requires (e.Tick? || e.TornTick?) && Deliverable(s, e.id, e.inbox)
    requires Sorted(Latched(n, e)) && !Worked(n, e).fault && CommitsAlone(n, e)
    ensures n.log <= Worked(n, e).log && HasQuorum({n.id}, members)
  {
    hide HasQuorum, RoleStep, MembershipStep, Latch, Inv, Routine;
    var n1, w := Latched(n, e), Worked(n, e);
    WorkLog(n, e);
    MembershipStepRoutine(RoleStep(n1, e.clock));
    if !(n.log <= w.log) {
      LatchAppends(s, n, e.inbox, e.commands);
      SentInReign(s, h, members, n1.appends[0]);
      NoLaterReign(s, h, members, n.id, w.term);
      KeptThroughTerm(s, h, members, n, e);
    }
  }

  lemma SentInReign(s: Sys, h: History, members: seq<NodeId>, m: Message)
    requires Inv(s, h, members) && m in s.net && m.AppendEntries?
    ensures m.term in h.reigns
  {
    assert MessageOk(h, m);
  }

  /** While its term lasts a leader's log is all of its reign's and stays so. */
  lemma KeptThroughTerm(s: Sys, h: History, members: seq<NodeId>, n: Node, e: Event)
    requires Inv(s, h, members) && Sim(s, e.id, n) && n.config.current == members && n.role == Leader
    requires (e.Tick? || e.TornTick?) && Deliverable(s, e.id, e.inbox)
    requires Sorted(Latched(n, e)) && !Worked(n, e).fault && Worked(n, e).term <= n.term
    ensures n.log <= Worked(n, e).log
  {
    var s', h' := WorkSim(s, h, members, n, e);
    hide Latched, Worked, HonestStep, CommitInv;
    assert PeerOk(h, e.id, s.peers[e.id]);
    assert h.reigns[n.term].log[..|n.log|] == n.log;
  }

  /** A node that commits alone has nothing chosen but what it acknowledged in the entry's own term. */
  lemma AloneChosenIff(c: State, s: Sys, h: History, members: seq<NodeId>, e: Event)
    requires Inv(s, h, members) && CommitInv(s, h, members) && Rel(c, s)
    requires e.TornTick? && Enabled(c, e) && c.nodes[e.id].config.current == members && CommitsAlone(c.nodes[e.id], e)
    ensures TornLog(c, e) <= Worked(c.nodes[e.id], e).log
    ensures AckedTo(h, e.id, DurableLog(c.disks[e.id]), |TornLog(c, e)|)
            <==> Committed(h, members, TornLog(c, e), Worked(c.nodes[e.id], e).term)
  {
    hide Inv, CommitInv, Worked, Latched, HasQuorum, Committed, CommitsAlone, AckedTo;
    var n := c.nodes[e.id];
    assert NodeRel(c, s, e.id);
    WorkRoutine(n, e);
    AloneKeepsLog(s, h, members, n, e);
    SoleChosen(s, h, members, e.id, |TornLog(c, e)|, Worked(n, e).term);
  }

  /** Exactly when a torn save leaves as committed only what was chosen before the tick. */
  lemma TornChosenIff(c: State, s: Sys, h: History, members: seq<NodeId>, e: Event)
    requires Inv(s, h, members) && CommitInv(s, h, members) && Rel(c, s)
    requires e.TornTick? && Enabled(c, e) && c.nodes[e.id].config.current == members
    ensures var n, kept := c.nodes[e.id], TornLog(c, e);
            Committed(h, members, kept, Worked(n, e).term)
            <==> kept <= Worked(n, e).log && (CommitsAlone(n, e) ==> AckedTo(h, e.id, DurableLog(c.disks[e.id]), |kept|))
  {
    hide Inv, CommitInv, Worked, Latched, Committed, CommitsAlone, AckedTo, Rel, TornLog, Sorted;
    if CommitsAlone(c.nodes[e.id], e) {
      AloneChosenIff(c, s, h, members, e);
    } else {
      AidedChosenIff(c, s, h, members, e);
    }
  }

  lemma TornSim(c: State, s: Sys, h: History, members: seq<NodeId>, e: Event) returns (s': Sys)
    requires Inv(s, h, members) && Rel(c, s) && e.TornTick? && Enabled(c, e) && c.nodes[e.id].config.current == members
    ensures Reaches(s, h, s', h, members, e.id) && Rel(Step(c, e), s')
    ensures CommitInv(s, h, members) && Committed(h, members, TornLog(c, e), Worked(c.nodes[e.id], e).term) ==> CommitInv(s', h, members)
  {
    hide Inv, CommitInv, Worked, Latched, Sim, Committed, Reaches;
    var i, n, c' := e.id, c.nodes[e.id], Step(c, e);
    assert NodeRel(c, s, i);
    var w := Worked(n, e);
    WorkRoutine(n, e);
    var disk := c'.disks[i];
    s' := TornRestSim(s, h, members, n, w, c.disks[i], disk);
    if CommitInv(s, h, members) && Committed(h, members, TornLog(c, e), w.term) {
      TornCommit(s, h, members, n, w, c.disks[i], disk);
    }
    assert NodeRel(c', s', i);
    RelFrame(c, s, c', s', h, h, members, i);
  }

  lemma WorkRoutine(n: Node, e: Event)
    requires (e.Tick? || e.TornTick?) && Sorted(Latched(n, e))
    ensures Routine(n, Worked(n, e))
  {
    hide RoleStep, MembershipStep, Latch, Routine;
    var n1 := Latched(n, e);
    LatchRoutine(n, e.inbox, e.commands);
    RoleStepRoutine(n1, e.clock);
    MembershipStepRoutine(RoleStep(n1, e.clock));
    RoutineTransitive(n, n1, RoleStep(n1, e.clock));
    RoutineTransitive(n, RoleStep(n1, e.clock), Worked(n, e));
  }

  lemma TornRestSim(s: Sys, h: History, members: seq<NodeId>, n: Node, w: Node, was: Disk, disk: Disk) returns (s': Sys)
    requires Inv(s, h, members) && Sim(s, n.id, n) && OnDisk(n, was) && Routine(n, w)
    requires disk == Disk(Save(w).meta, was.log) && (was.meta.None? ==> was.log == [])
    ensures s' == With(s, n.id, Resting(disk), {})
    ensures Reaches(s, h, s', h, members, n.id)
  {
    s' := RestSim(s, h, members, n.id, disk);
  }

  lemma TornCommit(s: Sys, h: History, members: seq<NodeId>, n: Node, w: Node, was: Disk, disk: Disk)
    requires Inv(s, h, members) && CommitInv(s, h, members) && Sim(s, n.id, n) && OnDisk(n, was) && Routine(n, w)
    requires disk == Disk(Save(w).meta, was.log) && (was.meta.None? ==> was.log == [])
    requires Committed(h, members, was.log[..Min(w.commit, |was.log|)], w.term)
    ensures CommitInv(With(s, n.id, Resting(disk), {}), h, members)
  {
    RetreatKeeps(s, h, members, n.id, Resting(disk), {});
  }

  lemma DownSim(c: State, s: Sys, h: History, members: seq<NodeId>, e: Event) returns (s': Sys)
    requires Inv(s, h, members) && Rel(c, s) && (e.Crash? || e.Stop?) && Enabled(c, e)
    ensures Reaches(s, h, s', h, members, e.id) && Rel(Step(c, e), s')
    ensures CommitInv(s, h, members) ==> CommitInv(s', h, members)
  {
    hide Inv, CommitInv, Worked, Latched, Load, Normalize, Save;
    assert NodeRel(c, s, e.id);
    s' := RestSim(s, h, members, e.id, c.disks[e.id]);
    assert NodeRel(Step(c, e), s', e.id);
    RelFrame(c, s, Step(c, e), s', h, h, members, e.id);
  }

  lemma LoadFacts(n: Node, disk: Disk)
    ensures var n' := Load(n, disk);
            && n'.id == n.id && n'.running && !n'.fault && n'.outbox == [] && n'.appends == [] && n'.voteRequests == [] && n'.voteReplies == []
            && PeerOf(n') == Resting(disk).(matched := n'.matchIndex) && n'.app == []
  {
    hide Normalize, PeersOf;
  }

  lemma StartSim(c: State, s: Sys, h: History, members: seq<NodeId>, e: Event) returns (s': Sys)
    requires Inv(s, h, members) && Rel(c, s) && e.Start? && Enabled(c, e)
    ensures Reaches(s, h, s', h, members, e.id) && Rel(Step(c, e), s')
    ensures CommitInv(s, h, members) ==> CommitInv(s', h, members)
  {
    hide Load, Inv, CommitInv, Worked, Latched, Normalize, Committed;
    var i, n', disk := e.id, Load(c.nodes[e.id], c.disks[e.id]), c.disks[e.id];
    assert NodeRel(c, s, i);
    LoadFacts(c.nodes[i], disk);
    s' := With(s, i, PeerOf(n'), {});
    if CommitInv(s, h, members) { CommitHere(s, h, members, i); }
    RetreatKeeps(s, h, members, i, PeerOf(n'), {});
    assert NodeRel(Step(c, e), s', i);
    RelFrame(c, s, Step(c, e), s', h, h, members, i);
  }

  lemma CommitHere(s: Sys, h: History, members: seq<NodeId>, i: NodeId)
    requires CommitInv(s, h, members) && i in s.peers
    ensures var p := s.peers[i]; p.applied <= p.commit <= |p.log| && Committed(h, members, p.log[..p.commit], p.term)
  {
    assert PeerCommitOk(h, members, i, s.peers[i]);
  }

  // ---- One event, any event ----

  /** No dishonest acknowledgement, and no torn save that leaves as committed what was not chosen. */
  ghost predicate Harmless(c: State, h: History, members: seq<NodeId>, e: Event)
    requires Enabled(c, e)
  {
    && (e.Tick? ==> HonestStep(Latched(c.nodes[e.id], e)))
    && (e.TornTick? ==> Committed(h, members, TornLog(c, e), Worked(c.nodes[e.id], e).term))
  }

  lemma StepSim(c: State, s: Sys, h: History, members: seq<NodeId>, e: Event) returns (s': Sys, h': History)
    requires Inv(s, h, members) && Rel(c, s) && Enabled(c, e) && Based(c, members)
    ensures Inv(s', h', members) && Extends(h, h') && AllRetain(s, h, s') && Rel(Step(c, e), s')
    ensures e.id in s'.peers && Reported(h, h', e.id, s'.peers[e.id].term)
    ensures CommitInv(s, h, members) && Harmless(c, h, members, e) ==> CommitInv(s', h', members)
  {
    hide Inv, CommitInv, Rel, AllRetain;
    h' := h;
    match e
    case Tick(_, _, _, _) =>
      s', h' := TickSim(c, s, h, members, e);
      ReachesRetain(s, h, s', h', members, e.id);
    case TornTick(_, _, _, _) =>
      s' := TornSim(c, s, h, members, e);
      ReachesRetain(s, h, s', h, members, e.id);
    case Crash(_) =>
      s' := DownSim(c, s, h, members, e);
      ReachesRetain(s, h, s', h, members, e.id);
    case Stop(_) =>
      s' := DownSim(c, s, h, members, e);
      ReachesRetain(s, h, s', h, members, e.id);
    case Start(_) =>
      s' := StartSim(c, s, h, members, e);
      ReachesRetain(s, h, s', h, members, e.id);
    case RequestChange(i, _) =>
      s' := s;
      AllRetainSame(s, h);
      RequestRel(c, s, e);
  }

  lemma RequestRel(c: State, s: Sys, e: Event)
    requires Rel(c, s) && e.RequestChange? && Enabled(c, e)
    ensures Rel(Step(c, e), s) && e.id in s.peers
  {
    hide Normalize;
    forall j | j in c.nodes ensures NodeRel(Step(c, e), s, j) {
      assert NodeRel(c, s, j);
    }
  }
}
