/** Stopping or crashing a Python node and starting it again: in every run it comes back, once its apply
    loop has caught up, with what it had, although the files are written before what they commit is applied. */
module NodeRestarts {
  import opened RaftTypes
  import opened Members
  import opened NodeSpec
  import opened NodeLocal
  import opened Cluster
  import opened TransitionTables
  import opened ClusterSafety
  import TickRefinement

  /** What applying entries changes, but for the application. */
  datatype Setup = Setup(config: Configuration, threshold: int, running: bool)

  function SetupOf(n: Node): Setup {
    Setup(n.config, n.threshold, n.running)
  }

  /** The entry at an index, applied by a node. */
  function Configured(s: Setup, id: NodeId, c: Command, index: nat): Setup {
    match c
    case SetMaxLog(t) => s.(threshold := t)
    case EnterJoint(members) =>
      if index <= s.config.index then s else s.(config := JointConfig(s.config.current, Normalize(members), index))
    case LeaveJoint(members) =>
      if index <= s.config.index then s
      else
        var config := StableConfig(Normalize(members), index);
        s.(config := config, running := s.running && (MemberOf(id, config) || !MemberOf(id, s.config)))
    case AppCommand(_, _, _) => s
  }

  function Rerun(s: Setup, id: NodeId, log: Log, from: nat): Setup
    decreases |log|
  {
    if log == [] then s else Configured(Rerun(s, id, log[..|log| - 1], from), id, log[|log| - 1].command, from + |log|)
  }

  lemma {:induction false} RerunSplit(s: Setup, id: NodeId, a: Log, b: Log, from: nat)
    ensures Rerun(s, id, a + b, from) == Rerun(Rerun(s, id, a, from), id, b, from + |a|)
    decreases |b|
  {
    hide Configured;
    if b == [] {
      assert a + b == a;
    } else {
      assert (a + b)[..|a + b| - 1] == a + b[..|b| - 1];
      RerunSplit(s, id, a, b[..|b| - 1], from);
    }
  }

  // ---- Entries a setup already covers ----

  predicate Configures(c: Command) {
    c.EnterJoint? || c.LeaveJoint?
  }

  /** The last threshold an entry sets. */
  function LastLimit(log: Log): Option<int> {
    if log == [] then None
    else if log[|log| - 1].command.SetMaxLog? then Some(log[|log| - 1].command.threshold)
    else LastLimit(log[..|log| - 1])
  }

  /** The configuration is as recent as every change in the log, and the threshold is the last one set. */
  predicate Covers(s: Setup, log: Log) {
    && (forall k :: 0 <= k < |log| && Configures(log[k].command) ==> k + 1 <= s.config.index)
    && s.threshold == LastLimit(log).GetOr(s.threshold)
  }

  /** Entries a setup covers change nothing, applied once more. */
  lemma {:induction false} CoveredRerun(s: Setup, id: NodeId, log: Log)
    requires forall k :: 0 <= k < |log| && Configures(log[k].command) ==> k + 1 <= s.config.index
    ensures Rerun(s, id, log, 0) == s.(threshold := LastLimit(log).GetOr(s.threshold))
    decreases |log|
  {
    if log != [] { CoveredRerun(s, id, log[..|log| - 1]); }
    hide JointConfig, StableConfig, Normalize;
  }

  lemma ConfiguredIndex(s: Setup, id: NodeId, c: Command, index: nat)
    ensures var t := Configured(s, id, c, index);
            && t.config.index >= s.config.index && (Configures(c) ==> t.config.index >= index)
            && t.threshold == if c.SetMaxLog? then c.threshold else s.threshold
  {
    hide Normalize;
  }

  /** What further entries make of a setup covers them too. */
  lemma {:induction false} RerunCovers(s: Setup, id: NodeId, log: Log, p: nat, q: nat)
    requires p <= q <= |log| && Covers(s, log[..p])
    ensures Covers(Rerun(s, id, log[p..q], p), log[..q])
    decreases q
  {
    hide Configured;
    if p == q {
      assert log[p..q] == [];
    } else {
      RerunCovers(s, id, log, p, q - 1);
      assert log[p..q][..q - 1 - p] == log[p..q - 1] && log[..q][..q - 1] == log[..q - 1];
      var t := Rerun(s, id, log[p..q - 1], p);
      ConfiguredIndex(t, id, log[q - 1].command, q);
      assert Rerun(s, id, log[p..q], p) == Configured(t, id, log[q - 1].command, q);
      CoversNext(t, Configured(t, id, log[q - 1].command, q), log, q);
    }
  }

  lemma CoversNext(s: Setup, t: Setup, log: Log, q: nat)
    requires 0 < q <= |log| && Covers(s, log[..q - 1]) && t.config.index >= s.config.index
    requires Configures(log[q - 1].command) ==> t.config.index >= q
    requires t.threshold == if log[q - 1].command.SetMaxLog? then log[q - 1].command.threshold else s.threshold
    ensures Covers(t, log[..q])
  {
    assert log[..q][..q - 1] == log[..q - 1];
    assert forall k :: 0 <= k < q - 1 ==> log[..q][k] == log[..q - 1][k];
  }

  // ---- Node and files ----

  /** The setup the files restart a node with. */
  function OnFile(n: Node, disk: Disk): Setup {
    Setup(StoredConfig(n, Durable(disk)), Durable(disk).threshold, true)
  }

  predicate Normal(c: Configuration) {
    Normalize(c.current) == c.current && (c.joint.Some? ==> Normalize(c.joint.value) == c.joint.value)
  }

  /** The node's setup is that of its files with the entries applied since, from some index on. */
  predicate Resumes(n: Node, disk: Disk, p: nat) {
    && p <= n.applied <= |n.log|
    && Covers(OnFile(n, disk), n.log[..p])
    && SetupOf(n) == Rerun(OnFile(n, disk), n.id, n.log[p..n.applied], p)
  }

  ghost predicate Restartable(n: Node, disk: Disk) {
    && OnDisk(n, disk) && Replayed(n) && Normal(n.config) && n.peers == PeersOf(n.config, n.id)
    && exists p: nat :: Resumes(n, disk, p)
  }

  // ---- Applying ----

  lemma NormalForms(a: seq<NodeId>, b: seq<NodeId>, index: nat)
    ensures Normal(StableConfig(a, index)) && Normal(JointConfig(a, b, index))
  {
    NormalizeBySet(a, a);
    NormalizeBySet(b, b);
    hide Normalize;
  }

  lemma CommandSetup(n: Node, c: Command)
    ensures var n' := ApplyCommand(n, c);
            && SetupOf(n') == Configured(SetupOf(n), n.id, c, n.applied) && n'.id == n.id && n'.initial == n.initial
            && (Normal(n.config) ==> Normal(n'.config))
            && (n.peers == PeersOf(n.config, n.id) ==> n'.peers == PeersOf(n'.config, n'.id))
  {
    match c
    case EnterJoint(members) =>
      NormalForms(n.config.current, Normalize(members), n.applied);
      hide Normalize, PeersOf, IsVoting, Normal, MemberOf;
    case LeaveJoint(members) =>
      NormalForms(Normalize(members), [], n.applied);
      VotingIs(n);
      VotingIs(RefreshPeers(StableWith(n, Normalize(members))));
      hide Normalize, PeersOf, IsVoting, Normal, MemberOf;
    case _ =>
  }

  lemma NextSetup(n: Node)
    requires n.applied < n.commit <= |n.log|
    ensures var n' := ApplyNext(n);
            && SetupOf(n') == Configured(SetupOf(n), n.id, n.log[n.applied].command, n.applied + 1) && n'.id == n.id
            && n'.initial == n.initial
            && (Normal(n.config) ==> Normal(n'.config))
            && (n.peers == PeersOf(n.config, n.id) ==> n'.peers == PeersOf(n'.config, n'.id))
  {
    var n1, c := n.(applied := n.applied + 1), n.log[n.applied].command;
    CommandSetup(n1, c);
    NextIs(n);
    hide ApplyCommand, ApplyNext, Configured, PeersOf, Normal;
  }

  lemma NextIs(n: Node)
    requires n.applied < |n.log|
    ensures ApplyNext(n) == ApplyCommand(n.(applied := n.applied + 1), n.log[n.applied].command)
  {
    hide ApplyCommand;
  }

  lemma RerunNext(s: Setup, id: NodeId, log: Log, i: nat, j: nat)
    requires i < j <= |log|
    ensures Rerun(s, id, log[i..j], i) == Rerun(Configured(s, id, log[i].command, i + 1), id, log[i + 1..j], i + 1)
  {
    assert log[i..j] == [log[i]] + log[i + 1..j];
    RerunSplit(s, id, [log[i]], log[i + 1..j], i);
    assert Rerun(s, id, [log[i]], i) == Configured(s, id, log[i].command, i + 1) by {
      assert [log[i]][..0] == [] && Rerun(s, id, [], i) == s;
    }
    hide Configured;
  }

  lemma {:induction false} AllSetup(n: Node)
    requires InWindow(n)
    ensures var n' := ApplyAll(n);
            && SetupOf(n') == Rerun(SetupOf(n), n.id, n.log[n.applied..n.commit], n.applied) && n'.id == n.id && n'.initial == n.initial
            && n'.applied == n.commit && SameDurable(n, n')
            && (Normal(n.config) ==> Normal(n'.config))
            && (n.peers == PeersOf(n.config, n.id) ==> n'.peers == PeersOf(n'.config, n'.id))
    decreases n.commit - n.applied
  {
    hide ApplyNext, Configured, PeersOf, Normal, Rerun;
    if n.applied < n.commit {
      NextSetup(n);
      ApplyNextSame(n);
      RerunNext(SetupOf(n), n.id, n.log, n.applied, n.commit);
      AllSetup(ApplyNext(n));
    } else {
      RerunNothing(SetupOf(n), n.id, n.log, n.applied);
    }
  }

  lemma RerunNothing(s: Setup, id: NodeId, log: Log, i: nat)
    requires i <= |log|
    ensures Rerun(s, id, log[i..i], i) == s
  {
  }

  lemma ApplyNextSame(n: Node)
    requires n.applied < n.commit <= |n.log|
    ensures SameDurable(n, ApplyNext(n)) && ApplyNext(n).applied == n.applied + 1
  {
    TickRefinement.ApplyNextFacts(n);
    hide ApplyNext;
  }

  // ---- Ticks ----

  lemma SavedSetup(w: Node, disk: Disk)
    requires Normal(w.config) && w.config.current != [] && w.running && disk == Save(w)
    ensures OnFile(w, disk) == SetupOf(w)
  {
    hide Normalize;
  }

  lemma SameOnFile(n: Node, n': Node, disk: Disk)
    requires n'.initial == n.initial
    ensures OnFile(n', disk) == OnFile(n, disk)
  {
    hide Normalize;
  }

  /** Before the dump the setup is what it was and covers what is applied. */
  lemma SetupCovers(n: Node, disk: Disk)
    requires Restartable(n, disk)
    ensures n.applied <= |n.log| && Covers(SetupOf(n), n.log[..n.applied])
  {
    hide OnFile;
    var p: nat :| Resumes(n, disk, p);
    RerunCovers(OnFile(n, disk), n.id, n.log, p, n.applied);
    hide Covers, Rerun;
  }

  lemma WorkSetup(n: Node, w: Node)
    requires Routine(n, w) && InWindow(n) && n.applied <= |n.log| && Covers(SetupOf(n), n.log[..n.applied])
    ensures SetupOf(w) == SetupOf(n) && w.applied <= |w.log| && Covers(SetupOf(w), w.log[..w.applied])
  {
    assert w.applied == 0 ==> w.log[..w.applied] == [];
  }

  /** The files after the tick, whether it saved or not. */
  lemma WorkResumes(n: Node, w: Node, disk: Disk) returns (p: nat)
    requires Restartable(n, disk) && Routine(n, w) && n.running && n.config.current != []
    ensures Resumes(w, if w.dirty then Save(w) else disk, p)
  {
    hide OnFile, Normalize, Save;
    SetupCovers(n, disk);
    WorkSetup(n, w);
    if w.dirty {
      p := w.applied;
      SavedSetup(w, Save(w));
      RerunNothing(SetupOf(w), w.id, w.log, p);
    } else {
      p :| Resumes(n, disk, p);
      SameOnFile(n, w, disk);
    }
    hide Covers, Rerun;
  }

  lemma DumpResumes(w: Node, disk: Disk, p: nat)
    requires Resumes(w, disk, p) && InWindow(w)
    ensures Resumes(ApplyAll(w), disk, p)
  {
    AllSetup(w);
    SameOnFile(w, ApplyAll(w), disk);
    CutInThree(w.log, p, w.applied, w.commit);
    hide ApplyAll, OnFile, PeersOf, Normal, Covers, Rerun;
    RerunSplit(OnFile(w, disk), w.id, w.log[p..w.applied], w.log[w.applied..w.commit], p);
  }

  lemma TickRestartable(c: State, e: Event)
    requires e.Tick? && Enabled(c, e) && Restartable(c.nodes[e.id], c.disks[e.id]) && c.nodes[e.id].config.current != []
    ensures Restartable(Step(c, e).nodes[e.id], Step(c, e).disks[e.id])
  {
    hide Worked, Latched, Sorted, OnDisk, Resumes, ApplyAll, PeersOf, Normal, Save, Routine;
    var n, w := c.nodes[e.id], Worked(c.nodes[e.id], e);
    var disk := if w.dirty then Save(w) else c.disks[e.id];
    WorkRoutine(n, e);
    WorkKeeps(n, w);
    SavedOnDisk(n, w, c.disks[e.id]);
    RoutineReplayed(n, w);
    var p := WorkResumes(n, w, c.disks[e.id]);
    var w0 := w.(dirty := false);
    CleanAlike(w, disk, p);
    DumpResumes(w0, disk, p);
    AllSetup(w0);
    ApplyAllFacts(w0);
    SentAlike(ApplyAll(w0), disk, p);
    OnDiskAlike(w, ApplyAll(w0).(outbox := []), disk);
  }

  lemma WorkKeeps(n: Node, w: Node)
    requires Routine(n, w)
    ensures w.config == n.config && w.peers == n.peers && w.id == n.id && w.running == n.running
  {
  }

  lemma CleanAlike(w: Node, disk: Disk, p: nat)
    requires Resumes(w, disk, p)
    ensures Resumes(w.(dirty := false), disk, p)
  {
    SameOnFile(w, w.(dirty := false), disk);
    hide OnFile;
  }

  lemma SentAlike(a: Node, disk: Disk, p: nat)
    requires Resumes(a, disk, p) && Replayed(a)
    ensures Resumes(a.(outbox := []), disk, p) && Replayed(a.(outbox := []))
  {
    SameOnFile(a, a.(outbox := []), disk);
    hide OnFile;
  }

  lemma OnDiskAlike(w: Node, a: Node, disk: Disk)
    requires OnDisk(w, disk) && SameDurable(w, a)
    ensures OnDisk(a, disk)
  {
  }

  // ---- Starts ----

  lemma LoadSetup(n: Node, disk: Disk)
    ensures var n' := Load(n, disk);
            && SetupOf(n') == OnFile(n, disk) && Normal(n'.config) && n'.peers == PeersOf(n'.config, n'.id)
            && n'.initial == n.initial && n'.id == n.id && n'.applied == 0 && n'.app == [] && n'.log == DurableLog(disk)
  {
    var config := Durable(disk).config;
    NormalForms(if config.current == [] then n.initial else config.current, config.joint.GetOr([]), 0);
    hide Normalize, PeersOf;
  }

  lemma LoadRestartable(n: Node, disk: Disk)
    ensures Restartable(Load(n, disk), disk)
  {
    LoadFacts(n, disk);
    LoadSetup(n, disk);
    hide Load, OnFile, PeersOf, Normal, Covers;
    var n' := Load(n, disk);
    SameOnFile(n, n', disk);
    NothingCovered(OnFile(n, disk));
    assert n'.log[..0] == [] && n'.log[0..0] == [];
    assert Resumes(n', disk, 0);
  }

  lemma NothingCovered(s: Setup)
    ensures Covers(s, [])
  {
  }

  // ---- Runs ----

  /** Every running node is up to its files. */
  ghost predicate AllRestartable(c: State) {
    && c.nodes.Keys == c.disks.Keys
    && forall i {:trigger Restartable(c.nodes[i], c.disks[i])} :: i in c.nodes && c.nodes[i].running ==> Restartable(c.nodes[i], c.disks[i])
  }

  /** No running node has an empty member list. */
  predicate Peopled(c: State) {
    forall i :: i in c.nodes && c.nodes[i].running ==> c.nodes[i].config.current != []
  }

  predicate AlwaysPeopled(r: Run) {
    forall k: nat {:trigger Peopled(r.states[k])} :: k < |r.states| ==> Peopled(r.states[k])
  }

  lemma RequestRestartable(n: Node, members: Option<seq<NodeId>>, disk: Disk)
    requires Restartable(n, disk)
    ensures Restartable(n.(requested := members, requestPending := true), disk)
  {
    var p: nat :| Resumes(n, disk, p);
    var n' := n.(requested := members, requestPending := true);
    SameOnFile(n, n', disk);
    hide OnFile, Covers, Rerun, PeersOf, Normal, OnDisk, Replay;
    assert Resumes(n', disk, p);
  }

  lemma StepRestartable(c: State, e: Event)
    requires AllRestartable(c) && Peopled(c) && Enabled(c, e)
    ensures AllRestartable(Step(c, e))
  {
    hide Worked, Latched, Sorted, ApplyAll, Load, Normalize, Restartable, Save;
    match e
    case Tick(i, _, _, _) =>
      TickRestartable(c, e);
      TickFrame(c, e);
    case Start(i) =>
      LoadRestartable(c.nodes[i], c.disks[i]);
    case RequestChange(i, members) =>
      if c.nodes[i].running { RequestRestartable(c.nodes[i], Some(Normalize(members)), c.disks[i]); }
    case _ =>
  }

  lemma {:induction false} RunRestartable(r: Run, k: nat)
    requires IsRun(r) && AlwaysPeopled(r) && k < |r.states|
    ensures AllRestartable(r.states[k])
  {
    hide Step, Enabled, Restartable, Peopled;
    if k == 0 {
      forall i | i in r.states[0].nodes ensures Restartable(r.states[0].nodes[i], r.states[0].disks[i]) {
        FreshRestartable(i, r.states[0].nodes[i].initial);
      }
    } else {
      RunRestartable(r, k - 1);
      assert Follows(r, k - 1) && Peopled(r.states[k - 1]);
      StepRestartable(r.states[k - 1], r.events[k - 1]);
    }
  }

  lemma FreshRestartable(i: NodeId, initial: seq<NodeId>)
    ensures Restartable(Fresh(i, initial), NO_DISK)
  {
    hide Restartable, Load;
    LoadRestartable(Node(i, initial, true, Follower, 0, None, [], 0, 0, None, {}, StableConfig(initial, 0), [], map[], map[],
                         [], [], [], [], None, false, None, 0, 0, Stable, DEFAULT_THRESHOLD, [], false, false), NO_DISK);
  }

  /** Everything a restart is to give back. */
  predicate Alike(n: Node, n': Node) {
    && n'.id == n.id && n'.running == n.running && SameDurable(n, n') && n'.applied == n.applied && n'.app == n.app
    && n'.config == n.config && n'.threshold == n.threshold && n'.peers == n.peers
  }

  lemma LoadedAlike(n: Node, down: Node, disk: Disk)
    requires Restartable(n, disk) && down.id == n.id && down.initial == n.initial
    ensures InWindow(n) && InWindow(Load(down, disk)) && Alike(ApplyAll(n), ApplyAll(Load(down, disk)))
  {
    hide Load, OnFile, PeersOf, Normal, Covers, Rerun, ApplyAll;
    var n0 := Load(down, disk);
    LoadSetup(down, disk);
    LoadFacts(down, disk);
    assert n0.log[..0] == [];
    hide Replay;
    SameOnFile(n, down, disk);
    AllSetup(n);
    AllSetup(n0);
    ApplyAllFacts(n);
    ApplyAllFacts(n0);
    var p: nat :| Resumes(n, disk, p);
    var s := OnFile(n, disk);
    RerunThrough(s, n.id, n.log, p, n.applied, n.commit);
    assert n0.log[0..n0.commit] == n.log[..n.commit];
  }

  lemma CoveredStays(s: Setup, id: NodeId, log: Log)
    requires Covers(s, log)
    ensures Rerun(s, id, log, 0) == s
  {
    CoveredRerun(s, id, log);
    hide Rerun;
  }

  lemma CutAt(log: Log, p: nat, i: nat, j: nat)
    requires p <= i <= j <= |log|
    ensures log[p..j] == log[p..i] + log[i..j]
  {
    var whole, parts := log[p..j], log[p..i] + log[i..j];
    assert |whole| == |parts|;
    forall k | 0 <= k < |whole| ensures whole[k] == parts[k] {
    }
  }

  lemma CutInThree(log: Log, p: nat, i: nat, j: nat)
    requires p <= i <= j <= |log|
    ensures log[..j] == log[..p] + log[p..j] && log[p..j] == log[p..i] + log[i..j]
  {
    CutAt(log, 0, p, j);
    CutAt(log, p, i, j);
    assert log[0..j] == log[..j] && log[0..p] == log[..p];
  }

  /** From what the files say, all entries lead where those since the save lead. */
  lemma RerunThrough(s: Setup, id: NodeId, log: Log, p: nat, i: nat, j: nat)
    requires p <= i <= j <= |log| && Covers(s, log[..p])
    ensures Rerun(s, id, log[..j], 0) == Rerun(Rerun(s, id, log[p..i], p), id, log[i..j], i)
  {
    hide Rerun, Covers;
    CoveredStays(s, id, log[..p]);
    CutInThree(log, p, i, j);
    RerunSplit(s, id, log[..p], log[p..j], 0);
    RerunSplit(s, id, log[p..i], log[i..j], p);
  }

  /** In every run, whatever was requested, committed, overwritten or lost, a node that is stopped or
      crashes between ticks and is started again has, once its apply loop has caught up, the term, vote,
      log, commit index, configuration, peers, threshold and application it would have had. */
  lemma RestartTransparent(r: Run, k: nat, i: NodeId, e: Event)
    requires IsRun(r) && AlwaysPeopled(r) && k < |r.states| && i in r.states[k].nodes && r.states[k].nodes[i].running
    requires e == Crash(i) || e == Stop(i)
    ensures Enabled(r.states[k], e) && Enabled(Step(r.states[k], e), Start(i))
    ensures var n, back := r.states[k].nodes[i], Step(Step(r.states[k], e), Start(i)).nodes[i];
            InWindow(n) && InWindow(back) && Alike(ApplyAll(n), ApplyAll(back))
  {
    hide IsRun, Load, ApplyAll, Restartable, Alike, Enabled, Step;
    RunRestartable(r, k);
    var c := r.states[k];
    var n := c.nodes[i];
    assert i in c.disks && Restartable(n, c.disks[i]);
    DownAndUp(c, i, e);
    var down := Step(c, e).nodes[i];
    LoadedAlike(n, down, c.disks[i]);
    var back := Step(Step(c, e), Start(i)).nodes[i];
    assert back == Load(down, c.disks[i]);
    assert InWindow(n) && InWindow(back) && Alike(ApplyAll(n), ApplyAll(back));
  }

  lemma DownAndUp(c: State, i: NodeId, e: Event)
    requires i in c.nodes && i in c.disks && c.nodes[i].running && (e == Crash(i) || e == Stop(i))
    ensures Enabled(c, e) && i in Step(c, e).nodes && Enabled(Step(c, e), Start(i)) && i in Step(Step(c, e), Start(i)).nodes
    ensures var down := Step(c, e).nodes[i];
            && down.id == c.nodes[i].id && down.initial == c.nodes[i].initial
            && Step(Step(c, e), Start(i)).nodes[i] == Load(down, c.disks[i])
  {
    hide Load, Worked, Latched;
  }

  /** A started node is a follower with empty queues that knows no leader; if its files say it is in a joint
      phase it goes on with the change it was in, and otherwise no change is under way. */
  lemma StartsOver(n: Node, disk: Disk)
    ensures var n' := Load(n, disk);
            && n'.running && n'.role == Follower && n'.leader == None && n'.votes == {} && !n'.dirty && !n'.fault
            && n'.appends == [] && n'.voteRequests == [] && n'.voteReplies == [] && n'.outbox == []
            && n'.membership == (if n'.config.joint.Some? then Membership.Joint else Stable)
            && n'.target == n'.requested == n'.config.joint && n'.requestPending == n'.config.joint.Some?
            && n'.jointIndex == n'.finalIndex == 0
  {
    hide Normalize, PeersOf;
  }

  /** A list without members is not brought back: the initial members are put in its place. */
  lemma EmptyForgotten(n: Node)
    requires n.config.current == []
    ensures Load(n, Save(n)).config == StableConfig(n.initial, 0)
  {
    hide Normalize, PeersOf;
  }
}
