/** Stopping and starting a C node: what the three files give back, and why replaying the log over the
    saved configuration and threshold applies nothing twice. */
module Restart {
  import opened RaftTypes
  import opened Sizes
  import opened Members
  import opened Numerals
  import opened KeyValue
  import opened LogText
  import opened MetaText
  import opened MemberLists

  /** What applying entries changes. */
  datatype Core = Core(config: Config, threshold: nat, app: Kv)

  function NormalIds(ids: seq<NodeId>): seq<NodeId> {
    Sort(Distinct(ids)[..Min(|Distinct(ids)|, MAX_NODES)])
  }

  function ValueOf(c: Command): string
    requires c.AppCommand?
  {
    c.value.GetOr("")
  }

  /** Configuration entries the configuration already covers are skipped. */
  function ApplyConfig(config: Config, c: Command, index: nat): Config {
    if !c.AppCommand? || index <= config.index || Decode(ValueOf(c)) == [] then config
    else if c.op == "cluster.enter_joint" then Config(NormalIds(config.current), NormalIds(Decode(ValueOf(c))), index)
    else if c.op == "cluster.leave_joint" then Config(NormalIds(Decode(ValueOf(c))), [], index)
    else config
  }

  function ApplyThreshold(threshold: nat, c: Command): nat {
    if c.AppCommand? && c.op == "cluster.set_maxlog" && Atoi(ValueOf(c)) > 0 then Atoi(ValueOf(c)) else threshold
  }

  function ApplyEntry(core: Core, c: Command, index: nat): Core {
    Core(ApplyConfig(core.config, c, index), ApplyThreshold(core.threshold, c), ApplyTo(core.app, c))
  }

  /** Applies entries whose indices start after from. */
  function RunCore(core: Core, log: Log, from: nat): Core {
    if log == [] then core
    else ApplyEntry(RunCore(core, log[..|log| - 1], from), log[|log| - 1].command, from + |log|)
  }

  // ---- Replaying over the result ----

  lemma {:induction false} AppAlone(core: Core, log: Log, from: nat)
    ensures RunCore(core, log, from).app == Run(core.app, log)
    decreases |log|
  {
    if log != [] { AppAlone(core, log[..|log| - 1], from); }
    hide ApplyTo, ApplyConfig, ApplyThreshold;
  }

  /** The threshold after a stretch of log is what its last setting says, or what it was. */
  lemma {:induction false} ThresholdLast(a: Core, b: Core, log: Log, from: nat)
    ensures var x, y := RunCore(a, log, from).threshold, RunCore(b, log, from).threshold;
            x == y || (x == a.threshold && y == b.threshold)
    decreases |log|
  {
    if log != [] { ThresholdLast(a, b, log[..|log| - 1], from); }
    hide ApplyTo, ApplyConfig, Atoi;
  }

  predicate Changes(c: Command) {
    c.AppCommand? && (c.op == "cluster.enter_joint" || c.op == "cluster.leave_joint") && Decode(ValueOf(c)) != []
  }

  /** The configuration is at least as recent as every change in the log. */
  lemma {:induction false} ConfigReaches(core: Core, log: Log, from: nat)
    ensures var c := RunCore(core, log, from).config;
            c.index >= core.config.index && forall k :: 0 <= k < |log| && Changes(log[k].command) ==> from + k + 1 <= c.index
    decreases |log|
  {
    if log != [] {
      var rest := log[..|log| - 1];
      ConfigReaches(core, rest, from);
      assert forall k :: 0 <= k < |rest| ==> rest[k] == log[k];
    }
    hide ApplyTo, ApplyThreshold, Decode, NormalIds;
  }

  /** Over a configuration that recent, no change in the log is applied again. */
  lemma {:induction false} ConfigStays(core: Core, log: Log, from: nat)
    requires forall k :: 0 <= k < |log| && Changes(log[k].command) ==> from + k + 1 <= core.config.index
    ensures RunCore(core, log, from).config == core.config
    decreases |log|
  {
    if log != [] {
      var rest := log[..|log| - 1];
      assert forall k :: 0 <= k < |rest| ==> rest[k] == log[k];
      ConfigStays(core, rest, from);
    }
    hide ApplyTo, ApplyThreshold, Decode, NormalIds;
  }

  /** Replaying a stretch of log over its own configuration and threshold, with the application back
      where it started, leaves everything as it was after the first time. */
  lemma ReplayOnce(core: Core, log: Log, from: nat)
    ensures var after := RunCore(core, log, from);
            RunCore(after.(app := core.app), log, from) == after
  {
    hide *;
    var after := RunCore(core, log, from);
    var again := after.(app := core.app);
    AppAlone(core, log, from);
    AppAlone(again, log, from);
    ThresholdLast(core, again, log, from);
    ConfigReaches(core, log, from);
    ConfigStays(again, log, from);
  }

  // ---- Files ----

  /** A node between two ticks: the durable values, the log after the snapshot, the application. */
  datatype Engine = Engine(meta: Meta, log: Log, applied: nat, app: Kv, snapshot: Kv)

  datatype SnapshotFile = SnapshotFile(index: nat, term: nat, state: Kv)

  datatype Files = Files(meta: string, log: string, snapshot: Option<SnapshotFile>)

  function Base(e: Engine): Kv {
    if e.meta.snapIndex > 0 then e.snapshot else map[]
  }

  function CoreOf(e: Engine): Core {
    Core(e.meta.config, e.meta.threshold, e.app)
  }

  function Save(e: Engine, files: Files): Files
    requires Commands(e.log)
  {
    files.(meta := PrintMeta(e.meta), log := PrintLog(e.log))
  }

  predicate Matches(file: Option<SnapshotFile>, meta: Meta) {
    file.Some? && file.value.index == meta.snapIndex && file.value.term == meta.snapTerm
  }

  /** The commit index is cut to what is there; a snapshot counts only if the meta file names it. */
  function Load(files: Files): Engine {
    var meta := ReadMeta(files.meta);
    var log := LoadLog(files.log, meta.snapIndex, MAX_LOG);
    var commit := Min(meta.commit, meta.snapIndex + |log|);
    if Matches(files.snapshot, meta) then
      Engine(meta.(commit := commit), log, meta.snapIndex, files.snapshot.value.state, files.snapshot.value.state)
    else Engine(meta.(commit := commit), log, 0, map[], map[])
  }

  predicate InWindow(e: Engine) {
    e.meta.snapIndex <= e.applied <= e.meta.commit <= e.meta.snapIndex + |e.log|
  }

  /** The apply loop. */
  function Drain(e: Engine): Engine
    requires InWindow(e)
  {
    var core := RunCore(CoreOf(e), e.log[e.applied - e.meta.snapIndex..e.meta.commit - e.meta.snapIndex], e.applied);
    e.(meta := e.meta.(config := core.config, threshold := core.threshold), applied := e.meta.commit, app := core.app)
  }

  /** What the files can hold. */
  predicate Savable(e: Engine) {
    && MetaOk(e.meta) && AllStorable(e.log) && InRange(e.log) && |e.log| <= MAX_LOG
    && forall k :: 0 <= k < |e.log| ==> e.log[k].index == e.meta.snapIndex + 1 + k
  }

  /** A node at the end of a tick: everything committed is applied, the values that applying changes are
      those the entries after the snapshot lead to, and the snapshot file is the one the node has; before
      its first compaction, any that its meta file does not name. */
  ghost predicate AtRest(e: Engine, files: Files) {
    && e.meta.snapIndex <= e.meta.commit == e.applied <= e.meta.snapIndex + |e.log|
    && (exists start: Core :: start.app == Base(e)
          && RunCore(start, e.log[..e.applied - e.meta.snapIndex], e.meta.snapIndex) == CoreOf(e))
    && (if e.meta.snapIndex > 0 then files.snapshot == Some(SnapshotFile(e.meta.snapIndex, e.meta.snapTerm, e.snapshot))
        else !Matches(files.snapshot, e.meta) && e.snapshot == map[])
  }

  /** What a node at rest could have started from. */
  lemma RestStart(e: Engine, files: Files) returns (start: Core)
    requires AtRest(e, files)
    ensures InWindow(e) && e.meta.commit == e.applied && CoreOf(e).app == e.app
    ensures start.app == Base(e) && RunCore(start, e.log[..e.applied - e.meta.snapIndex], e.meta.snapIndex) == CoreOf(e)
    ensures if e.meta.snapIndex > 0 then files.snapshot == Some(SnapshotFile(e.meta.snapIndex, e.meta.snapTerm, e.snapshot))
            else !Matches(files.snapshot, e.meta) && e.snapshot == map[]
  {
    start :| start.app == Base(e) && RunCore(start, e.log[..e.applied - e.meta.snapIndex], e.meta.snapIndex) == CoreOf(e);
    hide RunCore;
  }

  /** The end of a stretch of log is a possible state at rest. */
  lemma AtRestFrom(e: Engine, files: Files, start: Core)
    requires e.meta.snapIndex <= e.meta.commit == e.applied <= e.meta.snapIndex + |e.log|
    requires start.app == Base(e) && RunCore(start, e.log[..e.applied - e.meta.snapIndex], e.meta.snapIndex) == CoreOf(e)
    requires if e.meta.snapIndex > 0 then files.snapshot == Some(SnapshotFile(e.meta.snapIndex, e.meta.snapTerm, e.snapshot))
             else !Matches(files.snapshot, e.meta) && e.snapshot == map[]
    ensures AtRest(e, files)
  {
    hide RunCore;
  }

  lemma LogBack(e: Engine, log: Log)
    requires Savable(e) && AllStorable(log) && InRange(log) && After(log, e.meta.snapIndex) == e.log
    ensures Commands(log) && LoadLog(PrintLog(log), e.meta.snapIndex, MAX_LOG) == e.log
  {
    hide LoadLog, PrintLog, Storable, After;
    LoadPrinted(log, e.meta.snapIndex, MAX_LOG);
  }

  lemma OwnLog(e: Engine)
    requires Savable(e)
    ensures After(e.log, e.meta.snapIndex) == e.log
  {
    AfterAll(e.log, e.meta.snapIndex);
    hide After, Storable;
  }

  /** What loading finds, whichever log file it reads: the node as it was, before its entries are applied. */
  lemma Loaded(e: Engine, files: Files, log: Log)
    requires Savable(e) && AtRest(e, files) && AllStorable(log) && InRange(log) && After(log, e.meta.snapIndex) == e.log
    ensures Commands(log)
    ensures Load(Files(PrintMeta(e.meta), PrintLog(log), files.snapshot)) == e.(applied := e.meta.snapIndex, app := Base(e))
  {
    MetaRoundTrip(e.meta);
    LogBack(e, log);
    hide PrintMeta, ReadMeta, PrintLog, LoadLog, After, RunCore, MetaOk, Storable;
  }

  /** What a start finds, whichever log file stands beside the meta file, as after a save torn between the
      two: the meta file's values, the commit index cut to what is there, the log file's entries after the
      snapshot, and the snapshot file's state exactly if the meta file names it. */
  lemma FilesLoad(meta: Meta, log: Log, file: Option<SnapshotFile>)
    requires MetaOk(meta) && AllStorable(log) && InRange(log) && |After(log, meta.snapIndex)| <= MAX_LOG
    ensures Commands(log)
    ensures var back, kept := Load(Files(PrintMeta(meta), PrintLog(log), file)), After(log, meta.snapIndex);
            var named := file.Some? && file.value.index == meta.snapIndex && file.value.term == meta.snapTerm;
            && back.meta == meta.(commit := if meta.commit > meta.snapIndex + |kept| then meta.snapIndex + |kept| else meta.commit)
            && back.log == kept
            && back.applied == (if named then meta.snapIndex else 0)
            && back.app == back.snapshot == if named then file.value.state else map[]
  {
    MetaRoundTrip(meta);
    LoadPrinted(log, meta.snapIndex, MAX_LOG);
    hide PrintMeta, ReadMeta, PrintLog, LoadLog, After, MetaOk, Storable;
  }

  /** Restart transparency: a node saved at the end of a tick and started again has, once the apply loop
      has caught up, the same term, vote, threshold, indices, configuration, log and application. */
  lemma RestartTransparent(e: Engine, files: Files)
    requires Savable(e) && AtRest(e, files)
    ensures Commands(e.log)
    ensures var back := Load(Save(e, files));
            InWindow(back) && Drain(back) == e
  {
    hide *;
    OwnLog(e);
    Parts(e);
    Loaded(e, files, e.log);
    Drained(e, files);
    SavedFiles(e, files);
  }

  lemma Parts(e: Engine)
    requires Savable(e)
    ensures AllStorable(e.log) && InRange(e.log)
  {
    hide MetaOk, Storable;
  }

  lemma SavedFiles(e: Engine, files: Files)
    requires Commands(e.log)
    ensures Save(e, files) == Files(PrintMeta(e.meta), PrintLog(e.log), files.snapshot)
  {
    hide PrintMeta, PrintLog;
  }

  /** The loaded node catches up with the one that was saved. */
  lemma Drained(e: Engine, files: Files)
    requires AtRest(e, files)
    ensures var back := e.(applied := e.meta.snapIndex, app := Base(e));
            InWindow(back) && Drain(back) == e
  {
    var log := e.log[..e.applied - e.meta.snapIndex];
    var start: Core :| start.app == Base(e) && RunCore(start, log, e.meta.snapIndex) == CoreOf(e);
    hide RunCore;
    ReplayOnce(start, log, e.meta.snapIndex);
  }

  lemma {:induction false} AfterCut(log: Log, snap: nat, target: nat)
    requires snap <= target <= snap + |log| && forall k :: 0 <= k < |log| ==> log[k].index == snap + 1 + k
    ensures After(log, target) == log[target - snap..]
    decreases |log|
  {
    if log != [] {
      if target == snap {
        AfterAll(log, target);
      } else {
        AfterCut(log[1..], snap + 1, target);
        assert log[1..][target - snap - 1..] == log[target - snap..];
      }
    }
  }

  /** A crash between the two files of a save after a compaction is harmless: the new meta file with the
      old log file loads the same node as both new files. */
  lemma OldLogFileLoadsSame(e: Engine, files: Files, old_: Log, snap: nat)
    requires Savable(e) && AtRest(e, files) && snap <= e.meta.snapIndex <= snap + |old_|
    requires AllStorable(old_) && InRange(old_) && forall k :: 0 <= k < |old_| ==> old_[k].index == snap + 1 + k
    requires e.log == old_[e.meta.snapIndex - snap..]
    ensures Commands(old_) && Commands(e.log)
    ensures Load(Save(e, files).(log := PrintLog(old_))) == Load(Save(e, files))
  {
    AfterCut(old_, snap, e.meta.snapIndex);
    OwnLog(e);
    hide After, AtRest, Savable, AllStorable, InRange, Load, PrintMeta, PrintLog, Commands;
    Loaded(e, files, old_);
    Loaded(e, files, e.log);
  }

  // ---- Compaction ----

  lemma {:induction false} RunSplit(core: Core, a: Log, b: Log, from: nat)
    ensures RunCore(core, a + b, from) == RunCore(RunCore(core, a, from), b, from + |a|)
    decreases |b|
  {
    if b == [] {
      assert a + b == a;
    } else {
      assert (a + b)[..|a + b| - 1] == a + b[..|b| - 1];
      RunSplit(core, a, b[..|b| - 1], from);
    }
    hide ApplyEntry;
  }

  /** Configuration and threshold do not depend on the application. */
  lemma {:induction false} AppApart(core: Core, app: Kv, log: Log, from: nat)
    ensures RunCore(core.(app := app), log, from) == RunCore(core, log, from).(app := Run(app, log))
    decreases |log|
  {
    if log != [] { AppApart(core, app, log[..|log| - 1], from); }
    hide ApplyConfig, ApplyThreshold, ApplyTo;
  }

  /** The node after compacting up to a target it has applied. */
  function Compacted(e: Engine, target: nat, term: nat): Engine
    requires e.meta.snapIndex <= target <= e.meta.snapIndex + |e.log|
  {
    e.(meta := e.meta.(snapIndex := target, snapTerm := term), log := e.log[target - e.meta.snapIndex..], snapshot := e.app)
  }

  /** A stretch of log replayed over the configuration and threshold of its start and the application
      state of its end leads to the same end. */
  lemma TailReplays(start: Core, a: Log, b: Log, snap: nat)
    ensures var end := RunCore(start, a + b, snap);
            RunCore(RunCore(start, a, snap).(app := end.app), b, snap + |a|) == end
  {
    hide *;
    var mid, end := RunCore(start, a, snap), RunCore(start, a + b, snap);
    RunSplit(start, a, b, snap);
    AppApart(mid, end.app, b, snap + |a|);
    AppAlone(mid, b, snap + |a|);
    RunTwice(mid.app, b);
  }

  /** Compaction keeps a node restartable, even when its label is below what the snapshot has applied. */
  lemma CompactedAtRest(e: Engine, files: Files, target: nat, term: nat)
    requires AtRest(e, files) && e.meta.snapIndex < target <= e.applied
    ensures AtRest(Compacted(e, target, term), files.(snapshot := Some(SnapshotFile(target, term, e.app))))
  {
    hide AtRest, RunCore, CoreOf, Base, Matches, Compacted, Run, ApplyEntry;
    var snap := e.meta.snapIndex;
    var start := RestStart(e, files);
    CompactedParts(e, target, term);
    TailReplays(start, e.log[..target - snap], e.log[target - snap..e.applied - snap], snap);
    AtRestFrom(Compacted(e, target, term), files.(snapshot := Some(SnapshotFile(target, term, e.app))),
             RunCore(start, e.log[..target - snap], snap).(app := e.app));
  }

  lemma CompactedParts(e: Engine, target: nat, term: nat)
    requires e.meta.snapIndex < target <= e.applied <= e.meta.snapIndex + |e.log|
    ensures var c, snap := Compacted(e, target, term), e.meta.snapIndex;
            && c.meta.snapIndex == target && c.meta.snapTerm == term && c.snapshot == e.app == Base(c) && c.applied == e.applied
            && c.meta.commit == e.meta.commit && target + |c.log| == snap + |e.log| && CoreOf(c) == CoreOf(e)
            && c.log[..e.applied - target] == e.log[target - snap..e.applied - snap]
            && e.log[..target - snap] + e.log[target - snap..e.applied - snap] == e.log[..e.applied - snap]
            && |e.log[..target - snap]| == target - snap
  {
  }
}
