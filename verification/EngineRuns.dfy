/** Runs of a C node between restarts and through them: whatever it hears, appends, commits and compacts,
    at the end of every tick it can be stopped and started again without losing anything. */
module EngineRuns {
  import opened RaftTypes
  import opened Sizes
  import opened LogMerge
  import opened CompactedLog
  import opened LogText
  import opened MetaText
  import opened Restart

  /** The logical log as far as the node still knows it: of what the snapshot covers, the last term. */
  function Whole(e: Engine): (log: Log)
    ensures |log| == e.meta.snapIndex + |e.log| && log[e.meta.snapIndex..] == e.log
    ensures e.meta.snapIndex > 0 ==> log[e.meta.snapIndex - 1].term == e.meta.snapTerm
  {
    seq(e.meta.snapIndex, (k: nat) => Entry(k + 1, e.meta.snapTerm, AppCommand("", "", None), "")) + e.log
  }

  function Handled(e: Engine, m: Message): (o: Outcome)
    requires m.AppendEntries? && InWindow(e)
    ensures e.meta.snapIndex <= |o.log|
    ensures !o.rebuild ==> e.applied <= |o.log| && o.log[..e.applied] == Whole(e)[..e.applied]
  {
    KeptApplied(Merged(Whole(e), false, false), m.entries, e.meta.snapIndex, e.applied);
    Handle(Whole(e), e.meta.commit, m, e.meta.snapIndex, e.applied)
  }

  /** A message from the leader: append loop, commit index, and the application started over from the
      snapshot if applied entries were overwritten. Configuration and threshold stay. */
  function Received(e: Engine, m: Message): Engine
    requires m.AppendEntries? && InWindow(e)
  {
    var o := Handled(e, m);
    e.(meta := e.meta.(commit := o.commit), log := o.log[e.meta.snapIndex..],
       applied := if o.rebuild then e.meta.snapIndex else e.applied, app := if o.rebuild then Base(e) else e.app)
  }

  /** The window survives exactly if no rebuild has a leader commit below the snapshot. */
  lemma ReceivedWindow(e: Engine, m: Message)
    requires m.AppendEntries? && InWindow(e)
    ensures InWindow(Received(e, m)) <==> (Handled(e, m).rebuild ==> m.leaderCommit >= e.meta.snapIndex)
  {
    hide Absorb, Accepts;
    var o := Handled(e, m);
    assert o == Handle(Whole(e), e.meta.commit, m, e.meta.snapIndex, e.applied);
  }

  /** A node at the end of a tick, and what is on its disk. */
  datatype Machine = Machine(e: Engine, files: Files)

  datatype Move =
    | Hear(m: Message)
    | Propose(entry: Entry)
    | Scan(index: nat)
    | Turn(term: nat, vote: NodeId)
    | Cut(target: nat)

  /** How far a tick that is cut off has come with its files. */
  datatype Stage = Unsaved | SnapshotSaved | MetaSaved

  /** A tick, or a tick that would have led to after, cut off, and the node started again. */
  datatype Happening = Tick(mv: Move) | Crash(mv: Move, after: Machine, stage: Stage)

  function New(config: Config): Machine {
    var e := Engine(Meta(0, "", MAX_LOG, 0, 0, 0, config), [], 0, map[], map[]);
    Machine(e, Files(PrintMeta(e.meta), PrintLog([]), None))
  }

  /** What a tick does to the node: everything it commits it applies. */
  predicate Moves(e: Engine, mv: Move, e': Engine) {
    var snap := e.meta.snapIndex;
    && InWindow(e)
    && match mv
       case Hear(m) =>
         m.AppendEntries? && InWindow(Received(e, m)) && e' == Drain(Received(e, m))
       case Propose(entry) =>
         |e.log| < MAX_LOG && e' == e.(log := e.log + [entry])
       case Scan(index) =>
         e.meta.commit <= index <= snap + |e.log| && e' == Drain(e.(meta := e.meta.(commit := index)))
       case Turn(term, vote) =>
         e' == e.(meta := e.meta.(term := term, vote := vote))
       case Cut(target) =>
         snap < target <= e.applied && e' == Compacted(e, target, e.log[target - snap - 1].term)
  }

  function SnapshotAfter(file: Option<SnapshotFile>, mv: Move, e': Engine): Option<SnapshotFile> {
    if mv.Cut? then Some(SnapshotFile(e'.meta.snapIndex, e'.meta.snapTerm, e'.snapshot)) else file
  }

  /** The whole tick, saved at its end. */
  predicate Ticks(s: Machine, mv: Move, s': Machine) {
    && Moves(s.e, mv, s'.e) && Commands(s'.e.log)
    && s'.files == Save(s'.e, s.files).(snapshot := SnapshotAfter(s.files.snapshot, mv, s'.e))
  }

  /** What is on disk when the tick is cut off: the snapshot file is replaced first, then the meta file,
      then the log file. */
  function Left(s: Machine, s': Machine, stage: Stage): Files {
    match stage
    case Unsaved => s.files
    case SnapshotSaved => s.files.(snapshot := s'.files.snapshot)
    case MetaSaved => s'.files.(log := s.files.log)
  }

  /** A node started from these files, once its apply loop has caught up. Below its own snapshot it would
      index before its array; it does not get this far. */
  predicate Restarts(files: Files, s': Machine) {
    InWindow(Load(files)) && s' == Machine(Drain(Load(files)), files)
  }

  predicate Goes(s: Machine, h: Happening, s': Machine) {
    match h
    case Tick(mv) => Ticks(s, mv, s')
    case Crash(mv, after, stage) => Ticks(s, mv, after) && Restarts(Left(s, after, stage), s')
  }

  predicate IsRun(states: seq<Machine>, happenings: seq<Happening>, config: Config) {
    && |states| == |happenings| + 1 && states[0] == New(config)
    && forall k: nat {:trigger Follows(states, happenings, k)} :: k < |happenings| ==> Follows(states, happenings, k)
  }

  predicate Follows(states: seq<Machine>, happenings: seq<Happening>, k: nat)
    requires k < |happenings| && |states| == |happenings| + 1
  {
    Goes(states[k], happenings[k], states[k + 1])
  }

  lemma NewAtRest(config: Config)
    ensures AtRest(New(config).e, New(config).files)
  {
    hide PrintMeta;
    var e := New(config).e;
    assert RunCore(CoreOf(e), e.log[..0], 0) == CoreOf(e);
  }

  /** Same snapshot, the log still has what was applied, and more of it may be committed: after the apply
      loop the node is at rest again. */
  lemma DrainedAtRest(e: Engine, files: Files, e': Engine)
    requires AtRest(e, files) && InWindow(e')
    requires e' == e.(meta := e.meta.(commit := e'.meta.commit), log := e'.log)
    requires e'.log[..e.applied - e.meta.snapIndex] == e.log[..e.applied - e.meta.snapIndex]
    ensures AtRest(Drain(e'), files)
  {
    hide AtRest, Drain, RunCore, CoreOf, Base, Matches;
    var snap := e.meta.snapIndex;
    var start := RestStart(e, files);
    var done, rest := e.log[..e.applied - snap], e'.log[e.applied - snap..e'.meta.commit - snap];
    RunSplit(start, done, rest, snap);
    Joined(e'.log, e.applied - snap, e'.meta.commit - snap);
    DrainIs(e');
    SameCore(e, e');
    assert |done| == e.applied - snap;
    AtRestFrom(Drain(e'), files, start);
  }

  lemma DrainIs(e: Engine)
    requires InWindow(e)
    ensures var d := Drain(e);
            && CoreOf(d) == RunCore(CoreOf(e), e.log[e.applied - e.meta.snapIndex..e.meta.commit - e.meta.snapIndex], e.applied)
            && d.applied == d.meta.commit == e.meta.commit && d.log == e.log && d.snapshot == e.snapshot && Base(d) == Base(e)
            && d.meta.snapIndex == e.meta.snapIndex && d.meta.snapTerm == e.meta.snapTerm && InWindow(d)
            && forall file :: Matches(file, d.meta) == Matches(file, e.meta)
  {
    hide RunCore;
  }

  lemma SameCore(e: Engine, e': Engine)
    requires e' == e.(meta := e.meta.(commit := e'.meta.commit), log := e'.log)
    ensures CoreOf(e') == CoreOf(e) && Base(e') == Base(e) && e'.meta.snapIndex == e.meta.snapIndex && e'.meta.snapTerm == e.meta.snapTerm
    ensures InWindow(e') ==> e'.applied <= e'.meta.commit <= e'.meta.snapIndex + |e'.log|
    ensures forall file :: Matches(file, e'.meta) == Matches(file, e.meta)
  {
  }

  lemma Joined(log: Log, i: nat, j: nat)
    requires i <= j <= |log|
    ensures log[..i] + log[i..j] == log[..j]
  {
  }

  /** A rebuild starts over from the snapshot with the configuration and threshold it has. */
  lemma RebuiltAtRest(e: Engine, files: Files, e': Engine)
    requires AtRest(e, files) && InWindow(e')
    requires e' == e.(meta := e.meta.(commit := e'.meta.commit), log := e'.log, applied := e.meta.snapIndex, app := Base(e))
    ensures AtRest(Drain(e'), files)
  {
    hide RunCore;
    assert e'.log[0..e'.meta.commit - e.meta.snapIndex] == e'.log[..e'.meta.commit - e.meta.snapIndex];
    AtRestFrom(Drain(e'), files, CoreOf(e'));
  }

  lemma HeardAtRest(s: Machine, m: Message)
    requires AtRest(s.e, s.files) && InWindow(s.e) && m.AppendEntries? && InWindow(Received(s.e, m))
    ensures AtRest(Drain(Received(s.e, m)), s.files)
  {
    hide AtRest, Drain, Handle, Whole;
    var e, e', o, snap := s.e, Received(s.e, m), Handled(s.e, m), s.e.meta.snapIndex;
    if o.rebuild {
      RebuiltAtRest(e, s.files, e');
    } else {
      assert o.log[snap..][..e.applied - snap] == o.log[..e.applied][snap..];
      assert Whole(e)[snap..][..e.applied - snap] == Whole(e)[..e.applied][snap..];
      DrainedAtRest(e, s.files, e');
    }
  }

  lemma ProposedAtRest(s: Machine, entry: Entry)
    requires AtRest(s.e, s.files)
    ensures AtRest(s.e.(log := s.e.log + [entry]), s.files)
  {
    var e, snap := s.e, s.e.meta.snapIndex;
    var start := RestStart(e, s.files);
    assert (e.log + [entry])[..e.applied - snap] == e.log[..e.applied - snap];
    hide RunCore;
    AtRestFrom(e.(log := e.log + [entry]), s.files, start);
  }

  lemma TurnedAtRest(s: Machine, term: nat, vote: NodeId)
    requires AtRest(s.e, s.files)
    ensures AtRest(s.e.(meta := s.e.meta.(term := term, vote := vote)), s.files)
  {
    var e, snap := s.e, s.e.meta.snapIndex;
    var start := RestStart(e, s.files);
    hide RunCore;
    AtRestFrom(e.(meta := e.meta.(term := term, vote := vote)), s.files, start);
  }

  lemma MovesAtRest(s: Machine, mv: Move, e': Engine)
    requires AtRest(s.e, s.files) && Moves(s.e, mv, e')
    ensures AtRest(e', s.files.(snapshot := SnapshotAfter(s.files.snapshot, mv, e')))
  {
    hide AtRest, Drain, Received;
    assert !mv.Cut? ==> s.files.(snapshot := SnapshotAfter(s.files.snapshot, mv, e')) == s.files;
    match mv
    case Hear(m) => HeardAtRest(s, m);
    case Propose(entry) => ProposedAtRest(s, entry);
    case Scan(index) => DrainedAtRest(s.e, s.files, s.e.(meta := s.e.meta.(commit := index)));
    case Turn(term, vote) => TurnedAtRest(s, term, vote);
    case Cut(target) => CompactedAtRest(s.e, s.files, target, s.e.log[target - s.e.meta.snapIndex - 1].term);
  }

  lemma SameSnapshot(e: Engine, files: Files, files': Files)
    requires AtRest(e, files) && files'.snapshot == files.snapshot
    ensures AtRest(e, files')
  {
    hide RunCore;
  }

  /** No snapshot file has the index of a node without snapshot. */
  predicate Labelled(files: Files) {
    files.snapshot.Some? ==> files.snapshot.value.index > 0
  }

  lemma TickAtRest(s: Machine, mv: Move, s': Machine)
    requires AtRest(s.e, s.files) && Labelled(s.files) && Ticks(s, mv, s')
    ensures AtRest(s'.e, s'.files) && Labelled(s'.files)
  {
    hide AtRest, Moves, PrintMeta, PrintLog, Commands;
    MovesAtRest(s, mv, s'.e);
    SameSnapshot(s'.e, s.files.(snapshot := SnapshotAfter(s.files.snapshot, mv, s'.e)), s'.files);
    if mv.Cut? { CutLabel(s.e, mv, s'.e); }
  }

  lemma CutLabel(e: Engine, mv: Move, e': Engine)
    requires Moves(e, mv, e') && mv.Cut?
    ensures e'.meta.snapIndex == mv.target > e.meta.snapIndex && e'.snapshot == e.app
  {
  }

  /** Whatever files it starts from, a node that is within its window is at rest once it has caught up. */
  lemma LoadedAtRest(files: Files)
    requires Labelled(files) && InWindow(Load(files))
    ensures AtRest(Drain(Load(files)), files)
  {
    hide RunCore, ReadMeta, LoadLog;
    var back := Load(files);
    assert back.applied == back.meta.snapIndex && back.app == Base(back);
    assert back.log[0..back.meta.commit - back.meta.snapIndex] == back.log[..back.meta.commit - back.meta.snapIndex];
    AtRestFrom(Drain(back), files, CoreOf(back));
  }

  lemma GoesAtRest(s: Machine, h: Happening, s': Machine)
    requires AtRest(s.e, s.files) && Labelled(s.files) && Goes(s, h, s')
    ensures AtRest(s'.e, s'.files) && Labelled(s'.files)
    ensures Savable(s'.e) ==> InWindow(Load(s'.files)) && Drain(Load(s'.files)) == s'.e
  {
    hide AtRest, Ticks, Labelled, Savable, Load, Drain, InWindow;
    match h
    case Tick(mv) =>
      TickAtRest(s, mv, s');
      if Savable(s'.e) { TickBack(s, mv, s'); }
    case Crash(mv, after, stage) =>
      TickAtRest(s, mv, after);
      LeftLabelled(s, after, stage);
      LoadedAtRest(Left(s, after, stage));
  }

  lemma LeftLabelled(s: Machine, s': Machine, stage: Stage)
    requires Labelled(s.files) && Labelled(s'.files)
    ensures Labelled(Left(s, s', stage))
  {
  }

  lemma TickBack(s: Machine, mv: Move, s': Machine)
    requires Ticks(s, mv, s') && AtRest(s'.e, s'.files) && Savable(s'.e)
    ensures InWindow(Load(s'.files)) && Drain(Load(s'.files)) == s'.e
  {
    hide AtRest, Moves, PrintMeta, PrintLog, Commands, Savable, Load, Drain, InWindow;
    assert Save(s'.e, s'.files) == s'.files;
    RestartTransparent(s'.e, s'.files);
  }

  /** In every run of a node, from new and through crashes at any point of any tick, every tick ends at
      rest; and a node whose values the files can hold comes back from its files as it was. */
  lemma {:induction false} AlwaysRestartable(states: seq<Machine>, happenings: seq<Happening>, config: Config, k: nat)
    requires IsRun(states, happenings, config) && k < |states|
    ensures AtRest(states[k].e, states[k].files) && Labelled(states[k].files)
    ensures Savable(states[k].e) ==> InWindow(Load(states[k].files)) && Drain(Load(states[k].files)) == states[k].e
  {
    hide AtRest, Goes, Savable, Load, Save, Drain, InWindow;
    if k == 0 {
      NewAtRest(config);
      if Savable(states[0].e) { NewBack(config); }
    } else {
      AlwaysRestartable(states, happenings, config, k - 1);
      assert Follows(states, happenings, k - 1);
      GoesAtRest(states[k - 1], happenings[k - 1], states[k]);
    }
  }

  lemma NewBack(config: Config)
    requires Savable(New(config).e)
    ensures var s := New(config); InWindow(Load(s.files)) && Drain(Load(s.files)) == s.e
  {
    hide AtRest, Savable, Load, Drain, InWindow, PrintMeta;
    var s := New(config);
    NewAtRest(config);
    assert Save(s.e, s.files) == s.files;
    RestartTransparent(s.e, s.files);
  }

  /** What a crash in the middle of a compaction leaves: before any file, and in the first compaction also
      before the meta file, the node as it was; after the meta file the compacted node; and in a later
      compaction, between snapshot file and meta file, a node below its own snapshot. */
  lemma CutCrash(s: Machine, target: nat, s': Machine, stage: Stage)
    requires AtRest(s.e, s.files) && Labelled(s.files) && Savable(s.e) && Commands(s.e.log) && Save(s.e, s.files) == s.files
    requires Ticks(s, Cut(target), s') && Savable(s'.e)
    ensures var back, snap := Load(Left(s, s', stage)), s.e.meta.snapIndex;
            && (InWindow(back) <==> stage != SnapshotSaved || snap == 0)
            && (InWindow(back) ==> Drain(back) == if stage == MetaSaved then s'.e else s.e)
  {
    hide AtRest, Savable, Load, Drain, InWindow, Moves, PrintMeta, PrintLog, Commands, Labelled;
    TickAtRest(s, Cut(target), s');
    CutLabel(s.e, Cut(target), s'.e);
    match stage
    case Unsaved =>
      RestartTransparent(s.e, s.files);
    case SnapshotSaved =>
      EarlySnapshot(s, target, s');
    case MetaSaved =>
      CutParts(s, target, s');
      OldLogFileLoadsSame(s'.e, s'.files, s.e.log, s.e.meta.snapIndex);
      RestartTransparent(s'.e, s'.files);
      assert Save(s'.e, s'.files) == s'.files;
      assert Save(s'.e, s'.files).(log := PrintLog(s.e.log)) == Left(s, s', MetaSaved);
  }

  lemma CutParts(s: Machine, target: nat, s': Machine)
    requires Ticks(s, Cut(target), s') && Savable(s.e)
    ensures s.e.meta.snapIndex <= s'.e.meta.snapIndex <= s.e.meta.snapIndex + |s.e.log|
    ensures AllStorable(s.e.log) && InRange(s.e.log)
    ensures forall k :: 0 <= k < |s.e.log| ==> s.e.log[k].index == s.e.meta.snapIndex + 1 + k
    ensures s'.e.log == s.e.log[s'.e.meta.snapIndex - s.e.meta.snapIndex..]
  {
    hide Storable, MetaOk, PrintMeta, PrintLog, Save;
  }

  lemma EarlySnapshot(s: Machine, target: nat, s': Machine)
    requires AtRest(s.e, s.files) && Savable(s.e) && Commands(s.e.log) && Save(s.e, s.files) == s.files
    requires Ticks(s, Cut(target), s') && s'.e.meta.snapIndex == target > s.e.meta.snapIndex
    ensures var back, snap := Load(Left(s, s', SnapshotSaved)), s.e.meta.snapIndex;
            (InWindow(back) <==> snap == 0) && (InWindow(back) ==> Drain(back) == s.e)
  {
    hide AtRest, Savable, Load, Drain, InWindow, Moves, PrintMeta, PrintLog, Commands;
    var file := s'.files.snapshot;
    var files := s.files.(snapshot := file);
    assert files == Files(PrintMeta(s.e.meta), PrintLog(s.e.log), file) && file.value.index == target;
    RestWindow(s);
    LoadWindow(s.e, file);
    if s.e.meta.snapIndex == 0 {
      FirstCompactionCut(s.e, s.files, file.value);
      assert Save(s.e, files) == files;
      RestartTransparent(s.e, files);
    }
  }

  lemma RestWindow(s: Machine)
    requires AtRest(s.e, s.files)
    ensures s.e.meta.snapIndex <= s.e.meta.commit <= s.e.meta.snapIndex + |s.e.log|
  {
    hide RunCore;
  }

  // ---- Starting from any snapshot file ----

  /** A started node is within its window if and only if its snapshot file is the one its meta file names,
      or its meta file names none. A crash during the first compaction leaves the second; one during a
      later compaction leaves neither, and the node then stands below its own snapshot. */
  lemma LoadWindow(e: Engine, file: Option<SnapshotFile>)
    requires Savable(e) && e.meta.snapIndex <= e.meta.commit <= e.meta.snapIndex + |e.log|
    ensures Commands(e.log)
    ensures var back := Load(Files(PrintMeta(e.meta), PrintLog(e.log), file));
            && (InWindow(back) <==> Matches(file, e.meta) || e.meta.snapIndex == 0)
            && back.meta == e.meta && back.log == e.log
  {
    hide *;
    SavedBack(e);
    LoadIs(e, Files(PrintMeta(e.meta), PrintLog(e.log), file));
  }

  lemma SavedBack(e: Engine)
    requires Savable(e)
    ensures Commands(e.log) && ReadMeta(PrintMeta(e.meta)) == e.meta && LoadLog(PrintLog(e.log), e.meta.snapIndex, MAX_LOG) == e.log
  {
    MetaRoundTrip(e.meta);
    OwnLog(e);
    Parts(e);
    LogBack(e, e.log);
    hide PrintMeta, ReadMeta, PrintLog, LoadLog, MetaOk, Storable, After;
  }

  lemma LoadIs(e: Engine, files: Files)
    requires ReadMeta(files.meta) == e.meta && LoadLog(files.log, e.meta.snapIndex, MAX_LOG) == e.log
    requires e.meta.snapIndex <= e.meta.commit <= e.meta.snapIndex + |e.log|
    ensures var back := Load(files);
            && (InWindow(back) <==> Matches(files.snapshot, e.meta) || e.meta.snapIndex == 0)
            && back.meta == e.meta && back.log == e.log
  {
    hide ReadMeta, LoadLog;
  }

  /** A crash during the first compaction, with the snapshot file written and the meta file not, leaves
      the node as restartable as it was. */
  lemma FirstCompactionCut(e: Engine, files: Files, file: SnapshotFile)
    requires AtRest(e, files) && e.meta.snapIndex == 0 && file.index > 0
    ensures AtRest(e, files.(snapshot := Some(file)))
  {
    var start := RestStart(e, files);
    hide RunCore;
    AtRestFrom(e, files.(snapshot := Some(file)), start);
  }
}
