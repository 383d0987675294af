/** One node of the C engine: a log array of fixed size behind a snapshot, updated in place. The ghost
    fields tell the whole logical log, of which the array holds what follows the snapshot. */
module CompactingNode {
  import opened RaftTypes
  import opened Sizes
  import opened LogMerge
  import opened CompactedLog
  import opened KeyValue
  import opened OrderStatistic

  /** Where an id first stands in a list, or the list's length. */
  function Place(ids: seq<NodeId>, id: NodeId): (k: nat)
    ensures k <= |ids| && (k < |ids| ==> ids[k] == id) && (forall j :: 0 <= j < k ==> ids[j] != id)
  {
    if ids == [] || ids[0] == id then 0 else 1 + Place(ids[1..], id)
  }

  /** What a leader knows of who holds its log: its own length, and what each peer acknowledged. */
  datatype Standing = Standing(self: NodeId, last: nat, peers: seq<NodeId>, acks: seq<nat>) {
    /** A member that is no peer has acknowledged nothing. */
    function AckOf(id: NodeId): nat {
      if id == self then last
      else if Place(peers, id) < |peers| && Place(peers, id) < |acks| then acks[Place(peers, id)]
      else 0
    }

    function AcksOf(members: seq<NodeId>): (r: seq<nat>)
      ensures |r| == |members|
    {
      if members == [] then [] else [AckOf(members[0])] + AcksOf(members[1..])
    }

    /** The highest index the quorums of a configuration hold; no new members, no second quorum. */
    function QuorumIndex(old_: seq<NodeId>, new_: seq<NodeId>): nat {
      var o := QuorumAck(AcksOf(old_));
      if new_ == [] then o else Min(o, QuorumAck(AcksOf(new_)))
    }
  }

  /** The smallest of some acknowledgements and a bound. */
  function Least(bound: nat, acks: seq<nat>): (r: nat)
    ensures r <= bound && (forall k :: 0 <= k < |acks| ==> r <= acks[k])
    ensures r == bound || exists k :: 0 <= k < |acks| && r == acks[k]
  {
    if acks == [] then bound
    else
      var rest := Least(bound, acks[1..]);
      assert forall k :: 0 <= k < |acks[1..]| ==> acks[1..][k] == acks[k + 1];
      Min(acks[0], rest)
  }

  class Node {
    const nodeId: NodeId
    const log: array<Entry>
    const peers: array<NodeId>
    const matchIndex: array<nat>
    var logCount: nat
    var snapshotIndex: nat
    var snapshotTerm: nat
    var commitIndex: nat
    var lastApplied: nat
    var currentTerm: nat
    var leading: bool
    var peerCount: nat
    var oldMembers: seq<NodeId>
    var newMembers: seq<NodeId>
    /** The application's state, and the state the snapshot buffer holds. */
    var app: Kv
    var snapshot: Kv
    var persistDirty: bool
    ghost var full: Log

    constructor (id: NodeId, members: seq<NodeId>)
      ensures Valid() && Labelled() && full == [] && nodeId == id && oldMembers == members && newMembers == []
    {
      nodeId, oldMembers, newMembers := id, members, [];
      log := new Entry[MAX_LOG](_ => Entry(0, 0, AppCommand("", "", None), ""));
      peers, matchIndex := new NodeId[MAX_PEERS](_ => ""), new nat[MAX_PEERS](_ => 0);
      logCount, snapshotIndex, snapshotTerm, commitIndex, lastApplied, currentTerm := 0, 0, 0, 0, 0, 0;
      leading, peerCount, persistDirty := false, 0, false;
      app, snapshot, full := map[], map[], [];
    }

    /** The state replay starts from: the buffer counts only once there is a snapshot. */
    ghost function Base(): Kv
      reads this
    {
      if snapshotIndex > 0 then snapshot else map[]
    }

    /** The array is the part of the logical log after the snapshot. */
    ghost predicate Stored()
      reads this, log, peers, matchIndex
    {
      && log.Length == MAX_LOG && peers.Length == matchIndex.Length == MAX_PEERS
      && logCount <= MAX_LOG && peerCount <= MAX_PEERS
      && |full| == snapshotIndex + logCount && log[..logCount] == full[snapshotIndex..] && Indexed(full)
      && snapshotTerm == TermAt(full, snapshotIndex)
    }

    ghost predicate InWindow()
      reads this
    {
      snapshotIndex <= lastApplied <= commitIndex <= |full|
    }

    /** The application state is the base state with the entries after the snapshot applied, in order. */
    ghost predicate Replayed()
      reads this
    {
      snapshotIndex <= lastApplied <= |full| && app == Run(Base(), full[snapshotIndex..lastApplied])
    }

    ghost predicate Valid()
      reads this, log, peers, matchIndex
    {
      Stored() && InWindow() && Replayed()
    }

    /** The snapshot holds exactly the entries its label names. */
    ghost predicate Labelled()
      reads this
    {
      snapshotIndex <= |full| && Base() == Run(map[], full[..snapshotIndex])
    }

    // ---- Index helpers ----

    function LastIndex(): (r: nat)
      reads this, log, peers, matchIndex
      requires Stored()
      ensures r == |full|
    {
      snapshotIndex + logCount
    }

    function LastLogTerm(): (r: nat)
      reads this, log, peers, matchIndex
      requires Stored()
      ensures r == LastTerm(full)
    {
      if logCount == 0 then snapshotTerm
      else
        assert log[..logCount][logCount - 1] == full[snapshotIndex..][logCount - 1];
        log[logCount - 1].term
    }

    function HasIndex(index: nat): (r: bool)
      reads this, log, peers, matchIndex
      requires Stored()
      ensures r <==> snapshotIndex < index <= |full|
    {
      snapshotIndex + 1 <= index <= LastIndex()
    }

    function EntryAt(index: nat): (r: Entry)
      reads this, log, peers, matchIndex
      requires Stored() && HasIndex(index)
      ensures r == full[index - 1] && r.index == index
    {
      assert log[..logCount][index - snapshotIndex - 1] == full[snapshotIndex..][index - snapshotIndex - 1];
      log[index - snapshotIndex - 1]
    }

    function TermAtIndex(index: nat): (r: nat)
      reads this, log, peers, matchIndex
      requires Stored() && snapshotIndex <= index <= LastIndex()
      ensures r == TermAt(full, index)
    {
      if index == 0 then 0
      else if index == snapshotIndex then snapshotTerm
      else EntryAt(index).term
    }

    function LeaderAtIndex(index: nat): (r: NodeId)
      reads this, log, peers, matchIndex
      requires Stored()
      ensures r == if snapshotIndex < index <= |full| then full[index - 1].creator else ""
    {
      if !HasIndex(index) then "" else EntryAt(index).creator
    }

    // ---- Appending ----

    method CheckPrevious(m: Message) returns (ok: bool)
      requires Stored() && m.AppendEntries?
      ensures ok <==> Accepts(full, snapshotIndex, m)
      ensures ok <==>
                && snapshotIndex <= m.prevIndex <= |full|
                && (m.prevIndex == 0 || full[m.prevIndex - 1].term == m.prevTerm)
                && (m.prevIndex == snapshotIndex || m.prevCreator == "" || full[m.prevIndex - 1].creator == m.prevCreator)
    {
      if m.prevIndex < snapshotIndex { return false; }
      if m.prevIndex > LastIndex() { return false; }
      if m.prevIndex > 0 && TermAtIndex(m.prevIndex) != m.prevTerm { return false; }
      if m.prevIndex > 0 && m.prevCreator != "" && HasIndex(m.prevIndex) && LeaderAtIndex(m.prevIndex) != m.prevCreator {
        return false;
      }
      ok := true;
    }

    method Cut(index: nat)
      requires Stored() && HasIndex(index)
      modifies `logCount, `persistDirty, `full
      ensures Stored() && full == old(full)[..index - 1] && persistDirty
    {
      logCount, persistDirty := index - snapshotIndex - 1, true;
      full := full[..index - 1];
      assert log[..logCount] == old(log[..logCount])[..logCount];
    }

    method Push(e: Entry)
      requires Stored() && e.index == LastIndex() + 1 && logCount < MAX_LOG
      modifies log, `logCount, `persistDirty, `full
      ensures Stored() && full == old(full) + [e] && persistDirty
    {
      log[logCount] := e;
      logCount, persistDirty := logCount + 1, true;
      full := full + [e];
      assert log[..logCount] == old(log[..logCount]) + [e];
    }

    /** One entry of the append loop; tells whether it overwrote an applied one. */
    method AppendOne(entry: Entry) returns (overwrote: bool, ghost changed: bool)
      requires Stored()
      modifies log, `logCount, `persistDirty, `full
      ensures Stored() && persistDirty == (old(persistDirty) || changed)
      ensures AbsorbOne(Merged(old(full), false, false), entry, snapshotIndex, lastApplied) == Merged(full, overwrote, changed)
    {
      overwrote, changed := false, false;
      if entry.index <= snapshotIndex { return; }
      if HasIndex(entry.index) {
        var conflict := TermAtIndex(entry.index) != entry.term
                        || (entry.creator != "" && LeaderAtIndex(entry.index) != entry.creator);
        if !conflict { return; }
        if entry.index <= lastApplied { overwrote := true; }
        Cut(entry.index);
        changed := true;
      }
      if entry.index == LastIndex() + 1 && logCount < MAX_LOG {
        Push(entry);
        changed := true;
      }
    }

    /** The append loop over the array. */
    method AppendLoop(entries: Log) returns (rebuild: bool, ghost changed: bool)
      requires Stored()
      modifies log, `logCount, `persistDirty, `full
      ensures Stored()
      ensures Absorb(Merged(old(full), false, false), entries, snapshotIndex, lastApplied) == Merged(full, rebuild, changed)
      ensures persistDirty == (old(persistDirty) || changed)
    {
      rebuild, changed := false, false;
      ghost var was := full;
      for i := 0 to |entries|
        invariant Stored() && persistDirty == (old(persistDirty) || changed)
        invariant Absorb(Merged(full, rebuild, changed), entries[i..], snapshotIndex, lastApplied)
               == Absorb(Merged(was, false, false), entries, snapshotIndex, lastApplied)
      {
        assert entries[i..][0] == entries[i] && entries[i..][1..] == entries[i + 1..];
        hide Conflicts, Stored;
        var overwrote, more := AppendOne(entries[i]);
        rebuild, changed := rebuild || overwrote, changed || more;
      }
      assert entries[|entries|..] == [];
    }

    /** Takes a message from the leader: checks, append loop, commit index, and the application started
        over from the snapshot if applied entries were overwritten. */
    method AppendFromLeader(m: Message) returns (ok: bool, ghost rebuild: bool)
      requires Valid() && m.AppendEntries?
      modifies log, `logCount, `commitIndex, `lastApplied, `app, `persistDirty, `full
      ensures Stored() && Replayed()
      ensures ok <==> Accepts(old(full), snapshotIndex, m)
      ensures Outcome(full, commitIndex, rebuild) == Handle(old(full), old(commitIndex), m, old(snapshotIndex), old(lastApplied))
      ensures old(Labelled()) ==> Labelled()
      ensures lastApplied == (if rebuild then snapshotIndex else old(lastApplied)) && app == (if rebuild then Base() else old(app))
      ensures InWindow() <==> !rebuild || m.leaderCommit >= snapshotIndex
    {
      hide Absorb, Accepts;
      rebuild := false;
      ghost var was := full;
      ok := CheckPrevious(m);
      if !ok { return; }
      var again, changed := AppendLoop(m.entries);
      rebuild := again;
      KeptApplied(Merged(was, false, false), m.entries, snapshotIndex, lastApplied);
      if again {
        commitIndex := Min(m.leaderCommit, LastIndex());
        RestoreBase();
      } else if m.leaderCommit > commitIndex {
        commitIndex, persistDirty := Min(m.leaderCommit, LastIndex()), true;
      } else if commitIndex > LastIndex() {
        commitIndex, persistDirty := LastIndex(), true;
      }
    }

    method RestoreBase()
      requires Stored()
      modifies `app, `lastApplied, `persistDirty
      ensures app == Base() && lastApplied == snapshotIndex && Replayed()
    {
      if snapshotIndex > 0 && snapshot != map[] { app := snapshot; } else { app := map[]; }
      lastApplied, persistDirty := snapshotIndex, true;
      assert full[snapshotIndex..lastApplied] == [];
    }

    /** A leader's own entry. */
    method AppendCommand(op: string, key: string, value: string) returns (index: nat)
      requires Valid()
      modifies log, `logCount, `persistDirty, `full
      ensures Valid() && (old(Labelled()) ==> Labelled())
      ensures index == if old(logCount) < MAX_LOG && leading then |old(full)| + 1 else 0
      ensures full == if index == 0 then old(full)
                      else old(full) + [Entry(index, currentTerm, AppCommand(op, key, Some(value)), nodeId)]
    {
      if !leading || logCount >= MAX_LOG { return 0; }
      index := LastIndex() + 1;
      ghost var was := full;
      Push(Entry(index, currentTerm, AppCommand(op, key, Some(value)), nodeId));
      assert full[snapshotIndex..lastApplied] == was[snapshotIndex..lastApplied] && full[..snapshotIndex] == was[..snapshotIndex];
    }

    // ---- Applying ----

    method ApplyNext()
      requires Valid() && lastApplied < commitIndex
      modifies `lastApplied, `app, `persistDirty
      ensures Valid() && InWindow() && lastApplied == old(lastApplied) + 1
      ensures app == ApplyTo(old(app), full[old(lastApplied)].command)
    {
      RunStep(Base(), full, snapshotIndex, lastApplied);
      lastApplied := lastApplied + 1;
      var entry := EntryAt(lastApplied);
      app, persistDirty := ApplyTo(app, entry.command), true;
      hide ApplyTo, Run;
    }

    /** Applies every committed entry. Configuration entries are the engine's own affair. */
    method ApplyCommitted()
      requires Valid()
      modifies `lastApplied, `app, `persistDirty
      ensures Valid() && lastApplied == commitIndex
      ensures app == Run(old(app), full[old(lastApplied)..commitIndex])
    {
      assert InWindow();
      ghost var from := lastApplied;
      assert full[from..lastApplied] == [] && Run(app, []) == app;
      hide Stored, Replayed, ApplyTo, Run, Valid;
      while lastApplied < commitIndex
        invariant Valid() && InWindow() && from <= lastApplied && app == Run(old(app), full[from..lastApplied])
      {
        RunStep(old(app), full, from, lastApplied);
        ApplyNext();
      }
    }

    // ---- Compaction ----

    /** A leader keeps what some peer may still need; other nodes keep nothing they have applied. */
    ghost function Target(): (r: nat)
      reads this, matchIndex
      requires peerCount <= matchIndex.Length
      ensures r <= lastApplied && (!leading ==> r == lastApplied)
      ensures leading ==> (forall k :: 0 <= k < peerCount ==> r <= matchIndex[k])
      ensures leading && r < lastApplied ==> exists k :: 0 <= k < peerCount && r == matchIndex[k]
    {
      if leading then Least(lastApplied, matchIndex[..peerCount]) else lastApplied
    }

    method CompactibleIndex() returns (r: nat)
      requires Stored()
      ensures r == Target()
      ensures r <= lastApplied && (!leading ==> r == lastApplied)
      ensures leading ==> (forall k :: 0 <= k < peerCount ==> r <= matchIndex[k])
      ensures leading && r < lastApplied ==> exists k :: 0 <= k < peerCount && r == matchIndex[k]
    {
      r := lastApplied;
      if !leading { return; }
      for i := 0 to peerCount
        invariant r <= lastApplied && forall k :: 0 <= k < i ==> r <= matchIndex[k]
        invariant r < lastApplied ==> exists k :: 0 <= k < i && r == matchIndex[k]
      {
        if matchIndex[i] < r { r := matchIndex[i]; }
      }
    }

    /** Moves what is kept to the front of the array. */
    method MoveDown(keepFrom: nat)
      requires log.Length == MAX_LOG && keepFrom <= logCount <= MAX_LOG
      modifies log, `logCount
      ensures logCount == old(logCount) - keepFrom && log[..logCount] == old(log[..logCount])[keepFrom..]
    {
      var kept := logCount - keepFrom;
      ghost var was := log[..logCount];
      for i := 0 to kept
        invariant forall k :: 0 <= k < i ==> log[k] == was[keepFrom + k]
        invariant forall k :: i <= k < |was| ==> log[k] == was[k]
      {
        log[i] := log[keepFrom + i];
      }
      logCount := kept;
      assert log[..kept] == was[keepFrom..];
    }

    /** Moves the snapshot boundary up; the logical log stays what it is. */
    method TruncatePrefix(target: nat)
      requires Stored() && snapshotIndex < target <= LastIndex()
      modifies log, `logCount, `snapshotIndex, `snapshotTerm
      ensures Stored() && snapshotIndex == target
      ensures logCount == old(logCount) - (target - old(snapshotIndex)) && log[..logCount] == old(log[..logCount])[target - old(snapshotIndex)..]
    {
      ghost var snap := snapshotIndex;
      var targetTerm := TermAtIndex(target);
      MoveDown(target - snapshotIndex);
      snapshotIndex, snapshotTerm := target, targetTerm;
      assert full[snap..][target - snap..] == full[target..];
    }

    /** Snapshot and truncation. The snapshot is of the application as it stands, whatever the label. */
    method Compact()
      requires Valid()
      modifies log, `logCount, `snapshotIndex, `snapshotTerm, `snapshot, `persistDirty
      ensures Valid() && snapshotIndex == Max(old(snapshotIndex), Target())
      ensures logCount == old(logCount) - (snapshotIndex - old(snapshotIndex))
      ensures log[..logCount] == old(log[..logCount])[snapshotIndex - old(snapshotIndex)..]
      ensures snapshot == if snapshotIndex > old(snapshotIndex) then app else old(snapshot)
      ensures persistDirty == (old(persistDirty) || snapshotIndex > old(snapshotIndex))
      ensures old(Labelled()) ==>
                (Labelled() <==> snapshotIndex == old(snapshotIndex) || Run(map[], full[..snapshotIndex]) == Run(map[], full[..lastApplied]))
    {
      var target := CompactibleIndex();
      if target > snapshotIndex { CompactTo(target); }
    }

    method CompactTo(target: nat)
      requires Valid() && snapshotIndex < target <= lastApplied
      modifies log, `logCount, `snapshotIndex, `snapshotTerm, `snapshot, `persistDirty
      ensures Valid() && snapshotIndex == target && snapshot == app && persistDirty
      ensures logCount == old(logCount) - (target - old(snapshotIndex)) && log[..logCount] == old(log[..logCount])[target - old(snapshotIndex)..]
      ensures old(Labelled()) ==> (Labelled() <==> Run(map[], full[..snapshotIndex]) == Run(map[], full[..lastApplied]))
    {
      ghost var labelled := Labelled();
      ReplayFrom(Base(), full, snapshotIndex, target, lastApplied);
      if labelled { ReplayAll(full, snapshotIndex, lastApplied); }
      hide Run;
      assert labelled ==> app == Run(map[], full[..lastApplied]);
      snapshot := app;
      TruncatePrefix(target);
      persistDirty := true;
    }

    // ---- Commit scan ----

    ghost function Seen(): Standing
      reads this, log, peers, matchIndex
      requires Stored()
    {
      Standing(nodeId, |full|, peers[..peerCount], matchIndex[..peerCount])
    }

    method PeerIndex(id: NodeId) returns (k: nat)
      requires Stored()
      ensures k == Place(peers[..peerCount], id)
    {
      k := 0;
      ghost var ids := peers[..peerCount];
      while k < peerCount
        invariant k <= peerCount && Place(ids, id) == k + Place(ids[k..], id)
      {
        if peers[k] == id { return; }
        assert ids[k..][0] == peers[k] && ids[k..][1..] == ids[k + 1..];
        k := k + 1;
      }
    }

    method ReplicatedOn(candidate: nat, members: seq<NodeId>) returns (ok: bool)
      requires Stored() && candidate > 0
      ensures ok <==> candidate <= QuorumAck(Seen().AcksOf(members))
    {
      var replicated := 0;
      ghost var seen := Seen();
      for i := 0 to |members|
        invariant replicated + Reaching(seen.AcksOf(members[i..]), candidate) == Reaching(seen.AcksOf(members), candidate)
      {
        assert members[i..][0] == members[i] && members[i..][1..] == members[i + 1..];
        assert seen.AcksOf(members[i..])[1..] == seen.AcksOf(members[i + 1..]);
        if members[i] == nodeId {
          if LastIndex() >= candidate { replicated := replicated + 1; }
        } else {
          var k := PeerIndex(members[i]);
          if k < peerCount && matchIndex[k] >= candidate { replicated := replicated + 1; }
        }
      }
      MajorityReaches(seen.AcksOf(members), candidate);
      ok := replicated >= |members| / 2 + 1;
    }

    method IsCommitted(candidate: nat) returns (ok: bool)
      requires Stored() && candidate > 0
      ensures ok <==> candidate <= Seen().QuorumIndex(oldMembers, newMembers)
    {
      ok := ReplicatedOn(candidate, oldMembers);
      if ok && newMembers != [] { ok := ReplicatedOn(candidate, newMembers); }
    }

    /** The new commit index is the largest index of the current term that is at most the majority-th
        largest acknowledgement of the old members and, in a joint configuration, of the new ones; if
        there is none above the old commit index, that one stays. */
    method AdvanceCommitIndex()
      requires Valid()
      modifies `commitIndex, `persistDirty
      ensures Valid() && commitIndex >= old(commitIndex)
      ensures commitIndex > old(commitIndex) ==>
                full[commitIndex - 1].term == currentTerm && commitIndex <= Seen().QuorumIndex(oldMembers, newMembers)
      ensures forall j :: commitIndex <= j < |full| && full[j].term == currentTerm ==>
                j + 1 > Seen().QuorumIndex(oldMembers, newMembers)
    {
      hide Run, QuorumAck;
      var index := Highest();
      if index > commitIndex { commitIndex, persistDirty := index, true; }
    }

    /** The downward scan. */
    method Highest() returns (index: nat)
      requires Stored() && snapshotIndex <= commitIndex <= |full|
      ensures commitIndex <= index <= |full|
      ensures index > commitIndex ==> full[index - 1].term == currentTerm && index <= Seen().QuorumIndex(oldMembers, newMembers)
      ensures forall j :: index <= j < |full| && full[j].term == currentTerm ==>
                j + 1 > Seen().QuorumIndex(oldMembers, newMembers)
    {
      hide Run, QuorumAck;
      index := LastIndex();
      while index > commitIndex
        invariant commitIndex <= index <= |full|
        invariant forall j :: index <= j < |full| && full[j].term == currentTerm ==>
                    j + 1 > Seen().QuorumIndex(oldMembers, newMembers)
      {
        if TermAtIndex(index) == currentTerm {
          var committed := IsCommitted(index);
          if committed { return; }
        }
        index := index - 1;
      }
    }

    // ---- Outputs ----

    /** The end of a tick, up to the save: commit, apply, and compact when enough can be dropped. */
    method DumpOutputs(threshold: int)
      requires Valid()
      modifies `commitIndex, `persistDirty, `lastApplied, `app, log, `logCount, `snapshotIndex, `snapshotTerm, `snapshot
      ensures Valid() && full == old(full) && lastApplied == commitIndex >= old(commitIndex)
      ensures !leading ==> commitIndex == old(commitIndex)
      ensures leading ==> forall j :: commitIndex <= j < |full| && full[j].term == currentTerm ==>
                j + 1 > Seen().QuorumIndex(oldMembers, newMembers)
      ensures commitIndex > old(commitIndex) ==>
                full[commitIndex - 1].term == currentTerm && commitIndex <= Seen().QuorumIndex(oldMembers, newMembers)
      ensures app == Run(old(app), full[old(lastApplied)..commitIndex])
      ensures snapshotIndex == if threshold > 0 && Target() - old(snapshotIndex) >= threshold then Target() else old(snapshotIndex)
      ensures threshold > 0 ==> Target() - snapshotIndex < threshold
      ensures snapshot == if snapshotIndex > old(snapshotIndex) then app else old(snapshot)
      ensures old(Labelled()) && !leading ==> Labelled()
    {
      hide Run, Stored, Replayed, QuorumAck, Labelled, Standing.QuorumIndex, InWindow;
      CommitAndApply();
      CompactIfDue(threshold);
    }

    method CompactIfDue(threshold: int)
      requires Valid()
      modifies log, `logCount, `snapshotIndex, `snapshotTerm, `snapshot, `persistDirty
      ensures Valid() && Seen() == old(Seen())
      ensures snapshotIndex == if threshold > 0 && Target() - old(snapshotIndex) >= threshold then Target() else old(snapshotIndex)
      ensures threshold > 0 ==> Target() - snapshotIndex < threshold
      ensures snapshot == if snapshotIndex > old(snapshotIndex) then app else old(snapshot)
      ensures old(Labelled()) && !leading ==> Labelled()
    {
      hide Run, Stored, Replayed;
      var compactible := CompactibleIndex();
      if threshold > 0 && compactible - snapshotIndex >= threshold { Compact(); }
    }

    /** A leader commits what its quorums hold; everybody applies what is committed. */
    method CommitAndApply()
      requires Valid()
      modifies `commitIndex, `persistDirty, `lastApplied, `app
      ensures Valid() && lastApplied == commitIndex >= old(commitIndex)
      ensures !leading ==> commitIndex == old(commitIndex)
      ensures leading ==> forall j :: commitIndex <= j < |full| && full[j].term == currentTerm ==>
                j + 1 > Seen().QuorumIndex(oldMembers, newMembers)
      ensures commitIndex > old(commitIndex) ==>
                full[commitIndex - 1].term == currentTerm && commitIndex <= Seen().QuorumIndex(oldMembers, newMembers)
      ensures app == Run(old(app), full[old(lastApplied)..commitIndex])
      ensures old(Labelled()) ==> Labelled()
    {
      hide Run, QuorumAck;
      if leading { AdvanceCommitIndex(); }
      ApplyCommitted();
    }
  }

  /** Replaying the tail of a stretch over its end changes nothing, so a snapshot may carry an early label. */
  lemma ReplayFrom(base: Kv, log: Log, snap: nat, target: nat, applied: nat)
    requires snap <= target <= applied <= |log|
    ensures var app := Run(base, log[snap..applied]); Run(app, log[target..applied]) == app
  {
    assert log[snap..applied] == log[snap..target] + log[target..applied];
    RunAppend(base, log[snap..target], log[target..applied]);
    RunTwice(Run(base, log[snap..target]), log[target..applied]);
  }

  lemma ReplayAll(log: Log, snap: nat, applied: nat)
    requires snap <= applied <= |log|
    ensures Run(Run(map[], log[..snap]), log[snap..applied]) == Run(map[], log[..applied])
  {
    assert log[..applied] == log[..snap] + log[snap..applied];
    RunAppend(map[], log[..snap], log[snap..applied]);
  }

  lemma RunStep(base: Kv, log: Log, from: nat, to: nat)
    requires from <= to < |log|
    ensures Run(base, log[from..to + 1]) == ApplyTo(Run(base, log[from..to]), log[to].command)
  {
    assert log[from..to + 1][..to - from] == log[from..to];
  }
}
