/** The snapshot buffer holds text. Replaying from it, rather than from the map it stands for, gives the
    application back exactly when the text holds all of it. */
module SnapshotReplay {
  import opened RaftTypes
  import opened Sizes
  import opened KeyValue
  import opened KvTable
  import opened KvSnapshot
  import CompactingNode

  /** Every live pair can be written and read, and there is room for all of them. */
  predicate Keeps(slots: seq<Slot>) {
    LiveClean(slots) && |Text(slots)| < MAX_SNAPSHOT
  }

  function TextBase(slots: seq<Slot>): Kv {
    Contents(Restored(SnapshotText(slots, MAX_SNAPSHOT)))
  }

  /** A rebuild reads the text and replays what follows the snapshot's label. It gives the application
      back if and only if every pair the replay does not touch is in the text as it is in the application:
      what the replay touches, it restores. With a label at the applied index nothing is replayed, and the
      text must keep everything. */
  lemma RebuildFromText(slots: seq<Slot>, base: Kv, log: Log, snap: nat, target: nat, applied: nat)
    requires Unique(slots) && |slots| <= MAX_PAIRS && snap <= target <= applied <= |log|
    requires Contents(slots) == Run(base, log[snap..applied])
    ensures Run(TextBase(slots), log[target..applied]) == Contents(slots) <==>
              forall key :: !Touched(log[target..applied], key) ==> At(TextBase(slots), key) == At(Contents(slots), key)
    ensures Keeps(slots) ==> Run(TextBase(slots), log[target..applied]) == Contents(slots)
    ensures target == applied ==> (Run(TextBase(slots), log[target..applied]) == Contents(slots) <==> Keeps(slots))
  {
    SnapshotRoundTrip(slots);
    CompactingNode.ReplayFrom(base, log, snap, target, applied);
    ReplayRestores(TextBase(slots), Contents(slots), log[target..applied]);
    hide Run, Contents, SnapshotText, Restored, Text, LiveClean;
    if target == applied { assert log[target..applied] == []; RunNothing(TextBase(slots)); }
  }

  predicate Touched(log: Log, key: string) {
    exists k :: 0 <= k < |log| && Touches(log[k].command, key)
  }

  /** Replay over a state that already has it, started from another one. */
  lemma ReplayRestores(start: Kv, app: Kv, log: Log)
    requires Run(app, log) == app
    ensures Run(start, log) == app <==> forall key :: !Touched(log, key) ==> At(start, key) == At(app, key)
  {
    forall key ensures At(Run(start, log), key) == At(app, key) <==> Touched(log, key) || At(start, key) == At(app, key) {
      LastWriteWins(start, app, log, key);
      LastWriteWins(app, start, log, key);
    }
    hide Run;
    if forall key :: !Touched(log, key) ==> At(start, key) == At(app, key) {
      SameKv(Run(start, log), app);
    }
  }

  /** With clean pairs the text has those of the slots it has room for, so the condition is that the
      replay touches every live slot it has not. */
  lemma RebuildOverrun(slots: seq<Slot>, base: Kv, log: Log, snap: nat, target: nat, applied: nat)
    requires Unique(slots) && |slots| <= MAX_PAIRS && snap <= target <= applied <= |log| && LiveClean(slots)
    requires Contents(slots) == Run(base, log[snap..applied])
    ensures Run(TextBase(slots), log[target..applied]) == Contents(slots) <==>
              forall k :: Written(slots, MAX_SNAPSHOT) <= k < |slots| && slots[k].used ==> Touched(log[target..applied], slots[k].key)
  {
    var n := Written(slots, MAX_SNAPSHOT);
    RebuildFromText(slots, base, log, snap, target, applied);
    RestoredPrefix(slots);
    WrittenIs(slots, MAX_SNAPSHOT);
    hide Run, SnapshotText, Restored, Text, LiveClean, Touched, Contents;
    forall key ensures At(Contents(slots[..n]), key) == At(Contents(slots), key) <==> !(exists k :: n <= k < |slots| && Live(slots, k, key)) {
      PrefixAt(slots, n, key);
    }
    forall k | n <= k < |slots| && slots[k].used ensures Live(slots, k, slots[k].key) {
    }
  }

  /** A prefix of the slots lacks exactly the keys that are live after it. */
  lemma PrefixAt(slots: seq<Slot>, n: nat, key: string)
    requires Unique(slots) && n <= |slots|
    ensures At(Contents(slots[..n]), key) == At(Contents(slots), key) <==> !(exists k :: n <= k < |slots| && Live(slots, k, key))
  {
    ContentsAt(slots, key);
    ContentsAt(slots[..n], key);
    hide Contents;
    assert forall k :: 0 <= k < n ==> (Live(slots[..n], k, key) <==> Live(slots, k, key));
    if k :| 0 <= k < |slots| && Live(slots, k, key) {
      if k < n { assert Live(slots[..n], k, key); }
    }
  }

  lemma RunNothing(kv: Kv)
    ensures Run(kv, []) == kv
  {
  }

  /** Compaction over the table and the buffer, as the engine does it. */
  method CompactOver(n: CompactingNode.Node, t: Table, buf: array<char>) returns (size: nat)
    requires n.Valid() && t.Valid() && t.State() == n.app && buf.Length == MAX_SNAPSHOT
    modifies n, n.log, buf
    ensures n.Valid() && n.app == old(n.app) && size < buf.Length && n.snapshotIndex == Max(old(n.snapshotIndex), old(n.Target()))
    ensures n.snapshotIndex > old(n.snapshotIndex) ==>
              var base, slots := Contents(Restored(buf[..size])), t.pairs[..t.count];
              && (n.app == Run(base, n.full[n.snapshotIndex..n.lastApplied]) <==>
                    forall key :: !Touched(n.full[n.snapshotIndex..n.lastApplied], key) ==> At(base, key) == At(n.app, key))
              && (Keeps(slots) ==> n.app == Run(base, n.full[n.snapshotIndex..n.lastApplied]))
              && (n.snapshotIndex == n.lastApplied ==> (n.app == Run(base, n.full[n.snapshotIndex..n.lastApplied]) <==> Keeps(slots)))
  {
    ghost var base, full, snap := n.Base(), n.full, n.snapshotIndex;
    hide Run, Contents, SnapshotText, Restored, Text, LiveClean;
    n.Compact();
    size := Snapshot(t, buf);
    RebuildFromText(t.pairs[..t.count], base, full, snap, n.snapshotIndex, n.lastApplied);
  }
}
