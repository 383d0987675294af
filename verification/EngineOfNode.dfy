/** The node as an array behind a snapshot, seen as the engine that is saved and started again: what the
    one's methods do is what the other's moves say. */
module EngineOfNode {
  import opened RaftTypes
  import opened LogMerge
  import opened CompactedLog
  import opened KeyValue
  import opened MetaText
  import opened Restart
  import opened EngineRuns
  import CompactingNode

  /** What the array model leaves out of the meta file. */
  datatype Others = Others(vote: NodeId, threshold: nat, index: nat)

  ghost function EngineOf(n: CompactingNode.Node, others: Others): Engine
    reads n, n.log, n.peers, n.matchIndex
    requires n.Stored()
  {
    Engine(Meta(n.currentTerm, others.vote, others.threshold, n.commitIndex, n.snapshotIndex, n.snapshotTerm,
                Config(n.oldMembers, n.newMembers, others.index)),
           n.log[..n.logCount], n.lastApplied, n.app, n.snapshot)
  }

  /** Two logs a node cannot tell apart: same length, same last snapshot term, same entries after it. */
  predicate Alike(f: Log, g: Log, snap: nat) {
    && |f| == |g| && snap <= |f| && f[snap..] == g[snap..]
    && (snap > 0 ==> f[snap - 1].term == g[snap - 1].term)
  }

  lemma AlikeAt(f: Log, g: Log, snap: nat, k: nat)
    requires Alike(f, g, snap) && snap <= k < |f|
    ensures f[k] == g[k]
  {
    assert f[snap..][k - snap] == g[snap..][k - snap];
  }

  lemma AbsorbOneAlike(f: Merged, g: Merged, e: Entry, snap: nat, applied: nat)
    requires Alike(f.log, g.log, snap) && f.rebuild == g.rebuild && f.changed == g.changed
    ensures var x, y := AbsorbOne(f, e, snap, applied), AbsorbOne(g, e, snap, applied);
            Alike(x.log, y.log, snap) && x.rebuild == y.rebuild && x.changed == y.changed
  {
    if snap < e.index <= |f.log| {
      AlikeAt(f.log, g.log, snap, e.index - 1);
      assert f.log[..e.index - 1][snap..] == f.log[snap..][..e.index - 1 - snap];
      assert g.log[..e.index - 1][snap..] == g.log[snap..][..e.index - 1 - snap];
      assert (f.log[..e.index - 1] + [e])[snap..] == f.log[..e.index - 1][snap..] + [e];
      assert (g.log[..e.index - 1] + [e])[snap..] == g.log[..e.index - 1][snap..] + [e];
    } else {
      assert (f.log + [e])[snap..] == f.log[snap..] + [e];
      assert (g.log + [e])[snap..] == g.log[snap..] + [e];
    }
  }

  lemma {:induction false} AbsorbAlike(f: Merged, g: Merged, entries: Log, snap: nat, applied: nat)
    requires Alike(f.log, g.log, snap) && f.rebuild == g.rebuild && f.changed == g.changed
    ensures var x, y := Absorb(f, entries, snap, applied), Absorb(g, entries, snap, applied);
            Alike(x.log, y.log, snap) && x.rebuild == y.rebuild && x.changed == y.changed
    decreases |entries|
  {
    if entries != [] {
      AbsorbOneAlike(f, g, entries[0], snap, applied);
      hide Alike, AbsorbOne;
      AbsorbAlike(AbsorbOne(f, entries[0], snap, applied), AbsorbOne(g, entries[0], snap, applied), entries[1..], snap, applied);
    }
  }

  /** What the snapshot covers makes no difference to how a message is handled. */
  lemma HandleAlike(f: Log, g: Log, commit: nat, m: Message, snap: nat, applied: nat)
    requires m.AppendEntries? && Alike(f, g, snap)
    ensures var x, y := Handle(f, commit, m, snap, applied), Handle(g, commit, m, snap, applied);
            Alike(x.log, y.log, snap) && x.commit == y.commit && x.rebuild == y.rebuild
  {
    if snap < m.prevIndex <= |f| { AlikeAt(f, g, snap, m.prevIndex - 1); }
    assert Accepts(f, snap, m) == Accepts(g, snap, m);
    AbsorbAlike(Merged(f, false, false), Merged(g, false, false), m.entries, snap, applied);
    hide Absorb, Accepts;
  }

  lemma WholeAlike(e: Engine, full: Log)
    requires |full| == e.meta.snapIndex + |e.log| && full[e.meta.snapIndex..] == e.log && e.meta.snapTerm == TermAt(full, e.meta.snapIndex)
    ensures Alike(full, Whole(e), e.meta.snapIndex)
  {
    hide Whole;
  }

  /** Handling a message over the array is hearing it. */
  method Hear(n: CompactingNode.Node, m: Message, ghost others: Others) returns (ok: bool)
    requires n.Valid() && m.AppendEntries?
    modifies n, n.log
    ensures n.Stored() && InWindow(old(EngineOf(n, others)))
    ensures EngineOf(n, others) == Received(old(EngineOf(n, others)), m)
  {
    ghost var e, full := EngineOf(n, others), n.full;
    WholeAlike(e, full);
    HandleAlike(full, Whole(e), e.meta.commit, m, e.meta.snapIndex, e.applied);
    hide Handle, Whole, Alike;
    ghost var rebuild;
    ok, rebuild := n.AppendFromLeader(m);
    HeardTail(e, full, m);
    assert n.log[..n.logCount] == n.full[n.snapshotIndex..];
  }

  lemma HeardTail(e: Engine, full: Log, m: Message)
    requires m.AppendEntries? && InWindow(e)
    requires var x, y := Handle(full, e.meta.commit, m, e.meta.snapIndex, e.applied), Handle(Whole(e), e.meta.commit, m, e.meta.snapIndex, e.applied);
             Alike(x.log, y.log, e.meta.snapIndex) && x.commit == y.commit && x.rebuild == y.rebuild
    ensures var o, x := Handled(e, m), Handle(full, e.meta.commit, m, e.meta.snapIndex, e.applied);
            && e.meta.snapIndex <= |x.log| && o.log[e.meta.snapIndex..] == x.log[e.meta.snapIndex..]
            && o.commit == x.commit && o.rebuild == x.rebuild
  {
    hide Handle, Whole;
    assert Handled(e, m) == Handle(Whole(e), e.meta.commit, m, e.meta.snapIndex, e.applied);
  }

  /** Compacting the array is cutting the engine's log at the target, if that lies beyond the snapshot. */
  method Compact(n: CompactingNode.Node, ghost others: Others)
    requires n.Valid()
    modifies n, n.log
    ensures n.Valid() && n.snapshotIndex == Max(old(n.snapshotIndex), old(n.Target())) && n.snapshotIndex <= old(n.snapshotIndex + n.logCount)
    ensures EngineOf(n, others) == if old(n.Target()) <= old(n.snapshotIndex) then old(EngineOf(n, others))
                                   else Compacted(old(EngineOf(n, others)), n.snapshotIndex, n.snapshotTerm)
  {
    ghost var e := EngineOf(n, others);
    hide Run;
    n.Compact();
    assert n.snapshotIndex == e.meta.snapIndex ==> n.log[..n.logCount] == e.log && n.snapshotTerm == e.meta.snapTerm;
    assert n.log[..n.logCount] == e.log[n.snapshotIndex - e.meta.snapIndex..];
  }

  lemma DrainApp(e: Engine)
    requires InWindow(e)
    ensures var d := Drain(e);
            && d.app == Run(e.app, e.log[e.applied - e.meta.snapIndex..e.meta.commit - e.meta.snapIndex])
            && d.applied == e.meta.commit && d.log == e.log
  {
    hide RunCore, Run;
    AppAlone(CoreOf(e), e.log[e.applied - e.meta.snapIndex..e.meta.commit - e.meta.snapIndex], e.applied);
  }

  /** The apply loop over the array leaves application, applied index and log as the engine's does. */
  method Apply(n: CompactingNode.Node, ghost others: Others)
    requires n.Valid()
    modifies n
    ensures n.Valid() && InWindow(old(EngineOf(n, others)))
    ensures EngineOf(n, others).app == Drain(old(EngineOf(n, others))).app
    ensures EngineOf(n, others).applied == Drain(old(EngineOf(n, others))).applied
    ensures EngineOf(n, others).log == Drain(old(EngineOf(n, others))).log
  {
    ghost var e, full := EngineOf(n, others), n.full;
    SliceOfTail(full, n.snapshotIndex, n.lastApplied, n.commitIndex);
    hide RunCore, Run, Drain;
    DrainApp(e);
    n.ApplyCommitted();
  }

  lemma SliceOfTail(log: Log, snap: nat, i: nat, j: nat)
    requires snap <= i <= j <= |log|
    ensures log[snap..][i - snap..j - snap] == log[i..j]
  {
  }
}
