/** What the C engine's append loop computes, told on the whole log from index 1 although the node keeps
    only the entries after its snapshot, in an array of fixed size. */
module CompactedLog {
  import opened RaftTypes
  import opened Sizes
  import opened LogMerge

  /** One iteration of the append loop. The snapshot covers the first snap entries; conflicts with it go
      unseen, and an entry for which the array has no room is dropped. */
  function AbsorbOne(m: Merged, e: Entry, snap: nat, applied: nat): Merged {
    if e.index <= snap then m
    else if e.index <= |m.log| then
      if Conflicts(m.log[e.index - 1], e) then
        Merged(m.log[..e.index - 1] + [e], m.rebuild || e.index <= applied, true)
      else m
    else if e.index == |m.log| + 1 && |m.log| < snap + MAX_LOG then m.(log := m.log + [e], changed := true)
    else m
  }

  /** As in the uncompacted merge, but entries the snapshot covers are passed over, and so is the next one
      if the array is full. */
  lemma EntryAbsorbed(m: Merged, e: Entry, snap: nat, applied: nat)
    requires e.index > 0
    ensures var i := e.index - 1;
            AbsorbOne(m, e, snap, applied).log ==
              if i < snap then m.log
              else if i < |m.log| && m.log[i].term == e.term && (e.creator == "" || m.log[i].creator == e.creator) then m.log
              else if i < |m.log| || (i == |m.log| && |m.log| - snap < MAX_LOG) then m.log[..i] + [e]
              else m.log
  {
    if e.index == |m.log| + 1 { assert m.log[..e.index - 1] == m.log; }
  }

  function Absorb(m: Merged, entries: Log, snap: nat, applied: nat): Merged
    decreases |entries|
  {
    if entries == [] then m else Absorb(AbsorbOne(m, entries[0], snap, applied), entries[1..], snap, applied)
  }

  /** Entries up to the applied index are kept unless a rebuild is due; the snapshot's always are. */
  lemma {:induction false} KeptApplied(m: Merged, entries: Log, snap: nat, applied: nat)
    requires snap <= applied && snap <= |m.log|
    ensures var r := Absorb(m, entries, snap, applied);
            && snap <= |r.log| && r.log[..snap] == m.log[..snap] && (m.rebuild ==> r.rebuild)
            && (applied <= |m.log| && !r.rebuild ==> applied <= |r.log| && r.log[..applied] == m.log[..applied])
    decreases |entries|
  {
    if entries != [] {
      var m1 := AbsorbOne(m, entries[0], snap, applied);
      assert m1.log[..snap] == m.log[..snap];
      KeptApplied(m1, entries[1..], snap, applied);
    }
  }

  /** The checks on the entry before the new ones. At the snapshot boundary its creator is not known. */
  predicate Accepts(log: Log, snap: nat, m: Message)
    requires m.AppendEntries?
  {
    && snap <= m.prevIndex <= |log|
    && (m.prevIndex > 0 ==> log[m.prevIndex - 1].term == m.prevTerm)
    && (m.prevIndex > snap && m.prevCreator != "" ==> log[m.prevIndex - 1].creator == m.prevCreator)
  }

  /** The entries of a message follow the previous index one by one. */
  predicate Consecutive(entries: Log, prev: nat) {
    forall k :: 0 <= k < |entries| ==> entries[k].index == prev + 1 + k
  }

  /** How many leading entries the log already has, term and creator agreeing. */
  function Held(log: Log, prev: nat, entries: Log): (n: nat)
    requires prev <= |log|
    ensures n <= |entries| && prev + n <= |log|
    ensures forall k :: 0 <= k < n ==> !Conflicts(log[prev + k], entries[k])
    ensures n < |entries| && prev + n < |log| ==> Conflicts(log[prev + n], entries[n])
    decreases |entries|
  {
    if entries == [] || prev == |log| || Conflicts(log[prev], entries[0]) then 0
    else
      var n := Held(log, prev + 1, entries[1..]);
      assert forall k :: 1 <= k < |entries| ==> entries[k] == entries[1..][k - 1];
      n + 1
  }

  /** As much of a log as the array can hold after the snapshot. */
  function Capped(log: Log, snap: nat): (r: Log)
    ensures |r| <= snap + MAX_LOG && r <= log
    ensures |log| <= snap + MAX_LOG ==> r == log
  {
    if |log| <= snap + MAX_LOG then log else log[..snap + MAX_LOG]
  }

  lemma {:induction false} AbsorbNone(m: Merged, entries: Log, snap: nat, applied: nat)
    requires |m.log| == snap + MAX_LOG && forall k :: 0 <= k < |entries| ==> entries[k].index > |m.log|
    ensures Absorb(m, entries, snap, applied) == m
    decreases |entries|
  {
    if entries != [] { AbsorbNone(m, entries[1..], snap, applied); }
  }

  /** Entries that extend the log are appended for as long as there is room. */
  lemma {:induction false} AbsorbAppends(m: Merged, entries: Log, snap: nat, applied: nat)
    requires Consecutive(entries, |m.log|) && snap <= |m.log| <= snap + MAX_LOG
    ensures Absorb(m, entries, snap, applied) ==
              Merged(Capped(m.log + entries, snap), m.rebuild, m.changed || (entries != [] && |m.log| < snap + MAX_LOG))
    decreases |entries|
  {
    if entries == [] {
      assert m.log + entries == m.log;
    } else if |m.log| == snap + MAX_LOG {
      AbsorbNone(m, entries, snap, applied);
      assert Capped(m.log + entries, snap) == m.log;
    } else {
      var m1 := m.(log := m.log + [entries[0]], changed := true);
      assert AbsorbOne(m, entries[0], snap, applied) == m1;
      AbsorbAppends(m1, entries[1..], snap, applied);
      assert m.log + entries == m1.log + entries[1..];
    }
  }

  /** The log left as it was if it already holds all the entries, and otherwise cut before the first
      entry it lacks or contradicts and continued with that entry and the rest, as far as there is room.
      Applied entries are to be rebuilt exactly when the cut reaches them. */
  function CutAndContinued(m: Merged, prev: nat, entries: Log, snap: nat, applied: nat): Merged
    requires prev <= |m.log|
  {
    var n := Held(m.log, prev, entries);
    if n == |entries| then m
    else
      var cut := prev + n < |m.log|;
      Merged(Capped(m.log[..prev + n] + entries[n..], snap), m.rebuild || (cut && prev + n < applied),
             m.changed || cut || |m.log| < snap + MAX_LOG)
  }

  lemma CutHere(m: Merged, prev: nat, entries: Log, snap: nat, applied: nat)
    requires snap <= prev < |m.log| <= snap + MAX_LOG && Consecutive(entries, prev) && entries != [] && Conflicts(m.log[prev], entries[0])
    ensures Absorb(m, entries, snap, applied) == CutAndContinued(m, prev, entries, snap, applied)
  {
    var e, rest := entries[0], entries[1..];
    var m1 := Merged(m.log[..prev] + [e], m.rebuild || prev < applied, true);
    assert AbsorbOne(m, e, snap, applied) == m1;
    assert Absorb(m, entries, snap, applied) == Absorb(m1, rest, snap, applied);
    assert Held(m.log, prev, entries) == 0;
    assert m.log[..prev] + entries[0..] == m1.log + rest;
    hide Absorb, Held, Conflicts, AbsorbOne, Capped;
    AbsorbAppends(m1, rest, snap, applied);
  }

  lemma CutAtEnd(m: Merged, entries: Log, snap: nat, applied: nat)
    requires entries != []
    ensures CutAndContinued(m, |m.log|, entries, snap, applied)
         == Merged(Capped(m.log + entries, snap), m.rebuild, m.changed || |m.log| < snap + MAX_LOG)
  {
    hide Held, Capped;
    NoneHeld(m.log, entries);
    assert m.log[..|m.log|] == m.log && entries[0..] == entries;
  }

  lemma NoneHeld(log: Log, entries: Log)
    ensures Held(log, |log|, entries) == 0
  {
  }

  lemma AppendHere(m: Merged, entries: Log, snap: nat, applied: nat)
    requires snap <= |m.log| <= snap + MAX_LOG && Consecutive(entries, |m.log|)
    ensures Absorb(m, entries, snap, applied) == CutAndContinued(m, |m.log|, entries, snap, applied)
  {
    hide *;
    if entries == [] {
      NothingSent(m, |m.log|, snap, applied);
    } else {
      CutAtEnd(m, entries, snap, applied);
      AbsorbAppends(m, entries, snap, applied);
    }
  }

  lemma HeldMore(m: Merged, prev: nat, entries: Log, snap: nat, applied: nat)
    requires snap <= prev < |m.log| && Consecutive(entries, prev) && entries != [] && !Conflicts(m.log[prev], entries[0])
    ensures Absorb(m, entries, snap, applied) == Absorb(m, entries[1..], snap, applied)
    ensures CutAndContinued(m, prev, entries, snap, applied) == CutAndContinued(m, prev + 1, entries[1..], snap, applied)
  {
    var n := Held(m.log, prev + 1, entries[1..]);
    assert Held(m.log, prev, entries) == n + 1 && entries[n + 1..] == entries[1..][n..];
    hide Held;
  }

  /** The loop computes that. */
  lemma {:induction false} AbsorbCuts(m: Merged, prev: nat, entries: Log, snap: nat, applied: nat)
    requires snap <= prev <= |m.log| <= snap + MAX_LOG && Consecutive(entries, prev)
    ensures Absorb(m, entries, snap, applied) == CutAndContinued(m, prev, entries, snap, applied)
    decreases |entries|
  {
    hide CutAndContinued, Held, Absorb, Conflicts;
    if prev == |m.log| || entries == [] {
      if prev == |m.log| { AppendHere(m, entries, snap, applied); } else { NothingSent(m, prev, snap, applied); }
    } else if Conflicts(m.log[prev], entries[0]) {
      CutHere(m, prev, entries, snap, applied);
    } else {
      HeldMore(m, prev, entries, snap, applied);
      AbsorbCuts(m, prev + 1, entries[1..], snap, applied);
    }
  }

  lemma NothingSent(m: Merged, prev: nat, snap: nat, applied: nat)
    requires prev <= |m.log|
    ensures Absorb(m, [], snap, applied) == m == CutAndContinued(m, prev, [], snap, applied)
  {
  }

  /** The log contradicts none of the entries that fall within it. */
  predicate Agrees(log: Log, prev: nat, entries: Log) {
    forall k :: 0 <= k < |entries| && prev + k < |log| ==> !Conflicts(log[prev + k], entries[k])
  }

  lemma {:induction false} HeldAll(log: Log, prev: nat, entries: Log)
    requires prev <= |log| && Agrees(log, prev, entries)
    ensures Held(log, prev, entries) == Min(|entries|, |log| - prev)
    decreases |entries|
  {
    if entries != [] && prev < |log| {
      assert !Conflicts(log[prev + 0], entries[0]);
      assert forall k :: 0 <= k < |entries[1..]| ==> entries[1..][k] == entries[k + 1];
      HeldAll(log, prev + 1, entries[1..]);
    }
  }

  /** The commit index and log a handled message leaves. */
  datatype Outcome = Outcome(log: Log, commit: nat, rebuild: bool)

  function Handle(log: Log, commit: nat, m: Message, snap: nat, applied: nat): Outcome
    requires m.AppendEntries?
  {
    if !Accepts(log, snap, m) then Outcome(log, commit, false)
    else
      var r := Absorb(Merged(log, false, false), m.entries, snap, applied);
      Outcome(r.log, NextCommit(commit, m.leaderCommit, |r.log|, r.rebuild), r.rebuild)
  }

  /** What an accepted message leaves committed: as long as no applied entry is overwritten the commit
      index rises to the leader's, as far as the log goes; otherwise it is the leader's. */
  lemma HandledCommit(log: Log, commit: nat, m: Message, snap: nat, applied: nat)
    requires m.AppendEntries? && Accepts(log, snap, m) && Consecutive(m.entries, m.prevIndex) && applied <= |log| <= snap + MAX_LOG
    ensures var r := Handle(log, commit, m, snap, applied);
            && (r.rebuild <==> !(log[..applied] <= r.log))
            && r.commit == Min(if log[..applied] <= r.log then Max(commit, m.leaderCommit) else m.leaderCommit, |r.log|)
  {
    AbsorbCuts(Merged(log, false, false), m.prevIndex, m.entries, snap, applied);
    CutRebuilds(Merged(log, false, false), m.prevIndex, m.entries, snap, applied);
    hide Absorb, CutAndContinued, Held;
  }

  lemma CutRebuilds(m: Merged, prev: nat, entries: Log, snap: nat, applied: nat)
    requires snap <= prev <= |m.log| <= snap + MAX_LOG && applied <= |m.log| && !m.rebuild
    ensures var r := CutAndContinued(m, prev, entries, snap, applied); r.rebuild <==> !(m.log[..applied] <= r.log)
  {
    var n := Held(m.log, prev, entries);
    var r, at := CutAndContinued(m, prev, entries, snap, applied), prev + n;
    if n < |entries| && at < applied {
      assert (m.log[..at] + entries[n..])[at] == entries[n] && r.log[at] == entries[n] && m.log[..applied][at] == m.log[at];
    } else if n < |entries| {
      assert forall k :: 0 <= k < applied ==> (m.log[..at] + entries[n..])[k] == m.log[k];
    }
    hide Held;
  }

  /** The log has room for no entry of the message it does not already hold. */
  predicate NothingToAdd(log: Log, m: Message, snap: nat)
    requires m.AppendEntries?
  {
    Agrees(log, m.prevIndex, m.entries) && (m.prevIndex + |m.entries| <= |log| || |log| == snap + MAX_LOG)
  }

  /** A message that adds nothing and whose commit index says nothing new. */
  lemma HandleKnown(log: Log, commit: nat, m: Message, snap: nat, applied: nat)
    requires m.AppendEntries? && snap <= m.prevIndex && Consecutive(m.entries, m.prevIndex)
    requires commit <= |log| <= snap + MAX_LOG && NothingToAdd(log, m, snap) && Min(m.leaderCommit, |log|) <= commit
    ensures Handle(log, commit, m, snap, applied) == Outcome(log, commit, false)
  {
    if Accepts(log, snap, m) {
      HeldAll(log, m.prevIndex, m.entries);
      AbsorbCuts(Merged(log, false, false), m.prevIndex, m.entries, snap, applied);
      var n := Held(log, m.prevIndex, m.entries);
      if n < |m.entries| {
        assert log[..m.prevIndex + n] == log;
        assert Capped(log + m.entries[n..], snap) == log;
      }
    }
  }

  /** An accepted message has nothing more to add to the log it leaves. */
  lemma Accepted(log: Log, commit: nat, m: Message, snap: nat, applied: nat)
    requires m.AppendEntries? && Consecutive(m.entries, m.prevIndex) && Accepts(log, snap, m)
    requires commit <= |log| <= snap + MAX_LOG
    ensures var r := Handle(log, commit, m, snap, applied);
            && r.commit <= |r.log| <= snap + MAX_LOG && Min(m.leaderCommit, |r.log|) <= r.commit
            && m.prevIndex <= |r.log| && r.log[..m.prevIndex] == log[..m.prevIndex]
            && NothingToAdd(r.log, m, snap)
  {
    AbsorbCuts(Merged(log, false, false), m.prevIndex, m.entries, snap, applied);
    CutAdds(Merged(log, false, false), m.prevIndex, m.entries, snap, applied);
    hide Absorb, CutAndContinued, Held, Agrees;
  }

  lemma CutAdds(m: Merged, prev: nat, entries: Log, snap: nat, applied: nat)
    requires snap <= prev <= |m.log| <= snap + MAX_LOG
    ensures var r := CutAndContinued(m, prev, entries, snap, applied);
            && prev <= |r.log| <= snap + MAX_LOG && r.log[..prev] == m.log[..prev] && Agrees(r.log, prev, entries)
            && (prev + |entries| <= |r.log| || |r.log| == snap + MAX_LOG)
  {
    var n := Held(m.log, prev, entries);
    var all := m.log[..prev + n] + entries[n..];
    var r := CutAndContinued(m, prev, entries, snap, applied);
    if n < |entries| {
      forall k | 0 <= k < |entries| && prev + k < |r.log| ensures !Conflicts(r.log[prev + k], entries[k]) {
        assert r.log[prev + k] == all[prev + k];
        if n <= k { assert all[prev + k] == entries[k]; }
      }
    }
    hide Held;
  }

  /** Handling a message twice is handling it once, with whatever has been applied in between. */
  lemma HandleTwice(log: Log, commit: nat, m: Message, snap: nat, applied: nat, applied': nat)
    requires m.AppendEntries? && Consecutive(m.entries, m.prevIndex) && commit <= |log| <= snap + MAX_LOG
    ensures var once := Handle(log, commit, m, snap, applied);
            Handle(once.log, once.commit, m, snap, applied') == Outcome(once.log, once.commit, false)
  {
    if Accepts(log, snap, m) {
      Accepted(log, commit, m, snap, applied);
      var once := Handle(log, commit, m, snap, applied);
      hide Handle;
      HandleKnown(once.log, once.commit, m, snap, applied');
    }
  }

  /** A message cut from a leader's log. */
  predicate CutFrom(m: Message, sender: Log) {
    && m.AppendEntries? && m.prevIndex + |m.entries| <= |sender| && Indexed(sender)
    && m.entries == sender[m.prevIndex..m.prevIndex + |m.entries|]
  }

  /** An older message of the same leader and term handled after a newer one changes neither log nor
      commit index: its entries end where the newer one's end or before, and its commit index is no
      later. The log before need only agree with the leader's up to where the newer message starts. */
  lemma OlderChangesNothing(log: Log, commit: nat, older: Message, newer: Message, sender: Log, snap: nat, applied: nat, applied': nat)
    requires CutFrom(older, sender) && CutFrom(newer, sender) && Accepts(log, snap, newer) && snap <= older.prevIndex
    requires commit <= |log| <= snap + MAX_LOG && log[..newer.prevIndex] == sender[..newer.prevIndex]
    requires older.prevIndex + |older.entries| <= newer.prevIndex + |newer.entries| && older.leaderCommit <= newer.leaderCommit
    ensures var r := Handle(log, commit, newer, snap, applied);
            Handle(r.log, r.commit, older, snap, applied') == Outcome(r.log, r.commit, false)
  {
    assert Consecutive(newer.entries, newer.prevIndex) && Consecutive(older.entries, older.prevIndex);
    Accepted(log, commit, newer, snap, applied);
    var r := Handle(log, commit, newer, snap, applied);
    hide Handle, Accepts;
    forall k | 0 <= k < |older.entries| && older.prevIndex + k < |r.log| ensures !Conflicts(r.log[older.prevIndex + k], older.entries[k]) {
      OlderKnown(r.log, older, newer, sender, k);
    }
    HandleKnown(r.log, r.commit, older, snap, applied');
  }

  lemma OlderKnown(log: Log, older: Message, newer: Message, sender: Log, k: nat)
    requires CutFrom(older, sender) && CutFrom(newer, sender) && k < |older.entries| && older.prevIndex + k < |log|
    requires older.prevIndex + |older.entries| <= newer.prevIndex + |newer.entries| && newer.prevIndex <= |log|
    requires log[..newer.prevIndex] == sender[..newer.prevIndex] && Agrees(log, newer.prevIndex, newer.entries)
    ensures !Conflicts(log[older.prevIndex + k], older.entries[k])
  {
    var i := older.prevIndex + k;
    assert older.entries[k] == sender[i];
    if i < newer.prevIndex {
      assert log[i] == log[..newer.prevIndex][i] == sender[..newer.prevIndex][i];
    } else {
      assert newer.entries[i - newer.prevIndex] == sender[i];
    }
  }

  // ---- Compaction refines the full log ----

  lemma {:induction false} AbsorbSame(m: Merged, prev: nat, entries: Log, snap: nat, applied: nat)
    requires snap <= prev <= |m.log| && Consecutive(entries, prev)
    requires |m.log| <= MAX_LOG && prev + |entries| <= MAX_LOG
    ensures Absorb(m, entries, snap, applied) == Absorb(m, entries, 0, applied) == Merge(m, entries, applied)
    decreases |entries|
  {
    if entries != [] {
      var e, rest := entries[0], entries[1..];
      var m1 := AbsorbOne(m, e, snap, applied);
      assert m1 == AbsorbOne(m, e, 0, applied) == MergeOne(m, e, applied);
      assert forall k :: 0 <= k < |rest| ==> rest[k] == entries[k + 1];
      AbsorbSame(m1, prev + 1, rest, snap, applied);
    }
  }

  /** A compacted node and one that never compacted, with the same logical log, accept and reject the
      same messages and end with the same logical log and commit index, when the message starts at or
      above the snapshot, the logs have room, and at the boundary itself the creators agree. */
  lemma CompactionRefines(log: Log, commit: nat, m: Message, snap: nat, applied: nat)
    requires m.AppendEntries? && snap <= m.prevIndex && Consecutive(m.entries, m.prevIndex)
    requires |log| <= MAX_LOG && m.prevIndex + |m.entries| <= MAX_LOG
    requires m.prevIndex == snap > 0 && snap <= |log| && m.prevCreator != "" ==> log[snap - 1].creator == m.prevCreator
    ensures Accepts(log, snap, m) == Accepts(log, 0, m)
    ensures Handle(log, commit, m, snap, applied) == Handle(log, commit, m, 0, applied)
  {
    if Accepts(log, 0, m) {
      AbsorbSame(Merged(log, false, false), m.prevIndex, m.entries, snap, applied);
    }
  }

  /** The creator condition is exact: at the boundary the compacted node accepts what the full one
      rejects just when terms agree and a named creator differs. */
  lemma BoundaryAcceptsMore(log: Log, m: Message, snap: nat)
    requires m.AppendEntries? && 0 < snap == m.prevIndex <= |log|
    ensures (Accepts(log, snap, m) && !Accepts(log, 0, m)) <==>
              (log[snap - 1].term == m.prevTerm && m.prevCreator != "" && log[snap - 1].creator != m.prevCreator)
    ensures Accepts(log, 0, m) ==> Accepts(log, snap, m)
  {
  }
}
