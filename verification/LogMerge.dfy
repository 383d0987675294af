/** The loop by which a follower merges the entries of an accepted AppendEntries into its log. */
module LogMerge {
  import opened RaftTypes

  /** The merged log so far, whether applied entries were overwritten, and whether anything changed. */
  datatype Merged = Merged(log: Log, rebuild: bool, changed: bool)

  /** An entry conflicts with the local one at its index if the terms differ, or if it names another creator. */
  predicate Conflicts(mine: Entry, theirs: Entry) {
    mine.term != theirs.term || (theirs.creator != "" && mine.creator != theirs.creator)
  }

  /** One iteration: truncate at a conflict, append at the end, skip anything else. */
  function MergeOne(m: Merged, e: Entry, applied: nat): Merged {
    if e.index == 0 then m
    else if e.index <= |m.log| then
      if Conflicts(m.log[e.index - 1], e) then
        Merged(m.log[..e.index - 1] + [e], m.rebuild || e.index <= applied, true)
      else m
    else if e.index == |m.log| + 1 then m.(log := m.log + [e], changed := true)
    else m
  }

  /** An entry at an index the log has changes nothing if it is of the same term and, should it name its
      creator, of the same creator; otherwise it replaces the log from there. The next entry extends the
      log, and one beyond is passed over. */
  lemma EntryMerged(m: Merged, e: Entry, applied: nat)
    requires e.index > 0
    ensures var i := e.index - 1;
            MergeOne(m, e, applied).log ==
              if i < |m.log| && m.log[i].term == e.term && (e.creator == "" || m.log[i].creator == e.creator) then m.log
              else if i <= |m.log| then m.log[..i] + [e]
              else m.log
  {
  }

  function Merge(m: Merged, entries: Log, applied: nat): Merged
    decreases |entries|
  {
    if entries == [] then m else Merge(MergeOne(m, entries[0], applied), entries[1..], applied)
  }

  /** The commit index after an accepted message. */
  function NextCommit(commit: nat, leaderCommit: nat, last: nat, rebuild: bool): nat {
    if rebuild then Min(leaderCommit, last)
    else if leaderCommit > commit then Min(leaderCommit, last)
    else Min(commit, last)
  }

  predicate Indexed(log: Log) {
    forall k :: 0 <= k < |log| ==> log[k].index == k + 1
  }

  /** Wherever the two logs hold the same term at one position, they agree up to it. */
  predicate Matching(a: Log, b: Log) {
    forall k :: 0 <= k < |a| && k < |b| && a[k].term == b[k].term ==> a[..k + 1] == b[..k + 1]
  }

  /** What an accepted message makes of the log when it carries sender[lo..hi]: either nothing
      because the log already holds it all, or exactly the sender's first hi entries. In the second
      case nothing that agreed with the sender is lost, and applied entries are rebuilt only if some
      applied entry differed from the sender's. */
  lemma {:induction false} MergeShape(m: Merged, sender: Log, lo: nat, hi: nat, applied: nat)
    requires lo <= hi <= |sender| && Indexed(sender)
    requires lo <= |m.log| && m.log[..lo] == sender[..lo]
    requires Matching(m.log, sender)
    ensures var r := Merge(m, sender[lo..hi], applied);
            && ((r == m && sender[..hi] <= m.log)
                || (r.log == sender[..hi]
                    && (forall q :: 0 <= q <= |m.log| && q <= |sender| && m.log[..q] == sender[..q] ==> q <= hi)))
            && (applied <= |m.log| && m.log[..applied] <= sender ==> r.rebuild == m.rebuild)
    decreases hi - lo
  {
    if lo < hi {
      var e := sender[lo];
      var m1 := MergeOne(m, e, applied);
      assert sender[lo..hi][0] == e && sender[lo..hi][1..] == sender[lo + 1..hi];
      if lo < |m.log| && !Conflicts(m.log[lo], e) {
        assert m.log[..lo + 1] == sender[..lo + 1];
        MergeShape(m, sender, lo + 1, hi, applied);
      } else {
        MergeCut(m, sender, lo, applied);
        MergeExtends(m1, sender, lo + 1, hi, applied);
        hide Conflicts, Merge, MergeOne;
      }
    }
  }

  /** The first entry the log lacks or contradicts cuts it there. */
  lemma MergeCut(m: Merged, sender: Log, lo: nat, applied: nat)
    requires lo < |sender| && Indexed(sender) && lo <= |m.log| && m.log[..lo] == sender[..lo]
    requires lo == |m.log| || Conflicts(m.log[lo], sender[lo])
    ensures var m1 := MergeOne(m, sender[lo], applied);
            && m1.log == sender[..lo + 1]
            && (forall q :: 0 <= q <= |m.log| && q <= |sender| && m.log[..q] == sender[..q] ==> q <= lo)
            && (applied <= |m.log| && m.log[..applied] <= sender ==> m1.rebuild == m.rebuild)
  {
    assert sender[..lo + 1] == sender[..lo] + [sender[lo]];
    assert forall q :: lo < q <= |m.log| && q <= |sender| ==> m.log[..q][lo] != sender[..q][lo];
    if applied <= |m.log| && m.log[..applied] <= sender {
      assert m.log[..applied] == sender[..applied];
    }
  }

  /** Once the log is a proper prefix of the sender's, the rest is plain appending. */
  lemma {:induction false} MergeExtends(m: Merged, sender: Log, lo: nat, hi: nat, applied: nat)
    requires lo <= hi <= |sender| && Indexed(sender) && m.log == sender[..lo]
    ensures Merge(m, sender[lo..hi], applied) == Merged(sender[..hi], m.rebuild, m.changed || lo < hi)
    decreases hi - lo
  {
    if lo < hi {
      var m1 := m.(log := m.log + [sender[lo]], changed := true);
      assert sender[lo..hi][0] == sender[lo] && sender[lo..hi][1..] == sender[lo + 1..hi];
      assert m1.log == sender[..lo + 1];
      MergeExtends(m1, sender, lo + 1, hi, applied);
    }
  }
}
