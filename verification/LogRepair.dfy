/** A new leader brings a follower's log in line with its own by backing off one index per rejection. */
module LogRepair {
  import opened RaftTypes
  import opened LogMerge
  import opened NodeSpec

  /** The leader knows the follower, is not behind it in term, and their logs match. */
  predicate Repairable(l: Node, f: Node) {
    && l.role == Leader && f.id in l.nextIndex && 1 <= l.nextIndex[f.id] <= |l.log| + 1 && f.term <= l.term
    && Indexed(l.log) && Matching(f.log, l.log)
  }

  function Sent(l: Node, f: Node): Message
    requires Repairable(l, f)
  {
    AppendMessage(l, f.id, l.nextIndex[f.id])
  }

  /** The follower's part of one exchange, and its answer. */
  function Hearing(l: Node, f: Node): (f': Node)
    requires Repairable(l, f)
    ensures f'.outbox != [] && f'.outbox[|f'.outbox| - 1].AppendReply?
  {
    HandleAppendEntries(f, Sent(l, f))
  }

  function Reply(l: Node, f: Node): (m: Message)
    requires Repairable(l, f)
    ensures m.AppendReply?
  {
    var f1 := Hearing(l, f);
    f1.outbox[|f1.outbox| - 1]
  }

  /** The number of entries on which two logs agree from the start. */
  function Common(a: Log, b: Log): (n: nat)
    ensures n <= |a| && n <= |b| && a[..n] == b[..n]
    ensures n < |a| && n < |b| ==> a[n] != b[n]
    decreases |a|
  {
    if a == [] || b == [] || a[0] != b[0] then 0
    else
      var n := Common(a[1..], b[1..]);
      assert a[..n + 1] == [a[0]] + a[1..][..n] && b[..n + 1] == [b[0]] + b[1..][..n];
      n + 1
  }

  lemma CommonIs(a: Log, b: Log, k: nat)
    requires k <= |a| && k <= |b|
    ensures a[..k] == b[..k] <==> k <= Common(a, b)
  {
    var n := Common(a, b);
    if k <= n {
      assert a[..k] == a[..n][..k] && b[..k] == b[..n][..k];
    } else {
      assert a[..k][n] != b[..k][n];
    }
  }

  /** Acceptance is agreement up to the entry before the ones sent. */
  lemma AcceptsIff(l: Node, f: Node)
    requires Repairable(l, f)
    ensures AcceptsPrevious(f, Sent(l, f)) <==> l.nextIndex[f.id] - 1 <= Common(f.log, l.log)
  {
    var k := l.nextIndex[f.id] - 1;
    if k <= |f.log| {
      CommonIs(f.log, l.log, k);
      if 0 < k {
        if f.log[k - 1].term == l.log[k - 1].term {
          assert f.log[..k - 1 + 1] == l.log[..k - 1 + 1];
          assert f.log[..k][k - 1] == l.log[..k][k - 1];
        } else {
          assert f.log[..k][k - 1] != l.log[..k][k - 1];
        }
      }
    }
  }

  lemma {:induction false} MergeSkips(m: Merged, sender: Log, lo: nat, applied: nat)
    requires lo <= |sender| && Indexed(sender) && sender <= m.log
    ensures Merge(m, sender[lo..], applied) == m
    decreases |sender| - lo
  {
    if lo < |sender| {
      assert sender[lo..][0] == sender[lo] == m.log[lo] && sender[lo..][1..] == sender[lo + 1..];
      MergeSkips(m, sender, lo + 1, applied);
    }
  }

  /** What acceptance makes of the log: the leader's, unless the follower's was a longer copy of it. */
  lemma AcceptedLog(l: Node, f: Node, f1: Node)
    requires Repairable(l, f) && f1.log == f.log && AcceptsPrevious(f1, Sent(l, f))
    requires l.nextIndex[f.id] - 1 <= Common(f.log, l.log)
    ensures AppendFromLeader(f1, Sent(l, f)).log == if l.log <= f.log then f.log else l.log
  {
    hide Merge, NextCommit, Common, AcceptsPrevious;
    var lo := l.nextIndex[f.id] - 1;
    CommonIs(f.log, l.log, lo);
    assert l.log[lo..|l.log|] == l.log[lo..] && l.log[..|l.log|] == l.log;
    if l.log <= f.log {
      MergeSkips(Merged(f.log, false, false), l.log, lo, f1.applied);
    } else {
      MergeShape(Merged(f.log, false, false), l.log, lo, |l.log|, f1.applied);
    }
  }

  /** One exchange, from both ends. */
  lemma OneExchange(l: Node, f: Node)
    requires Repairable(l, f)
    ensures var f1, m := Hearing(l, f), Reply(l, f);
            && f1.id == f.id && f1.term == l.term && m.term == l.term && m.source == f.id
            && (m.success <==> l.nextIndex[f.id] - 1 <= Common(f.log, l.log))
            && f1.log == (if !m.success || l.log <= f.log then f.log else l.log)
            && (m.success ==> m.matchIndex == |f1.log|)
  {
    hide *;
    ToAnswer(l, f);
    Answer(AdoptTerm(f, l.term), Sent(l, f));
    Handled(l, f);
  }

  lemma Handled(l: Node, f: Node)
    requires Repairable(l, f)
    ensures var w := Hearing(l, f);
            w == AnswerAppend(AdoptTerm(f, l.term), Sent(l, f)) && w.outbox != [] && Reply(l, f) == w.outbox[|w.outbox| - 1]
  {
    hide AnswerAppend;
  }

  /** The follower after adopting the term, and what it would make of the message. */
  lemma ToAnswer(l: Node, f: Node)
    requires Repairable(l, f)
    ensures var f1, m := AdoptTerm(f, l.term), Sent(l, f);
            var f0 := f1.(leader := Some(m.source));
            && f1.id == f.id && f1.term == l.term && f1.log == f.log && m.AppendEntries? && m.term == l.term && m.source == l.id
            && (AcceptsPrevious(f0, m) <==> l.nextIndex[f.id] - 1 <= Common(f.log, l.log))
            && (AcceptsPrevious(f0, m) ==> AppendFromLeader(f0, m).log == if l.log <= f.log then f.log else l.log)
  {
    AcceptsIff(l, f);
    var f0 := AdoptTerm(f, l.term).(leader := Some(l.id));
    assert AcceptsPrevious(f0, Sent(l, f)) == AcceptsPrevious(f, Sent(l, f));
    hide AppendFromLeader, AcceptsPrevious, Common, Matching, Indexed;
    if AcceptsPrevious(f, Sent(l, f)) { AcceptedLog(l, f, f0); }
  }

  lemma Answer(f: Node, m: Message)
    requires m.AppendEntries? && m.term == f.term
    ensures var w, f0 := AnswerAppend(f, m), f.(leader := Some(m.source));
            && w.id == f.id && w.term == f.term && w.outbox != []
            && w.outbox[|w.outbox| - 1] == AppendReply(f.term, f.id, m.source, AcceptsPrevious(f0, m), |w.log|)
            && w.log == if AcceptsPrevious(f0, m) then AppendFromLeader(f0, m).log else f.log
  {
    hide Merge, AcceptsPrevious;
  }

  lemma BackedOff(l: Node, f: Node)
    requires Repairable(l, f) && !Reply(l, f).success
    ensures var l1 := HandleAppendReply(l, Reply(l, f));
            && 1 < l.nextIndex[f.id] && f.id in l1.nextIndex && l1.nextIndex[f.id] == l.nextIndex[f.id] - 1
            && Repairable(l1, Hearing(l, f)) && l1.log == l.log
  {
    OneExchange(l, f);
    hide Hearing, Reply, Sent, AppendMessage, Matching, Indexed;
  }

  /** The exchanges up to the first success: leader and follower after it, and the rejections before. */
  function Repair(l: Node, f: Node): (Node, Node, nat)
    requires Repairable(l, f)
    decreases l.nextIndex[f.id]
  {
    var l1, f1 := HandleAppendReply(l, Reply(l, f)), Hearing(l, f);
    if Reply(l, f).success then (l1, f1, 0)
    else
      BackedOff(l, f);
      OneExchange(l, f);
      var (l2, f2, r) := Repair(l1, f1);
      (l2, f2, r + 1)
  }

  /** The repair takes one rejection for each index at which the logs already differ, so at most the
      next index less one. It ends with the follower's log equal to the leader's, unless that log is a
      proper extension of the leader's; and with the leader knowing the follower's length. */
  lemma {:induction false} RepairConverges(l: Node, f: Node)
    requires Repairable(l, f)
    ensures var (l', f', r) := Repair(l, f);
            && r == (if l.nextIndex[f.id] - 1 <= Common(f.log, l.log) then 0 else l.nextIndex[f.id] - 1 - Common(f.log, l.log))
            && r <= l.nextIndex[f.id] - 1
            && (f'.log == l.log <==> !(l.log < f.log))
            && (l.log < f.log ==> f'.log == f.log)
            && (|f.log| <= |l.log| ==> f'.log == l.log)
            && l'.log == l.log && f.id in l'.matchIndex && l'.matchIndex[f.id] == |f'.log|
            && f.id in l'.nextIndex && l'.nextIndex[f.id] == |f'.log| + 1
    decreases l.nextIndex[f.id]
  {
    OneExchange(l, f);
    hide Hearing, Reply, Sent, AppendMessage, Matching, Indexed, Common, AdvanceCommit;
    if Reply(l, f).success {
      Acknowledged(l, Reply(l, f));
    } else {
      BackedOff(l, f);
      RepairConverges(HandleAppendReply(l, Reply(l, f)), Hearing(l, f));
    }
  }

  lemma Acknowledged(l: Node, m: Message)
    requires l.role == Leader && m.AppendReply? && m.success && m.term == l.term
    ensures var l' := HandleAppendReply(l, m);
            && l'.log == l.log && m.source in l'.matchIndex && l'.matchIndex[m.source] == m.matchIndex
            && m.source in l'.nextIndex && l'.nextIndex[m.source] == m.matchIndex + 1
  {
  }
}
