/** Replication by the Python node, message by message: what a leader sends, what an acknowledgement
    commits, what a refusal changes, and what an accepted message leaves committed and applied. */
module Replication {
  import opened RaftTypes
  import opened Quorum
  import opened LogMerge
  import opened NodeSpec
  import opened TransitionTables
  import LogRepair
  import ClusterSafety

  // ---- Inputs ----

  /** The entries a leader makes of some commands. */
  function Entries(commands: seq<Command>, from: nat, term: nat, creator: NodeId): Log {
    if commands == [] then []
    else [Entry(from + 1, term, commands[0], creator)] + Entries(commands[1..], from + 1, term, creator)
  }

  lemma AppendedOne(n: Node, c: Command)
    ensures var n' := AppendLocal(n, c);
            n'.log == n.log + [Entry(|n.log| + 1, n.term, c, n.id)] && n'.term == n.term && n'.id == n.id && n'.role == n.role
  {
    hide CommitScan, AppendMessages;
  }

  lemma {:induction false} AllAppended(n: Node, commands: seq<Command>)
    ensures AppendAll(n, commands).log == n.log + Entries(commands, |n.log|, n.term, n.id)
    decreases |commands|
  {
    hide AppendLocal;
    if commands == [] {
      assert n.log + [] == n.log;
    } else {
      var n1 := AppendLocal(n, commands[0]);
      AppendedOne(n, commands[0]);
      AllAppended(n1, commands[1..]);
      assert n.log + [n1.log[|n.log|]] + Entries(commands[1..], |n1.log|, n.term, n.id)
          == n.log + ([n1.log[|n.log|]] + Entries(commands[1..], |n1.log|, n.term, n.id));
    }
  }

  datatype Queue = Appends | VoteRequests | VoteReplies

  predicate Waits(m: Message, q: Queue) {
    match q
    case Appends => m.AppendEntries?
    case VoteRequests => m.RequestVote?
    case VoteReplies => m.VoteReply?
  }

  /** The messages that wait for a transition, in order of arrival. */
  function Waiting(inbox: seq<Message>, q: Queue): seq<Message> {
    if inbox == [] then [] else (if Waits(inbox[0], q) then [inbox[0]] else []) + Waiting(inbox[1..], q)
  }

  lemma ReceivedOne(n: Node, m: Message)
    ensures var n' := Receive(n, m);
            && n'.appends == n.appends + (if Waits(m, Appends) then [m] else [])
            && n'.voteRequests == n.voteRequests + (if Waits(m, VoteRequests) then [m] else [])
            && n'.voteReplies == n.voteReplies + (if Waits(m, VoteReplies) then [m] else [])
  {
    if m.AppendReply? { ClusterSafety.AppendReplyQueues(n, m); }
    hide HandleAppendReply;
  }

  lemma {:induction false} Queued(n: Node, inbox: seq<Message>)
    ensures var n' := ReceiveAll(n, inbox);
            && n'.appends == n.appends + Waiting(inbox, Appends)
            && n'.voteRequests == n.voteRequests + Waiting(inbox, VoteRequests)
            && n'.voteReplies == n.voteReplies + Waiting(inbox, VoteReplies)
    decreases |inbox|
  {
    hide Receive, Waits;
    if inbox != [] {
      ReceivedOne(n, inbox[0]);
      Queued(Receive(n, inbox[0]), inbox[1..]);
    }
  }

  /** What latching does: replies are handled, other messages wait in order, and a leader appends the
      commands in order; nobody else does. */
  lemma Latches(n: Node, inbox: seq<Message>, commands: seq<Command>)
    ensures var n1, n' := ReceiveAll(n, inbox), Latch(n, inbox, commands);
            && n1.appends == n.appends + Waiting(inbox, Appends)
            && n1.voteRequests == n.voteRequests + Waiting(inbox, VoteRequests)
            && n1.voteReplies == n.voteReplies + Waiting(inbox, VoteReplies)
            && (n1.role == Leader ==> n'.log == n1.log + Entries(commands, |n1.log|, n1.term, n1.id))
            && (n1.role != Leader ==> n' == n1)
  {
    Queued(n, inbox);
    AllAppended(ReceiveAll(n, inbox), commands);
    hide ReceiveAll, AppendAll, Waiting;
  }

  // ---- Sending ----

  /** What a leader owes a peer: everything from its next index on, with the entry before it and the
      commit index. */
  function Due(n: Node, peer: NodeId): Message
    requires peer in n.nextIndex && 1 <= n.nextIndex[peer] <= |n.log| + 1
  {
    var prev := n.nextIndex[peer] - 1;
    AppendEntries(n.term, n.id, peer, prev, if prev == 0 then 0 else n.log[prev - 1].term,
                  if prev == 0 then "" else n.log[prev - 1].creator, n.log[prev..], n.commit)
  }

  lemma DueIs(n: Node, peer: NodeId)
    requires peer in n.nextIndex && 1 <= n.nextIndex[peer] <= |n.log| + 1
    ensures SendIndex(n, peer) == n.nextIndex[peer] && AppendMessage(n, peer, SendIndex(n, peer)) == Due(n, peer)
  {
  }

  lemma {:induction false} EachSent(n: Node, peers: seq<NodeId>)
    requires forall p :: p in peers ==> p in n.nextIndex && 1 <= n.nextIndex[p] <= |n.log| + 1
    ensures |AppendMessages(n, peers)| == |peers|
    ensures forall k :: 0 <= k < |peers| ==> AppendMessages(n, peers)[k] == Due(n, peers[k])
  {
    hide AppendMessage, Due, SendIndex;
    if peers != [] {
      assert peers[0] in peers && forall p :: p in peers[1..] ==> p in peers;
      DueIs(n, peers[0]);
      EachSent(n, peers[1..]);
    }
  }

  /** A leader with empty queues whose heartbeat is due sends each peer what it owes it, once, in order,
      and changes nothing else. */
  lemma HeartbeatSends(n: Node, clock: Clock)
    requires Sorted(n) && n.role == Leader && n.appends == [] && n.voteRequests == [] && n.voteReplies == [] && clock.heartbeatDue
    requires forall p :: p in n.peers ==> p in n.nextIndex && 1 <= n.nextIndex[p] <= |n.log| + 1
    ensures var n' := RoleStep(n, clock);
            && n' == n.(outbox := n'.outbox) && |n'.outbox| == |n.outbox| + |n.peers| && n.outbox <= n'.outbox
            && forall k :: 0 <= k < |n.peers| ==> n'.outbox[|n.outbox| + k] == Due(n, n.peers[k])
  {
    EachSent(n, n.peers);
    hide AppendMessages, Due, TakeAppend, TakeVoteRequest;
  }

  // ---- Replies ----

  /** The members a leader knows to hold an index of its log. */
  function Holding(n: Node, index: nat): set<NodeId> {
    (set m | m in n.matchIndex && m != n.id && n.matchIndex[m] >= index) + (if |n.log| >= index then {n.id} else {})
  }

  /** An index of the current term that a majority holds. */
  predicate Committable(n: Node, index: nat) {
    1 <= index <= |n.log| && n.log[index - 1].term == n.term && MajorityOf(Holding(n, index), n.config)
  }

  lemma ScanIs(n: Node)
    ensures var c := CommitScan(n, |n.log|);
            && (c == n.commit || (c > n.commit && Committable(n, c)))
            && forall j: nat :: Committable(n, j) && j > n.commit ==> j <= c
  {
    var c := CommitScan(n, |n.log|);
    if c != n.commit { MajorityIs(HeldBy(n, c), n.config); }
    forall j: nat | Committable(n, j) && j > n.commit ensures j <= c {
      if j > c {
        CommitScanHighest(n, |n.log|, j);
        MajorityIs(HeldBy(n, j), n.config);
      }
    }
    hide CommitScan, ConfigQuorum, MajorityOf;
  }

  /** A success reply of the leader's term is recorded for its sender alone, and the commit index becomes
      the highest index of the term that a majority is then known to hold, if that is higher. */
  lemma AckCommits(n: Node, m: Message)
    requires n.role == Leader && m.AppendReply? && m.term == n.term && m.success
    ensures var n' := HandleAppendReply(n, m);
            && n'.matchIndex == n.matchIndex[m.source := m.matchIndex] && n'.nextIndex == n.nextIndex[m.source := m.matchIndex + 1]
            && n'.log == n.log && n'.role == Leader && n'.term == n.term && n'.config == n.config && n'.outbox == n.outbox
            && (n'.commit == n.commit || (n'.commit > n.commit && Committable(n', n'.commit)))
            && forall j: nat :: Committable(n', j) && j > n.commit ==> j <= n'.commit
  {
    var n1 := n.(matchIndex := n.matchIndex[m.source := m.matchIndex], nextIndex := n.nextIndex[m.source := m.matchIndex + 1]);
    ScanIs(n1);
    hide CommitScan;
    CommittableAlike(n1, HandleAppendReply(n, m));
  }

  lemma CommittableAlike(n: Node, n': Node)
    requires n'.matchIndex == n.matchIndex && n'.log == n.log && n'.id == n.id && n'.term == n.term && n'.config == n.config
    ensures forall j: nat :: Committable(n', j) <==> Committable(n, j)
  {
    forall j: nat ensures Committable(n', j) <==> Committable(n, j) {
      assert Holding(n', j) == Holding(n, j);
    }
    hide MajorityOf, Holding;
  }

  /** A reply of another term, or to a node that is no leader, is not recorded. */
  lemma OthersUnrecorded(n: Node, m: Message)
    requires m.AppendReply? && m.term <= n.term && (n.role != Leader || m.term < n.term)
    ensures HandleAppendReply(n, m) == n
  {
    hide AdvanceCommit, SendTo;
  }

  /** A refusal of the leader's term moves its sender's next index back by one, but not below one, and
      resends what is then owed. */
  lemma RefusalResends(n: Node, m: Message)
    requires n.role == Leader && m.AppendReply? && m.term == n.term && !m.success
    requires m.source in n.nextIndex && 1 <= n.nextIndex[m.source] <= |n.log| + 1
    ensures var next := if n.nextIndex[m.source] == 1 then 1 else n.nextIndex[m.source] - 1;
            var n1 := n.(nextIndex := n.nextIndex[m.source := next]);
            HandleAppendReply(n, m) == n1.(outbox := n.outbox + [Due(n1, m.source)])
  {
    var n1 := n.(nextIndex := n.nextIndex[m.source := BackOff(n.nextIndex[m.source])]);
    DueIs(n1, m.source);
    hide AdvanceCommit, AppendMessage, Due;
  }

  // ---- Acceptance ----

  predicate Following(entries: Log, prev: nat) {
    forall k :: 0 <= k < |entries| ==> entries[k].index == prev + 1 + k
  }

  /** Entries beyond an index leave what is below it alone. */
  lemma {:induction false} MergeKeepsBelow(m: Merged, entries: Log, applied: nat, k: nat)
    requires k <= |m.log| && forall j :: 0 <= j < |entries| ==> entries[j].index > k
    ensures var r := Merge(m, entries, applied); k <= |r.log| && r.log[..k] == m.log[..k] && (m.rebuild ==> r.rebuild)
    decreases |entries|
  {
    if entries != [] {
      var m1 := MergeOne(m, entries[0], applied);
      assert m1.log[..k] == m.log[..k];
      MergeKeepsBelow(m1, entries[1..], applied, k);
    }
  }

  /** A rebuild is due exactly when an applied entry has been overwritten. */
  lemma {:induction false} RebuildIff(m: Merged, entries: Log, prev: nat, applied: nat)
    requires Following(entries, prev) && !m.rebuild && applied <= |m.log|
    ensures var r := Merge(m, entries, applied); r.rebuild <==> !(m.log[..applied] <= r.log)
    decreases |entries|
  {
    if entries != [] {
      var e := entries[0];
      var m1 := MergeOne(m, e, applied);
      assert Following(entries[1..], prev + 1);
      if m1.rebuild {
        assert m1.log[prev] == e && m.log[prev] != e && prev < applied;
        MergeKeepsBelow(m1, entries[1..], applied, prev + 1);
        var r := Merge(m1, entries[1..], applied);
        assert r.log[..prev + 1][prev] == e && m.log[..applied][prev] == m.log[prev];
      } else {
        assert m1.log[..applied] == m.log[..applied];
        RebuildIff(m1, entries[1..], prev + 1, applied);
      }
    }
  }

  /** What an accepted message leaves committed and applied. As long as no applied entry is overwritten the
      commit index rises to the leader's, as far as the log goes, and never falls below what it was but for
      the log's end; otherwise it is the leader's, and the application starts over. */
  lemma AcceptedCommit(n: Node, m: Message)
    requires m.AppendEntries? && AcceptsPrevious(n, m) && Following(m.entries, m.prevIndex) && n.applied <= |n.log|
    ensures var w := AppendFromLeader(n, m);
            var kept := n.log[..n.applied] <= w.log;
            && w.commit == Min(if kept then Max(n.commit, m.leaderCommit) else m.leaderCommit, |w.log|)
            && w.applied == (if kept then n.applied else 0) && w.app == (if kept then n.app else [])
            && w.term == n.term && w.id == n.id && w.role == n.role && w.config == n.config && w.outbox == n.outbox
  {
    RebuildIff(Merged(n.log, false, false), m.entries, m.prevIndex, n.applied);
    hide Merge, AcceptsPrevious;
  }

  /** The log reaches the entry before the new ones and has it of the same term and, if one is named, of
      the same creator. */
  predicate Reaches(log: Log, m: Message)
    requires m.AppendEntries?
  {
    && m.prevIndex <= |log|
    && (m.prevIndex > 0 ==> log[m.prevIndex - 1].term == m.prevTerm
                            && (m.prevCreator == "" || log[m.prevIndex - 1].creator == m.prevCreator))
  }

  lemma ReachesIs(n: Node, m: Message)
    requires m.AppendEntries?
    ensures AcceptsPrevious(n, m) <==> Reaches(n.log, m)
  {
  }

  lemma Adopted(n: Node, term: nat)
    ensures var w := AdoptTerm(n, term);
            && w == n.(term := w.term, votedFor := w.votedFor, leader := w.leader, dirty := w.dirty, votes := w.votes, role := w.role)
            && w.term == Max(n.term, term)
            && (term > n.term ==> w.role == Follower && w.votedFor == None && w.leader == None && w.votes == {} && w.dirty)
            && (term <= n.term ==> w == n)
  {
  }

  lemma AnsweredHere(n: Node, m: Message)
    requires m.AppendEntries?
    ensures var w := AnswerAppend(n, m);
            var accepted := m.term == n.term && Reaches(n.log, m);
            && w.term == n.term && w.outbox == n.outbox + [AppendReply(n.term, n.id, m.source, accepted, |w.log|)]
            && w.votedFor == n.votedFor && w.role == n.role
            && w.leader == (if m.term == n.term then Some(m.source) else n.leader)
            && (!accepted ==> w.log == n.log && w.commit == n.commit && w.applied == n.applied && w.app == n.app)
            && (accepted ==> w.log == Merge(Merged(n.log, false, false), m.entries, n.applied).log)
  {
    ReachesIs(n, m);
    ReachesIs(n.(leader := Some(m.source)), m);
    hide Merge, NextCommit, Reaches, AcceptsPrevious;
  }

  /** What a node answers to a leader's message. It adopts a later term and takes the sender for its leader,
      unless the message is of an earlier term; it accepts if and only if the message is not and its log
      reaches it; and it reports the length of the log it is left with. A refusal leaves the log alone. */
  lemma AppendAnswered(n: Node, m: Message)
    requires m.AppendEntries?
    ensures var w := HandleAppendEntries(n, m);
            var accepted := m.term >= n.term && Reaches(n.log, m);
            && w.term == Max(n.term, m.term)
            && w.outbox == n.outbox + [AppendReply(w.term, n.id, m.source, accepted, |w.log|)]
            && (m.term >= n.term ==> w.leader == Some(m.source)) && (m.term > n.term ==> w.role == Follower && w.votedFor == None)
            && (!accepted ==> w.log == n.log && w.commit == n.commit && w.applied == n.applied && w.app == n.app)
            && (accepted ==> w.log == Merge(Merged(n.log, false, false), m.entries, n.applied).log)
  {
    Adopted(n, m.term);
    AnsweredHere(AdoptTerm(n, m.term), m);
    hide AdoptTerm, AnswerAppend, Merge, Reaches;
  }

  // ---- A round of replication ----

  /** The commit index is at the end of the log exactly if a majority is known to hold all of it. */
  predicate Settled(n: Node) {
    && n.role == Leader && n.log != [] && LastTerm(n.log) == n.term && n.commit <= |n.log|
    && (n.commit == |n.log| <==> MajorityOf(Holding(n, |n.log|), n.config))
  }

  /** A leader that has just appended a command is such a node. */
  lemma AppendSettles(n: Node, c: Command)
    requires n.role == Leader && n.commit <= |n.log|
    ensures Settled(AppendLocal(n, c)) && AppendLocal(n, c).id == n.id
  {
    var n1 := Appended(n, c);
    var n2 := AdvanceCommit(n1);
    ScanIs(n1);
    hide CommitScan, MajorityOf, AppendMessages;
    assert Holding(n2, |n1.log|) == Holding(n1, |n1.log|);
    assert Holding(AppendLocal(n, c), |n1.log|) == Holding(n1, |n1.log|);
    assert MajorityOf(Holding(n1, |n1.log|), n1.config) <==> Committable(n1, |n1.log|);
  }

  /** The follower's log agrees with the leader's up to the entry before those it is sent. */
  predicate Agrees(l: Node, f: Node)
    requires LogRepair.Repairable(l, f)
  {
    l.nextIndex[f.id] - 1 <= LogRepair.Common(f.log, l.log)
  }

  /** All followers' answers to what the leader owes them. */
  function Replies(l: Node, fs: seq<Node>): (ms: seq<Message>)
    requires forall f :: f in fs ==> LogRepair.Repairable(l, f)
  {
    if fs == [] then [] else [LogRepair.Reply(l, fs[0])] + Replies(l, fs[1..])
  }

  function Agreeing(l: Node, fs: seq<Node>): set<NodeId>
    requires forall f :: f in fs ==> LogRepair.Repairable(l, f)
  {
    set f | f in fs && Agrees(l, f) :: f.id
  }

  predicate SameOffice(l: Node, n: Node) {
    n.id == l.id && n.role == l.role && n.term == l.term && n.log == l.log && n.config == l.config
  }

  lemma Accepted(n: Node, m: Message)
    requires Settled(n) && m.AppendReply? && m.term == n.term && m.success && m.matchIndex >= |n.log| && m.source != n.id
    ensures var n' := HandleAppendReply(n, m);
            SameOffice(n, n') && Settled(n') && Holding(n', |n.log|) == Holding(n, |n.log|) + {m.source}
  {
    AckCommits(n, m);
    var n', top := HandleAppendReply(n, m), |n.log|;
    assert n'.id == n.id by { AckSame(n, m); }
    hide HandleAppendReply, MajorityOf;
    assert Holding(n', top) == Holding(n, top) + {m.source};
    if MajorityOf(Holding(n, top), n.config) { MoreHold(Holding(n, top), Holding(n', top), n.config); }
    if MajorityOf(Holding(n', top), n.config) { assert Committable(n', top); }
  }

  lemma AckSame(n: Node, m: Message)
    requires m.AppendReply? && m.term == n.term
    ensures HandleAppendReply(n, m).id == n.id
  {
    hide AdvanceCommit, SendTo;
    AdvanceSame(n.(matchIndex := n.matchIndex[m.source := m.matchIndex], nextIndex := n.nextIndex[m.source := m.matchIndex + 1]));
    if m.source in n.nextIndex {
      SendSame(n.(nextIndex := n.nextIndex[m.source := BackOff(n.nextIndex[m.source])]), m.source);
    }
  }

  lemma AdvanceSame(n: Node)
    ensures AdvanceCommit(n).id == n.id
  {
    hide CommitScan;
  }

  lemma SendSame(n: Node, peer: NodeId)
    ensures SendTo(n, peer).id == n.id && SameOffice(n, SendTo(n, peer))
    ensures SendTo(n, peer).matchIndex == n.matchIndex && SendTo(n, peer).commit == n.commit
  {
    hide AppendMessage;
  }

  lemma MoreHold(a: set<NodeId>, b: set<NodeId>, c: Configuration)
    requires a <= b && MajorityOf(a, c)
    ensures MajorityOf(b, c)
  {
    CountMonotone(a, b, c.current);
    if c.joint.Some? { CountMonotone(a, b, c.joint.value); }
  }

  lemma Refused(n: Node, m: Message)
    requires Settled(n) && m.AppendReply? && m.term == n.term && !m.success
    ensures var n' := HandleAppendReply(n, m);
            SameOffice(n, n') && Settled(n') && Holding(n', |n.log|) == Holding(n, |n.log|)
  {
    if m.source in n.nextIndex {
      SendSame(n.(nextIndex := n.nextIndex[m.source := BackOff(n.nextIndex[m.source])]), m.source);
    }
    hide SendTo, AdvanceCommit, MajorityOf;
  }

  lemma AnswerHandled(l: Node, n: Node, f: Node)
    requires LogRepair.Repairable(l, f) && SameOffice(l, n) && Settled(n) && f.id != l.id
    ensures var m := LogRepair.Reply(l, f);
            var n' := HandleAppendReply(n, m);
            && SameOffice(n, n') && Settled(n')
            && Holding(n', |n.log|) == Holding(n, |n.log|) + if Agrees(l, f) then {f.id} else {}
  {
    LogRepair.OneExchange(l, f);
    var m := LogRepair.Reply(l, f);
    hide LogRepair.Reply, LogRepair.Hearing, LogRepair.Repairable, HandleAppendReply, LogRepair.Common, Settled, Holding;
    if m.success { Accepted(n, m); } else { Refused(n, m); }
  }

  lemma AgreeingMore(l: Node, f: Node, rest: seq<Node>)
    requires LogRepair.Repairable(l, f) && forall g :: g in rest ==> LogRepair.Repairable(l, g)
    ensures (forall g :: g in [f] + rest ==> LogRepair.Repairable(l, g))
    ensures Agreeing(l, [f] + rest) == (if Agrees(l, f) then {f.id} else {}) + Agreeing(l, rest)
  {
    assert forall x :: x in [f] + rest <==> x == f || x in rest;
    hide LogRepair.Repairable, Agrees;
  }

  lemma {:induction false} RepliesHandled(l: Node, n: Node, fs: seq<Node>)
    requires forall f :: f in fs ==> LogRepair.Repairable(l, f) && f.id != l.id
    requires SameOffice(l, n) && Settled(n)
    ensures var n' := ReceiveAll(n, Replies(l, fs));
            && SameOffice(l, n') && Settled(n') && Holding(n', |l.log|) == Holding(n, |l.log|) + Agreeing(l, fs)
    decreases |fs|
  {
    hide HandleAppendReply, LogRepair.Reply, LogRepair.Repairable, Agrees, Settled, Holding;
    if fs == [] {
      assert Replies(l, fs) == [] && ReceiveAll(n, []) == n && Agreeing(l, fs) == {};
    } else {
      var f, rest := fs[0], fs[1..];
      assert f in fs && fs == [f] + rest && forall g :: g in rest ==> g in fs;
      AnswerHandled(l, n, f);
      AgreeingMore(l, f, rest);
      var n1 := HandleAppendReply(n, LogRepair.Reply(l, f));
      RepliesHandled(l, n1, rest);
      ReceivesFirst(n, LogRepair.Reply(l, f), Replies(l, rest));
      hide Agreeing, Replies, ReceiveAll;
      assert Replies(l, fs) == [LogRepair.Reply(l, f)] + Replies(l, rest) by { RepliesFirst(l, fs); }
    }
  }

  lemma RepliesFirst(l: Node, fs: seq<Node>)
    requires fs != [] && forall f :: f in fs ==> LogRepair.Repairable(l, f)
    ensures forall f :: f in fs[1..] ==> f in fs
    ensures Replies(l, fs) == [LogRepair.Reply(l, fs[0])] + Replies(l, fs[1..])
  {
    hide LogRepair.Repairable, LogRepair.Reply;
  }

  lemma ReceivesFirst(n: Node, m: Message, rest: seq<Message>)
    requires m.AppendReply?
    ensures ReceiveAll(n, [m] + rest) == ReceiveAll(HandleAppendReply(n, m), rest)
  {
    assert ([m] + rest)[0] == m && ([m] + rest)[1..] == rest;
    hide HandleAppendReply;
  }

  /** A round of replication, from both ends: a leader whose last entry is of its own term sends what it owes
      to any followers whose terms are not later, and takes their answers. Its whole log is then committed
      if and only if it, those already known to hold it and those that agreed are a majority: whose logs
      agreed with its own up to the entry before the ones sent. They now hold the leader's log. */
  lemma RoundCommits(l: Node, fs: seq<Node>)
    requires Settled(l) && forall f :: f in fs ==> LogRepair.Repairable(l, f) && f.id != l.id
    ensures var l' := ReceiveAll(l, Replies(l, fs));
            && l'.log == l.log
            && (l'.commit == |l.log| <==> MajorityOf(Holding(l, |l.log|) + Agreeing(l, fs), l.config))
    ensures forall f :: f in fs && Agrees(l, f) ==> l.log <= LogRepair.Hearing(l, f).log
  {
    RepliesHandled(l, l, fs);
    forall f | f in fs && Agrees(l, f) ensures l.log <= LogRepair.Hearing(l, f).log {
      LogRepair.OneExchange(l, f);
    }
    hide ReceiveAll, Replies, MajorityOf, Holding, LogRepair.Repairable, LogRepair.Hearing, LogRepair.Reply;
  }
}
