/** Write-ahead: what a node has sent is on its disk. */
module Durability {
  import opened RaftTypes
  import opened LogMerge
  import opened Protocol
  import opened ProtocolSteps
  import opened ProtocolAccept
  import opened NodeSpec
  import opened NodeLocal
  import opened Refinement
  import opened TickRefinement
  import opened Cluster
  import opened ClusterSafety
  import opened RunProofs

  /** Nothing on the network is ahead of its sender's disk: terms are saved before they are sent, and a
      granted vote is still on disk for as long as its term is. */
  lemma WriteAhead(r: Run, members: seq<NodeId>, k: nat, m: Message)
    requires IsRun(r) && AlwaysBased(r, members) && k < |r.states| && m in r.states[k].net
    ensures m.source in r.states[k].disks && m.term <= Durable(r.states[k].disks[m.source]).term
    ensures var meta := Durable(r.states[k].disks[m.source]);
            m.VoteReply? && m.granted && meta.term == m.term ==> meta.votedFor == Some(m.target)
  {
    hide CommitInv, Trusted;
    var s, h, _, _ := Moments(r, members, k, k);
    assert TermKept(s, m) && MessageOk(h, m);
    PeerView(r.states[k], s, h, members, m.source);
    if m.VoteReply? && m.granted {
      assert Promised(s, h, (m.source, m.term));
    }
  }

  /** Two granted votes of one voter in one term name one candidate, whatever crashed in between. */
  lemma OneVotePerTerm(r: Run, members: seq<NodeId>, k: nat, m: Message, m': Message)
    requires IsRun(r) && AlwaysBased(r, members) && k < |r.states| && m in r.states[k].net && m' in r.states[k].net
    requires m.VoteReply? && m.granted && m'.VoteReply? && m'.granted && m.source == m'.source && m.term == m'.term
    ensures m.target == m'.target
  {
    hide CommitInv, Trusted;
    var s, h, _, _ := Moments(r, members, k, k);
    assert MessageOk(h, m) && MessageOk(h, m');
  }

  /** The tick of a node latched as n accepts the message. */
  predicate Takes(n: Node, m: Message) {
    && m.AppendEntries? && n.appends != [] && n.appends[0] == m
    && !(n.role == Candidate && ConfigQuorum(n.votes, n.config))
    && var n1 := AdoptTerm(n, m.term); n1.term == m.term && AcceptsPrevious(n1, m)
  }

  predicate TakenAt(r: Run, j: nat, m: Message)
    requires IsRun(r)
  {
    && j < |r.events| && r.events[j].Tick? && Follows(r, j)
    && Takes(Latched(r.states[j].nodes[r.events[j].id], r.events[j]), m)
  }

  lemma TakenWork(n: Node, m: Message, clock: Clock)
    requires Sorted(n) && Takes(n, m)
    ensures var w := MembershipStep(RoleStep(n, clock));
            && w.term == m.term && w.log == Merge(Merged(n.log, false, false), m.entries, n.applied).log
            && AppendReply(m.term, n.id, m.source, true, |w.log|) in w.outbox
  {
    hide Merge, IsVoting, ConfigQuorum, TakeAppend, MembershipStep;
    var f := n.(role := Follower);
    assert RoleStep(n, clock) == TakeAppend(f);
    TakenAnswer(f, m);
    FollowerMembership(TakeAppend(f));
  }

  lemma TakenAnswer(n: Node, m: Message)
    requires Sorted(n) && n.role == Follower && m.AppendEntries? && n.appends != [] && n.appends[0] == m
    requires var n1 := AdoptTerm(n, m.term); n1.term == m.term && AcceptsPrevious(n1, m)
    ensures var w := TakeAppend(n);
            && w.term == m.term && w.role == Follower && w.log == Merge(Merged(n.log, false, false), m.entries, n.applied).log
            && AppendReply(m.term, n.id, m.source, true, |w.log|) in w.outbox
  {
    hide Merge, NextCommit, Sorted;
    var n1 := AdoptTerm(n.(appends := n.appends[1..]), m.term);
    var n2 := AppendFromLeader(n1.(leader := Some(m.source)), m);
    assert TakeAppend(n) == n2.(outbox := n2.outbox + [AppendReply(n2.term, n2.id, m.source, true, |n2.log|)]);
  }

  lemma FollowerMembership(n: Node)
    requires n.role == Follower
    ensures var w := MembershipStep(n); w.term == n.term && w.log == n.log && w.outbox == n.outbox
  {
    assert !HasChangeRequest(n) && !CanFinalize(n);
    NoChange(n);
    hide MembershipStep, HasChangeRequest, CanFinalize;
  }

  /** What the accepted message says the sender has, the node has too. */
  lemma TakenLog(c: State, s: Sys, h: History, members: seq<NodeId>, e: Event, m: Message)
    requires Inv(s, h, members) && Rel(c, s) && e.Tick? && Enabled(c, e) && Based(c, members) && Takes(Latched(c.nodes[e.id], e), m)
    ensures m.term in h.reigns && Sent(m) <= |h.reigns[m.term].log|
    ensures h.reigns[m.term].log[..Sent(m)] <= Worked(c.nodes[e.id], e).log && Worked(c.nodes[e.id], e).term == m.term
  {
    hide Inv, CommitInv, Merge, RoleStep, MembershipStep, Latch, ConfigQuorum, Step;
    var i, n := e.id, c.nodes[e.id];
    assert NodeRel(c, s, i);
    LatchQuiet(n, e);
    LatchAppends(s, n, e.inbox, e.commands);
    var n1 := Latched(n, e);
    var s1, h1 := LatchSim(s, h, members, i, n, e.inbox, e.commands);
    TakenWork(n1, m, e.clock);
    var n2 := AdoptTerm(n1, m.term);
    var s2 := AdoptTermSim(s1, h1, members, i, n1, m.term);
    var n3 := n2.(role := Follower);
    var s3 := DemoteSim(s2, h1, members, i, n2, n3);
    SentKnown(s, h, members, m);
    TakenShape(s3, h1, members, i, n3, m);
    SameSent(h, h1, m);
  }

  lemma LatchQuiet(n: Node, e: Event)
    requires e.Tick? && Sorted(Latched(n, e)) && !Worked(n, e).fault
    ensures !Latched(n, e).fault
  {
    hide Routine, RoleStep, MembershipStep, Latch;
    var n1 := Latched(n, e);
    RoleStepRoutine(n1, e.clock);
    MembershipStepRoutine(RoleStep(n1, e.clock));
    RoutineFault(n1, RoleStep(n1, e.clock));
    RoutineFault(RoleStep(n1, e.clock), Worked(n, e));
  }

  lemma RoutineFault(n: Node, n': Node)
    requires Routine(n, n')
    ensures n.fault ==> n'.fault
  {
  }

  lemma SentKnown(s: Sys, h: History, members: seq<NodeId>, m: Message)
    requires Inv(s, h, members) && m in s.net && m.AppendEntries?
    ensures m.term in h.reigns && Sent(m) <= |h.reigns[m.term].log|
  {
    assert MessageOk(h, m);
  }

  lemma TakenShape(s: Sys, h: History, members: seq<NodeId>, i: NodeId, n: Node, m: Message)
    requires Inv(s, h, members) && Sim(s, i, n) && n.role == Follower && m in s.net && m.AppendEntries?
    requires m.term == n.term && AcceptsPrevious(n, m)
    ensures m.term in h.reigns && Sent(m) <= |h.reigns[m.term].log|
    ensures h.reigns[m.term].log[..Sent(m)] <= Merge(Merged(n.log, false, false), m.entries, n.applied).log
  {
    SentKnown(s, h, members, m);
    assert MessageOk(h, m);
    AcceptShape(s, h, members, i, m);
  }

  lemma SameSent(h: History, h': History, m: Message)
    requires Extends(h, h') && m.AppendEntries? && m.term in h.reigns && Sent(m) <= |h.reigns[m.term].log|
    ensures m.term in h'.reigns && Sent(m) <= |h'.reigns[m.term].log|
    ensures h'.reigns[m.term].log[..Sent(m)] == h.reigns[m.term].log[..Sent(m)]
  {
    assert SameReign(h.reigns[m.term], h'.reigns[m.term]);
  }

  /** The node holds all that the accepted message says its sender has; all of its log, if nothing older
      is left beyond that. */
  ghost predicate Holds(s: Sys, h: History, a: NodeId, m: Message) {
    && m.AppendEntries? && a in s.peers && s.peers[a].term == m.term && m.term in h.reigns
    && var log, sender := s.peers[a].log, h.reigns[m.term].log;
       Sent(m) <= |log| && log[..Sent(m)] <= sender && (NoOlderBeyond(log, m) ==> log <= sender)
  }

  lemma TakenHolds(c: State, s: Sys, h: History, members: seq<NodeId>, e: Event, m: Message, s': Sys, h': History)
    requires Inv(s, h, members) && Rel(c, s) && e.Tick? && Enabled(c, e) && Based(c, members) && Takes(Latched(c.nodes[e.id], e), m)
    requires Inv(s', h', members) && Rel(Step(c, e), s') && Extends(h, h')
    ensures Holds(s', h', e.id, m)
  {
    hide Inv, Rel, Based, Latched, Worked, Step, Extends, NoOlderBeyond, Traced, Sorted, AdoptTerm, AcceptsPrevious, ConfigQuorum;
    var c' := Step(c, e);
    TakenLog(c, s, h, members, e, m);
    SavedLog(c, s, e);
    SameNodesHere(c, e);
    PeerView(c', s', h', members, e.id);
    SameSent(h, h', m);
    OwnTermPrefix(h', s'.peers[e.id].log, m);
  }

  lemma OwnTermPrefix(h: History, log: Log, m: Message)
    requires m.AppendEntries? && m.term in h.reigns && Sent(m) <= |h.reigns[m.term].log| && Traced(h, log)
    requires h.reigns[m.term].log[..Sent(m)] <= log
    ensures Sent(m) <= |log| && log[..Sent(m)] <= h.reigns[m.term].log
    ensures NoOlderBeyond(log, m) ==> log <= h.reigns[m.term].log
  {
    if |log| > Sent(m) && NoOlderBeyond(log, m) {
      assert LastTerm(log) == m.term;
    }
  }

  /** The moment after a message was accepted, and a later one. */
  lemma TakenMoments(r: Run, members: seq<NodeId>, j: nat, k: nat, m: Message) returns (s: Sys, h: History, s': Sys, h': History)
    requires IsRun(r) && AlwaysBased(r, members) && TakenAt(r, j, m) && j < k < |r.states|
    ensures Inv(s, h, members) && Rel(r.states[j + 1], s) && Inv(s', h', members) && Rel(r.states[k], s')
    ensures Extends(h, h') && AllRetain(s, h, s') && Holds(s, h, r.events[j].id, m)
    ensures r.events[j].id in r.states[j + 1].nodes
  {
    hide Inv, CommitInv, Rel, Trusted, Step, Enabled, Initial, Extends, AllRetain, Takes, Latched, Holds, AlwaysTrusted;
    var ss, hs := RunSim(r, members, k);
    ProofGrows(r, members, ss, hs, j, j + 1);
    ProofGrows(r, members, ss, hs, j + 1, k);
    assert Based(r.states[j], members);
    TakenHolds(r.states[j], ss[j], hs[j], members, r.events[j], m, ss[j + 1], hs[j + 1]);
    SameNodesHere(r.states[j], r.events[j]);
    s, h, s', h' := ss[j + 1], hs[j + 1], ss[k], hs[k];
  }

  lemma HoldsOn(s: Sys, h: History, s': Sys, a: NodeId, m: Message)
    requires Holds(s, h, a, m) && AllRetain(s, h, s') && a in s'.peers
    ensures s'.peers[a].term == m.term ==>
              s.peers[a].log[..Sent(m)] <= s'.peers[a].log && (NoOlderBeyond(s.peers[a].log, m) ==> s.peers[a].log <= s'.peers[a].log)
  {
    assert Retains(h, s.peers[a], s'.peers[a]);
    var log, sender := s.peers[a].log, h.reigns[m.term].log;
    hide NoOlderBeyond;
    assert log[..Sent(m)] == sender[..Sent(m)];
    if log <= sender { assert sender[..|log|] == log; }
  }

  /** Write-ahead of entries, in every run, torn saves and dishonest replies included: once a tick has
      accepted a message, all the sender's entries up to the last one sent are on the node's disk, and
      stay there for as long as the term is; if the reply of that tick is honest, so does all it reports. */
  lemma AcknowledgedOnDisk(r: Run, members: seq<NodeId>, j: nat, k: nat, m: Message)
    requires IsRun(r) && AlwaysBased(r, members) && TakenAt(r, j, m) && j < k < |r.states|
    ensures var a := r.events[j].id;
            && a in r.states[j + 1].disks && a in r.states[k].disks
            && var now, then_ := DurableLog(r.states[j + 1].disks[a]), DurableLog(r.states[k].disks[a]);
               && Durable(r.states[j + 1].disks[a]).term == m.term && Sent(m) <= |now|
               && (Durable(r.states[k].disks[a]).term == m.term ==>
                     now[..Sent(m)] <= then_ && (NoOlderBeyond(now, m) ==> now <= then_))
  {
    hide Inv, Rel, IsRun, AlwaysBased, Takes, Latched, AllRetain, Extends, NoOlderBeyond, Follows;
    var a := r.events[j].id;
    var s, h, s', h' := TakenMoments(r, members, j, k, m);
    PeerView(r.states[j + 1], s, h, members, a);
    SamePeers(s, h, s', a);
    PeerThere(r.states[k], s', a);
    PeerView(r.states[k], s', h', members, a);
    HoldsOn(s, h, s', a, m);
  }

  lemma SamePeers(s: Sys, h: History, s': Sys, a: NodeId)
    requires AllRetain(s, h, s') && a in s.peers
    ensures a in s'.peers
  {
  }

  /** What was accepted is the leader's: at any later moment of the term its leader has it too. */
  lemma AcknowledgedOfLeader(r: Run, members: seq<NodeId>, j: nat, k: nat, m: Message, l: NodeId)
    requires IsRun(r) && AlwaysBased(r, members) && TakenAt(r, j, m) && j < k < |r.states| && Leads(r.states[k], l, m.term)
    ensures r.events[j].id in r.states[j + 1].disks
    ensures var now := DurableLog(r.states[j + 1].disks[r.events[j].id]);
            && Sent(m) <= |now| && now[..Sent(m)] <= r.states[k].nodes[l].log
            && (NoOlderBeyond(now, m) ==> now <= r.states[k].nodes[l].log)
  {
    hide Inv, Rel, IsRun, AlwaysBased, Takes, Latched, AllRetain, Extends, NoOlderBeyond, Follows;
    var a := r.events[j].id;
    var s, h, s', h' := TakenMoments(r, members, j, k, m);
    PeerView(r.states[j + 1], s, h, members, a);
    LeaderReigns(r.states[k], s', h', members, l, m.term);
    LongerReignLog(h, h', m.term);
  }

  /** The tick also answers, unless it ends with the node's own removal; the answer reports the log it
      leaves on disk. */
  lemma AcknowledgementSent(r: Run, members: seq<NodeId>, j: nat, m: Message)
    requires IsRun(r) && AlwaysBased(r, members) && TakenAt(r, j, m)
    ensures var a, c := r.events[j].id, r.states[j + 1];
            a in c.nodes && a in c.disks &&
            (c.nodes[a].running ==> AppendReply(m.term, a, m.source, true, |DurableLog(c.disks[a])|) in c.net)
  {
    hide Inv, Rel, AlwaysBased, Initial, Enabled, Step, CommitInv, Trusted, AlwaysTrusted, Extends, AllRetain, Takes, Latched;
    var s, h, _, _ := Moments(r, members, j, j);
    TakenSent(r.states[j], s, r.events[j], m);
  }

  lemma TakenSent(c: State, s: Sys, e: Event, m: Message)
    requires Rel(c, s) && e.Tick? && Enabled(c, e) && Takes(Latched(c.nodes[e.id], e), m)
    ensures var a, c' := e.id, Step(c, e);
            a in c'.nodes && a in c'.disks &&
            (c'.nodes[a].running ==> AppendReply(m.term, a, m.source, true, |DurableLog(c'.disks[a])|) in c'.net)
  {
    hide Latched, Routine, ApplyAll, Sim, RoleStep, MembershipStep, DurableLog, Save, Takes;
    var n := c.nodes[e.id];
    assert NodeRel(c, s, e.id);
    var w := Worked(n, e);
    TakenWork(Latched(n, e), m, e.clock);
    LatchRoutine(n, e.inbox, e.commands);
    LatchedId(n, e);
    SavedLog(c, s, e);
    ApplyAllSends(w.(dirty := false));
  }

  lemma LatchedId(n: Node, e: Event)
    requires e.Tick? && Routine(n, Latch(n, e.inbox, e.commands))
    ensures Latched(n, e).id == n.id
  {
    hide Latch;
  }

  lemma {:induction false} ApplyAllSends(n: Node)
    requires InWindow(n)
    ensures ApplyAll(n).running ==> n.running && ApplyAll(n).outbox == n.outbox
    decreases n.commit - n.applied
  {
    if n.applied < n.commit {
      ApplyNextFacts(n);
      ApplyAllSends(ApplyNext(n));
    }
  }

  /** In a trusted run a reply speaks for the disk: while its term lasts, the disk holds the first
      matchIndex entries of the log of that term's leader, whenever after the reply that one led. */
  lemma RepliesOnDisk(r: Run, members: seq<NodeId>, j: nat, k: nat, q: nat, m: Message, l: NodeId)
    requires IsRun(r) && AlwaysBased(r, members) && AlwaysTrusted(r) && j <= k < |r.states| && j <= q < |r.states|
    requires m in r.states[j].net && m.AppendReply? && m.success && Leads(r.states[q], l, m.term)
    ensures m.matchIndex <= |r.states[q].nodes[l].log| && m.source in r.states[k].disks
    ensures Durable(r.states[k].disks[m.source]).term == m.term ==>
              r.states[q].nodes[l].log[..m.matchIndex] <= DurableLog(r.states[k].disks[m.source])
  {
    hide Inv, CommitInv, Trusted, IsRun, AlwaysBased, AlwaysTrusted, Extends, AllRetain;
    var s, h, s1, h1, s2, h2 := ThreeMoments(r, members, j, k, q);
    assert m in s.net;
    AckHeld(s, h, s1, h1, members, m);
    AckHeld(s, h, s2, h2, members, m);
    PeerThere(r.states[k], s1, m.source);
    PeerView(r.states[k], s1, h1, members, m.source);
    LeaderReigns(r.states[q], s2, h2, members, l, m.term);
    if k <= q { LongerReignLog(h1, h2, m.term); } else { LongerReignLog(h2, h1, m.term); }
  }

  lemma AckHeld(s: Sys, h: History, s': Sys, h': History, members: seq<NodeId>, m: Message)
    requires CommitInv(s, h, members) && CommitInv(s', h', members) && Extends(h, h')
    requires m in s.net && m.AppendReply? && m.success
    ensures m.source in s'.peers && m.term in h'.reigns && m.matchIndex <= |h'.reigns[m.term].log|
    ensures s'.peers[m.source].term == m.term ==> h'.reigns[m.term].log[..m.matchIndex] <= s'.peers[m.source].log
  {
    assert MessageCommitOk(h, members, m) && AckOk(s', h', (m.source, m.term));
    assert Keeps(h', m.term, m.matchIndex, s'.peers[m.source].log, s'.peers[m.source].term + 1);
  }

  /** Exactly when a success reply is true: what the follower ends with is a prefix of the log of the
      leader it answers, at that or any later moment of the leader's term, if and only if nothing older
      survives beyond the entries it was sent. */
  lemma HonestReplyIff(r: Run, members: seq<NodeId>, k: nat, q: nat, i: NodeId, m: Message, l: NodeId)
    requires IsRun(r) && AlwaysBased(r, members) && k <= q < |r.states|
    requires Up(r.states[k], i) && m in r.states[k].net && m.AppendEntries? && Leads(r.states[q], l, m.term)
    requires var n := AdoptTerm(r.states[k].nodes[i], m.term); n.term == m.term && AcceptsPrevious(n, m)
    ensures Honest(r.states[k].nodes[i], m) <==>
            AppendFromLeader(AdoptTerm(r.states[k].nodes[i], m.term), m).log <= r.states[q].nodes[l].log
  {
    hide *;
    var s, h, s', h' := Moments(r, members, k, q);
    LeaderReigns(r.states[q], s', h', members, l, m.term);
    HonestLater(r.states[k], s, h, s', h', members, i, m);
  }

  lemma HonestLater(c: State, s: Sys, h: History, s': Sys, h': History, members: seq<NodeId>, i: NodeId, m: Message)
    requires Inv(s, h, members) && Rel(c, s) && Inv(s', h', members) && Extends(h, h') && Up(c, i) && m in c.net && m.AppendEntries?
    requires var n := AdoptTerm(c.nodes[i], m.term); n.term == m.term && AcceptsPrevious(n, m)
    ensures m.term in h'.reigns
    ensures Honest(c.nodes[i], m) <==> AppendFromLeader(AdoptTerm(c.nodes[i], m.term), m).log <= h'.reigns[m.term].log
  {
    hide Inv, Rel, Extends, AcceptsPrevious, AppendFromLeader, AdoptTerm, Honest;
    HonestHere(c, s, h, members, i, m);
    LongerReignLog(h, h', m.term);
    var log := AppendFromLeader(AdoptTerm(c.nodes[i], m.term), m).log;
    if log <= h'.reigns[m.term].log { PrefixHonest(c, s, h, s', h', members, i, m); }
  }

  /** Beyond what the leader inherited, its log has no older entries. */
  lemma PrefixHonest(c: State, s: Sys, h: History, s': Sys, h': History, members: seq<NodeId>, i: NodeId, m: Message)
    requires Inv(s, h, members) && Rel(c, s) && Inv(s', h', members) && Extends(h, h') && m in c.net && m.AppendEntries? && Up(c, i)
    requires var n := AdoptTerm(c.nodes[i], m.term); n.term == m.term && AcceptsPrevious(n, m)
    requires m.term in h'.reigns && AppendFromLeader(AdoptTerm(c.nodes[i], m.term), m).log <= h'.reigns[m.term].log
    ensures Honest(c.nodes[i], m)
  {
    hide CommitInv, Merge;
    assert MessageOk(h, m) && ReignOk(h', members, m.term) && SameReign(h.reigns[m.term], h'.reigns[m.term]);
  }

  lemma HonestHere(c: State, s: Sys, h: History, members: seq<NodeId>, i: NodeId, m: Message)
    requires Inv(s, h, members) && Rel(c, s) && Up(c, i) && m in c.net && m.AppendEntries?
    requires var n := AdoptTerm(c.nodes[i], m.term); n.term == m.term && AcceptsPrevious(n, m)
    ensures m.term in h.reigns
    ensures Honest(c.nodes[i], m) <==> AppendFromLeader(AdoptTerm(c.nodes[i], m.term), m).log <= h.reigns[m.term].log
  {
    hide Inv, CommitInv, Merge, NoOlderBeyond;
    var n := c.nodes[i];
    assert NodeRel(c, s, i);
    var s1 := AdoptTermSim(s, h, members, i, n, m.term);
    var n1 := AdoptTerm(n, m.term);
    var n2 := n1.(role := Follower);
    var s2 := DemoteSim(s1, h, members, i, n1, n2);
    assert m in s2.net;
    HonestAt(s2, h, members, i, n2, m);
  }

  lemma HonestAt(s: Sys, h: History, members: seq<NodeId>, i: NodeId, n: Node, m: Message)
    requires Inv(s, h, members) && Sim(s, i, n) && n.role == Follower && m in s.net && m.AppendEntries?
    requires m.term == n.term && AcceptsPrevious(n, m)
    ensures m.term in h.reigns
    ensures NoOlderBeyond(AppendFromLeader(n, m).log, m) <==> AppendFromLeader(n, m).log <= h.reigns[m.term].log
  {
    hide CommitInv;
    assert MessageOk(h, m);
    HonestLog(s, h, members, i, m);
    assert AppendFromLeader(n, m).log == Merging(s.peers[i], m).log;
  }
}
