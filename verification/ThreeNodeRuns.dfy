/** Building runs of a three node cluster tick by tick. */
module ThreeNodeRuns {
  import opened RaftTypes
  import opened Quorum
  import opened LogMerge
  import opened NodeSpec
  import opened NodeLocal
  import opened Refinement
  import opened TickRefinement
  import opened Members
  import opened Cluster

  const IDS: seq<NodeId> := ["a", "b", "c"]

  lemma IdsAscend()
    ensures Ascending(IDS) && "" !in IDS
  {
    assert IDS[0] == "a" && IDS[1] == "b" && IDS[2] == "c" && |IDS| == 3;
    assert "a"[0] < "b"[0] < "c"[0];
    assert Before("a", "b") && Before("b", "c") && Before("a", "c");
    hide Before;
  }

  lemma ThreeIds()
    ensures Normalize(IDS) == IDS
  {
    hide Before, Normalize, Ascending, IDS;
    IdsAscend();
    NormalizeSpec(IDS);
    assert forall x :: x in Normalize(IDS) <==> x in IdSet(Normalize(IDS));
    AscendingUnique(Normalize(IDS), IDS);
  }

  lemma CountThree(votes: set<NodeId>)
    ensures CountIn(votes, IDS) == (if "a" in votes then 1 else 0) + (if "b" in votes then 1 else 0) + (if "c" in votes then 1 else 0)
  {
    assert IDS[1..] == ["b", "c"] && IDS[1..][1..] == ["c"] && IDS[1..][1..][1..] == [];
    assert CountIn(votes, ["c"]) == if "c" in votes then 1 else 0;
  }

  /** Two of the three ids are a majority, one is not. */
  lemma TwoOfThree(i: NodeId, j: NodeId)
    requires i in IDS && j in IDS && i != j
    ensures HasQuorum({i, j}, IDS) && !HasQuorum({i}, IDS)
  {
    CountThree({i, j});
    CountThree({i});
  }

  lemma {:induction false} BallotSent(n: Node, peers: seq<NodeId>, p: NodeId)
    requires p in peers
    ensures RequestVote(n.term, n.id, p, |n.log|, LastTerm(n.log)) in BallotRequests(n, peers)
  {
    if p != peers[0] { BallotSent(n, peers[1..], p); }
  }

  lemma {:induction false} AppendSent(n: Node, peers: seq<NodeId>, p: NodeId)
    requires p in peers && SendIndex(n, p) <= |n.log| + 1
    ensures AppendMessage(n, p, SendIndex(n, p)) in AppendMessages(n, peers)
  {
    if p != peers[0] { AppendSent(n, peers[1..], p); }
  }

  // ---- Building runs ----

  function Last(r: Run): State
    requires r.states != []
  {
    r.states[|r.states| - 1]
  }

  ghost predicate ThreeNodeRun(r: Run) {
    && |r.states| == |r.events| + 1 && IsRun(r) && AlwaysBased(r, IDS)
    && Last(r).nodes.Keys == Last(r).disks.Keys == IdSet(IDS)
  }

  /** Every tick of the run answers honestly. */
  predicate AlwaysHonest(r: Run)
    requires IsRun(r)
  {
    forall k: nat {:trigger Follows(r, k)} :: k < |r.events| && Follows(r, k) && r.events[k].Tick? ==>
      HonestStep(Latched(r.states[k].nodes[r.events[k].id], r.events[k]))
  }

  /** Nodes are never stopped, never crash and never save half. */
  predicate OnlyTicks(r: Run) {
    forall k :: 0 <= k < |r.events| ==> r.events[k].Tick?
  }

  /** A member between two ticks with everything applied and no change of members under way. */
  predicate Quiet(n: Node) {
    && n.id in IDS && n.running && n.config == Configuration(IDS, None, 0) && n.peers == Without(IDS, [n.id])
    && n.appends == [] && n.voteRequests == [] && n.voteReplies == [] && n.outbox == []
    && n.membership == Stable && !n.requestPending && !n.fault && !n.dirty && n.applied == n.commit <= |n.log|
  }

  function Extended(r: Run, e: Event): Run
    requires r.states != [] && Enabled(Last(r), e)
  {
    Run(r.states + [Step(Last(r), e)], r.events + [e])
  }

  lemma ExtendIsRun(r: Run, e: Event)
    requires IsRun(r) && Enabled(Last(r), e)
    ensures IsRun(Extended(r, e)) && Last(Extended(r, e)) == Step(Last(r), e)
  {
    hide Enabled, Step, Initial;
    var r', n := Extended(r, e), |r.events|;
    assert r'.states[0] == r.states[0];
    forall k: nat | k < |r'.events| ensures Follows(r', k) {
      assert k < n ==> Follows(r, k);
      assert k < n ==> r'.states[k] == r.states[k] && r'.states[k + 1] == r.states[k + 1] && r'.events[k] == r.events[k];
      assert k == n ==> r'.states[k] == Last(r) && r'.states[k + 1] == Step(Last(r), e) && r'.events[k] == e;
    }
  }

  lemma ExtendRun(r: Run, e: Event)
    requires ThreeNodeRun(r) && Enabled(Last(r), e) && Based(Step(Last(r), e), IDS)
    ensures ThreeNodeRun(Extended(r, e)) && Last(Extended(r, e)) == Step(Last(r), e)
  {
    SameNodes(Last(r), e);
    ExtendIsRun(r, e);
    ExtendBased(r, Step(Last(r), e), e);
    hide Enabled, Step, Based, IsRun, AlwaysBased;
  }

  lemma ExtendBased(r: Run, c: State, e: Event)
    requires AlwaysBased(r, IDS) && Based(c, IDS)
    ensures AlwaysBased(Run(r.states + [c], r.events + [e]), IDS)
  {
    hide Based;
    forall k | 0 <= k < |r.states| + 1 ensures Based((r.states + [c])[k], IDS) {
    }
  }

  lemma SameNodes(c: State, e: Event)
    requires Enabled(c, e)
    ensures Step(c, e).nodes.Keys == c.nodes.Keys && Step(c, e).disks.Keys == c.disks.Keys
  {
    hide Worked, ApplyAll, Load, Normalize;
  }

  lemma ExtendHonest(r: Run, e: Event)
    requires IsRun(r) && Enabled(Last(r), e) && IsRun(Extended(r, e))
    requires AlwaysHonest(r) && (e.Tick? ==> HonestStep(Latched(Last(r).nodes[e.id], e)))
    ensures AlwaysHonest(Extended(r, e))
  {
    hide Step, Initial, HonestStep, Latched;
    var r', n := Extended(r, e), |r.events|;
    forall k: nat | k < |r'.events| && Follows(r', k) && r'.events[k].Tick?
      ensures HonestStep(Latched(r'.states[k].nodes[r'.events[k].id], r'.events[k]))
    {
      assert k < n ==> Follows(r, k) && r'.states[k] == r.states[k] && r'.events[k] == r.events[k];
      assert k == n ==> r'.states[k] == Last(r) && r'.events[k] == e;
    }
  }

  /** Some run ends in c; on demand one in which all replies are honest, or one of ticks only. */
  ghost predicate Reachable(c: State, honest: bool, ticks: bool) {
    exists r :: EndsIn(r, c, honest, ticks)
  }

  ghost predicate EndsIn(r: Run, c: State, honest: bool, ticks: bool) {
    ThreeNodeRun(r) && Last(r) == c && (honest ==> AlwaysHonest(r)) && (ticks ==> OnlyTicks(r))
  }

  lemma OneMore(c: State, honest: bool, ticks: bool, e: Event)
    requires Reachable(c, honest, ticks) && Enabled(c, e) && Based(Step(c, e), IDS)
    requires (honest && e.Tick? ==> HonestStep(Latched(c.nodes[e.id], e))) && (ticks ==> e.Tick?)
    ensures Reachable(Step(c, e), honest, ticks)
  {
    hide Enabled, Step, AlwaysHonest, HonestStep, Based, AlwaysBased, IsRun;
    var r :| EndsIn(r, c, honest, ticks);
    ExtendRun(r, e);
    if honest { ExtendHonest(r, e); }
    assert EndsIn(Extended(r, e), Step(c, e), honest, ticks);
  }

  lemma ReachableNodes(c: State, honest: bool, ticks: bool)
    requires Reachable(c, honest, ticks)
    ensures c.nodes.Keys == c.disks.Keys == IdSet(IDS) && Based(c, IDS)
  {
    var r :| EndsIn(r, c, honest, ticks);
    LastBased(r);
  }

  /** A tick whose work leaves the node as w and whose dump leaves it as v. */
  lemma TickApply(c: State, honest: bool, ticks: bool, e: Event, w: Node, v: Node) returns (c': State)
    requires Reachable(c, honest, ticks) && e.Tick? && e.id in c.nodes && c.nodes[e.id].running
    requires forall m :: m in e.inbox ==> m in c.net && m.target == e.id
    requires Sorted(Latched(c.nodes[e.id], e)) && Worked(c.nodes[e.id], e) == w
    requires honest ==> HonestStep(Latched(c.nodes[e.id], e))
    requires InWindow(w) && !w.fault && ApplyAll(w.(dirty := false)) == v && v.config.current == IDS
    ensures Reachable(c', honest, ticks)
    ensures c'.nodes == c.nodes[e.id := v.(outbox := [])] && c'.net == c.net + set m | m in v.outbox
  {
    hide Reachable, HonestStep, Step, Worked, Latched, Sorted, ApplyAll;
    ReachableNodes(c, honest, ticks);
    TickedTo(c, e, w, v);
    OneMore(c, honest, ticks, e);
    c' := Step(c, e);
  }

  /** A tick with nothing to apply. */
  lemma TickTo(c: State, honest: bool, ticks: bool, e: Event, w: Node) returns (c': State)
    requires Reachable(c, honest, ticks) && e.Tick? && e.id in c.nodes && c.nodes[e.id].running
    requires forall m :: m in e.inbox ==> m in c.net && m.target == e.id
    requires Sorted(Latched(c.nodes[e.id], e)) && Worked(c.nodes[e.id], e) == w
    requires honest ==> HonestStep(Latched(c.nodes[e.id], e))
    requires w.applied == w.commit <= |w.log| && !w.fault && w.config.current == IDS
    ensures Reachable(c', honest, ticks) && c'.nodes == c.nodes[e.id := Clean(w)] && c'.net == c.net + set m | m in w.outbox
  {
    hide Reachable, HonestStep, Worked, Latched, Sorted;
    c' := TickApply(c, honest, ticks, e, w, w.(dirty := false));
  }

  lemma LastBased(r: Run)
    requires ThreeNodeRun(r)
    ensures Based(Last(r), IDS)
  {
    hide IsRun;
  }

  lemma TickedTo(c: State, e: Event, w: Node, v: Node)
    requires Based(c, IDS) && c.nodes.Keys == c.disks.Keys && e.Tick? && e.id in c.nodes && c.nodes[e.id].running
    requires forall m :: m in e.inbox ==> m in c.net && m.target == e.id
    requires Sorted(Latched(c.nodes[e.id], e)) && Worked(c.nodes[e.id], e) == w
    requires InWindow(w) && !w.fault && ApplyAll(w.(dirty := false)) == v && v.config.current == IDS
    ensures Enabled(c, e) && Based(Step(c, e), IDS)
    ensures Step(c, e).nodes == c.nodes[e.id := v.(outbox := [])] && Step(c, e).net == c.net + set m | m in v.outbox
  {
    hide Worked, Latched, Sorted, ApplyAll;
  }

  // ---- An election: four ticks ----

  const IDLE := Clock(false, false)

  function Stood(n: Node): Node {
    n.(role := Candidate, term := n.term + 1, votedFor := Some(n.id), votes := {n.id}, leader := None)
  }

  function Voted(n: Node, term: nat, candidate: NodeId): Node {
    n.(role := Follower, term := term, votedFor := Some(candidate), votes := {}, leader := None)
  }

  /** A leader just elected with the votes of i and j. */
  function Elected(n: Node, j: NodeId): Node {
    Stood(n).(role := Leader, votes := {n.id, j}, leader := Some(n.id),
              nextIndex := map p | p in n.peers :: |n.log| + 1, matchIndex := (map p | p in n.peers :: 0)[n.id := |n.log|])
  }

  function Clean(n: Node): Node {
    n.(dirty := false, outbox := [])
  }

  function Quietly(id: NodeId, inbox: seq<Message>): Event {
    Tick(id, inbox, [], IDLE)
  }

  lemma StandWork(n: Node) returns (w: Node)
    requires Quiet(n) && n.role == Follower
    ensures Latched(n, Tick(n.id, [], [], Clock(true, false))) == n && w == Worked(n, Tick(n.id, [], [], Clock(true, false)))
    ensures Clean(w) == Stood(n) && !w.fault && w.outbox == BallotRequests(Stood(n), n.peers)
  {
    w := Worked(n, Tick(n.id, [], [], Clock(true, false)));
    assert BallotRequests(Standing(n.(role := Candidate)), n.peers) == BallotRequests(Stood(n), n.peers) by {
      BallotsAlike(Standing(n.(role := Candidate)), Stood(n), n.peers);
    }
  }

  lemma {:induction false} BallotsAlike(n: Node, n': Node, peers: seq<NodeId>)
    requires n.term == n'.term && n.id == n'.id && n.log == n'.log
    ensures BallotRequests(n, peers) == BallotRequests(n', peers)
  {
    if peers != [] { BallotsAlike(n, n', peers[1..]); }
  }

  /** A tick that latches one message and nothing else. */
  lemma LatchOne(n: Node, m: Message)
    ensures Latched(n, Quietly(n.id, [m])) == Receive(n, m)
  {
    hide HandleAppendReply;
    assert [m][0] == m && [m][1..] == [];
    assert ReceiveAll(Receive(n, m), []) == Receive(n, m);
  }

  lemma GrantWork(n: Node, m: Message) returns (w: Node)
    requires Quiet(n) && n.role == Follower && m.RequestVote? && m.term > n.term && UpToDate(m.lastIndex, m.lastTerm, n.log)
    ensures Latched(n, Quietly(n.id, [m])) == n.(voteRequests := [m])
    ensures w == Worked(n, Quietly(n.id, [m])) && Clean(w) == Voted(n, m.term, m.source) && !w.fault
    ensures w.outbox == [VoteReply(m.term, n.id, m.source, true)]
  {
    LatchOne(n, m);
    assert n.voteRequests + [m] == [m];
    w := Worked(n, Quietly(n.id, [m]));
    var n1 := n.(voteRequests := [m]);
    assert n1.(voteRequests := n1.voteRequests[1..]) == n;
    assert RoleStep(n1, IDLE) == HandleRequestVote(n, m);
  }

  lemma CollectWork(n: Node, m: Message) returns (w: Node)
    requires Quiet(n) && n.role == Candidate && n.votes == {n.id}
    requires m.VoteReply? && m.term == n.term && m.granted && m.source in IDS
    ensures Latched(n, Quietly(n.id, [m])) == n.(voteReplies := [m])
    ensures w == Worked(n, Quietly(n.id, [m])) && w == n.(votes := {n.id, m.source})
  {
    LatchOne(n, m);
    assert n.voteReplies + [m] == [m];
    w := Worked(n, Quietly(n.id, [m]));
    var n1 := n.(voteReplies := [m]);
    assert n1.(voteReplies := n1.voteReplies[1..]) == n;
    CountThree({n.id});
    assert RoleStep(n1, IDLE) == HandleVoteReply(n, m);
  }

  lemma WinWork(n: Node, j: NodeId) returns (w: Node)
    requires Quiet(n) && n.role == Candidate && j in IDS && j != n.id && n.votes == {n.id, j}
    requires n.term > 0 && n.votedFor == Some(n.id) && n.leader == None
    ensures Latched(n, Quietly(n.id, [])) == n && w == Worked(n, Quietly(n.id, []))
    ensures Clean(w) == Elected(n.(term := n.term - 1), j) && !w.fault
    ensures w.outbox == AppendMessages(Clean(w), n.peers)
  {
    TwoOfThree(n.id, j);
    w := Worked(n, Quietly(n.id, []));
    assert RoleStep(n, IDLE) == BecomeLeader(n.(role := Leader));
    hide RoleStep, HasQuorum, AppendMessages;
    OfficeTaken(n, j);
  }

  lemma OfficeTaken(n: Node, j: NodeId)
    requires n.outbox == [] && !n.fault && !n.dirty && n.membership == Stable && !n.requestPending
    requires n.votes == {n.id, j} && n.term > 0 && n.votedFor == Some(n.id)
    ensures var w := BecomeLeader(n.(role := Leader));
            && Clean(w) == Elected(n.(term := n.term - 1), j) && !w.fault && w.membership == Stable && !w.requestPending
            && w.outbox == AppendMessages(Clean(w), n.peers)
  {
    hide AppendMessages;
    var n1 := n.(role := Leader, leader := Some(n.id), nextIndex := map p | p in n.peers :: |n.log| + 1,
                 matchIndex := (map p | p in n.peers :: 0)[n.id := |n.log|]);
    var w := SendAll(n1, n1.peers);
    assert w.outbox == AppendMessages(n1, n.peers) && !w.fault;
    AppendsAlike(n1, Clean(w), n.peers);
    hide SendAll;
  }

  lemma {:induction false} AppendsAlike(n: Node, n': Node, peers: seq<NodeId>)
    requires n.term == n'.term && n.id == n'.id && n.log == n'.log && n.commit == n'.commit && n.nextIndex == n'.nextIndex
    ensures AppendMessages(n, peers) == AppendMessages(n', peers)
  {
    if peers != [] { AppendsAlike(n, n', peers[1..]); }
  }

  predicate CanElect(x: Node, y: Node) {
    && Quiet(x) && Quiet(y) && x.id != y.id && x.role == Follower && y.role == Follower
    && y.term <= x.term && UpToDate(|x.log|, LastTerm(x.log), y.log)
  }

  lemma AskVotes(c: State, honest: bool, ticks: bool, i: NodeId, j: NodeId) returns (c': State)
    requires Reachable(c, honest, ticks) && i in c.nodes && j in c.nodes && c.nodes[i].id == i && c.nodes[j].id == j
    requires CanElect(c.nodes[i], c.nodes[j])
    ensures Reachable(c', honest, ticks) && c.net <= c'.net
    ensures c'.nodes == c.nodes[i := Stood(c.nodes[i])][j := Voted(c.nodes[j], c.nodes[i].term + 1, i)]
    ensures VoteReply(c.nodes[i].term + 1, j, i, true) in c'.net
  {
    hide Reachable, Worked, Latched, BallotRequests, Without;
    var x, y := c.nodes[i], c.nodes[j];
    var w1 := StandWork(x);
    var c1 := TickTo(c, honest, ticks, Tick(i, [], [], Clock(true, false)), w1);
    WithoutSpec(IDS, [i], j);
    BallotSent(Stood(x), x.peers, j);
    var m := RequestVote(x.term + 1, i, j, |x.log|, LastTerm(x.log));
    var w2 := GrantWork(y, m);
    c' := TickTo(c1, honest, ticks, Quietly(j, [m]), w2);
  }

  lemma CollectTick(c: State, honest: bool, ticks: bool, i: NodeId, j: NodeId, x: Node) returns (c': State)
    requires Reachable(c, honest, ticks) && i in c.nodes && c.nodes[i] == Stood(x) && Quiet(x) && x.id == i && j in IDS && j != i
    requires VoteReply(x.term + 1, j, i, true) in c.net
    ensures Reachable(c', honest, ticks) && c.net <= c'.net && c'.nodes == c.nodes[i := Stood(x).(votes := {i, j})]
  {
    hide Reachable, Worked, Latched, Without;
    var m := VoteReply(x.term + 1, j, i, true);
    var w := CollectWork(Stood(x), m);
    c' := TickTo(c, honest, ticks, Quietly(i, [m]), w);
  }

  lemma WinTick(c: State, honest: bool, ticks: bool, i: NodeId, j: NodeId, x: Node) returns (c': State)
    requires Reachable(c, honest, ticks) && i in c.nodes && c.nodes[i] == Stood(x).(votes := {i, j}) && Quiet(x) && x.id == i
    requires j in IDS && j != i
    ensures Reachable(c', honest, ticks) && c.net <= c'.net && c'.nodes == c.nodes[i := Elected(x, j)]
    ensures forall m :: m in AppendMessages(Elected(x, j), x.peers) ==> m in c'.net
  {
    hide Reachable, Worked, Latched, AppendMessages, Without;
    var n := Stood(x).(votes := {i, j});
    var w := WinWork(n, j);
    c' := TickTo(c, honest, ticks, Quietly(i, []), w);
    assert n.(term := n.term - 1).peers == x.peers;
  }

  lemma TakeOffice(c: State, honest: bool, ticks: bool, i: NodeId, j: NodeId, x: Node) returns (c': State)
    requires Reachable(c, honest, ticks) && i in c.nodes && c.nodes[i] == Stood(x) && Quiet(x) && x.id == i && j in IDS && j != i
    requires VoteReply(x.term + 1, j, i, true) in c.net
    ensures Reachable(c', honest, ticks) && c.net <= c'.net && c'.nodes == c.nodes[i := Elected(x, j)]
    ensures forall p :: p in IDS && p != i ==> AppendMessage(Elected(x, j), p, |x.log| + 1) in c'.net
  {
    hide Reachable, AppendMessages, Without;
    var c1 := CollectTick(c, honest, ticks, i, j, x);
    c' := WinTick(c1, honest, ticks, i, j, x);
    forall p | p in IDS && p != i ensures AppendMessage(Elected(x, j), p, |x.log| + 1) in c'.net {
      WithoutSpec(IDS, [i], p);
      AppendSent(Elected(x, j), x.peers, p);
    }
  }

  /** Follower i becomes leader of the next term with the vote of j. */
  lemma Elect(c: State, honest: bool, ticks: bool, i: NodeId, j: NodeId) returns (c': State)
    requires Reachable(c, honest, ticks) && i in c.nodes && j in c.nodes && c.nodes[i].id == i && c.nodes[j].id == j
    requires CanElect(c.nodes[i], c.nodes[j])
    ensures Reachable(c', honest, ticks) && c.net <= c'.net
    ensures c'.nodes == c.nodes[i := Elected(c.nodes[i], j)][j := Voted(c.nodes[j], c.nodes[i].term + 1, i)]
    ensures forall p :: p in IDS && p != i ==> AppendMessage(Elected(c.nodes[i], j), p, |c.nodes[i].log| + 1) in c'.net
  {
    hide Reachable, AppendMessage;
    var c1 := AskVotes(c, honest, ticks, i, j);
    c' := TakeOffice(c1, honest, ticks, i, j, c.nodes[i]);
  }

  // ---- Proposing, acknowledging, committing ----

  function Proposed(n: Node, c: Command): Node {
    n.(log := n.log + [Entry(|n.log| + 1, n.term, c, n.id)], matchIndex := n.matchIndex[n.id := |n.log| + 1])
  }

  /** A leader nobody has answered holds its log alone. */
  predicate Alone(n: Node) {
    forall j :: j in n.matchIndex && j != n.id ==> n.matchIndex[j] == 0
  }

  lemma LoneScan(n: Node, k: nat)
    requires Alone(n) && n.config == Configuration(IDS, None, 0) && n.id in IDS && k <= |n.log|
    ensures CommitScan(n, k) == n.commit
  {
    var c := CommitScan(n, k);
    if c != n.commit {
      CountMonotone(HeldBy(n, c), {n.id}, IDS);
      CountThree({n.id});
      assert false;
    }
  }

  /** A leader nobody has answered, between ticks. */
  predicate Sole(n: Node) {
    Quiet(n) && n.role == Leader && Alone(n) && forall p :: p in n.peers ==> p in n.nextIndex && n.nextIndex[p] <= |n.log| + 1
  }

  /** What such a leader does with one command. */
  lemma ProposeLocal(n: Node, x: Command)
    requires Sole(n)
    ensures var w := AppendLocal(n, x);
            && Clean(w) == Proposed(n, x) && w.outbox == AppendMessages(Proposed(n, x), n.peers) && !w.fault
            && w.membership == Stable && !w.requestPending
  {
    hide AppendMessages, CommitScan;
    var n1 := Proposed(n, x).(dirty := true);
    LoneScan(n1, |n1.log|);
    assert AppendLocal(n, x) == SendAll(n1, n1.peers);
    AppendsAlike(n1, Proposed(n, x), n.peers);
  }

  lemma ProposeWork(n: Node, x: Command)
    requires Sole(n)
    ensures var e := Tick(n.id, [], [x], IDLE);
            Sorted(Latched(n, e)) && HonestStep(Latched(n, e)) && Worked(n, e) == AppendLocal(n, x)
  {
    ProposeLocal(n, x);
    hide AppendLocal, Alone, Without;
    assert [x][0] == x && [x][1..] == [];
    assert Latched(n, Tick(n.id, [], [x], IDLE)) == AppendAll(AppendLocal(n, x), []);
  }

  lemma Propose(c: State, honest: bool, ticks: bool, i: NodeId, x: Command) returns (c': State)
    requires Reachable(c, honest, ticks) && i in c.nodes && c.nodes[i].id == i && Sole(c.nodes[i])
    ensures Reachable(c', honest, ticks) && c.net <= c'.net && c'.nodes == c.nodes[i := Proposed(c.nodes[i], x)]
    ensures forall m :: m in AppendMessages(Proposed(c.nodes[i], x), c.nodes[i].peers) ==> m in c'.net
  {
    var n, e := c.nodes[i], Tick(i, [], [x], IDLE);
    ProposeWork(n, x);
    ProposeLocal(n, x);
    hide Reachable, AppendLocal, AppendMessages, Sorted, HonestStep, Latched, Alone;
    c' := TickTo(c, honest, ticks, e, Worked(n, e));
  }

  lemma AnswerWork(n: Node, m: Message)
    requires Quiet(n) && n.role != Candidate && m.AppendEntries?
    ensures var e := Quietly(n.id, [m]);
            && Latched(n, e) == n.(appends := [m]) && Sorted(n.(appends := [m]))
            && Worked(n, e) == HandleAppendEntries(n.(role := Follower), m)
            && (HonestStep(n.(appends := [m])) <==> Honest(n.(appends := [m]), m))
  {
    LatchOne(n, m);
    assert n.appends + [m] == [m];
    var n1 := n.(appends := [m]);
    assert n1.(role := Follower).(appends := n1.appends[1..]) == n.(role := Follower);
    assert RoleStep(n1, IDLE) == TakeAppend(n1.(role := Follower));
    AnswerMembership(n.(role := Follower), m);
    hide HandleAppendEntries, Honest, RoleStep;
  }

  lemma AnswerMembership(n: Node, m: Message)
    requires m.AppendEntries?
    ensures var w := HandleAppendEntries(n, m); w.membership == n.membership && w.requestPending == n.requestPending
  {
    var n1 := AdoptTerm(n, m.term);
    assert n1.membership == n.membership && n1.requestPending == n.requestPending;
    hide AdoptTerm, Merge, AcceptsPrevious, NextCommit;
  }
}
