/** What each handler of the Python RaftNode computes, as functions on the node's state. A tick is:
    latch inputs, one role transition, one membership transition, dump outputs. */
module NodeSpec {
  import opened RaftTypes
  import opened Quorum
  import opened LogMerge
  import opened Members

  /** Stable in the current members, or joint between these and new ones; index is where it took effect. */
  datatype Configuration = Configuration(current: seq<NodeId>, joint: Option<seq<NodeId>>, index: nat)

  datatype Membership = Stable | JointPending | Joint | Finalizing

  datatype Node = Node(
    id: NodeId, initial: seq<NodeId>, running: bool,
    role: Role, term: nat, votedFor: Option<NodeId>, log: Log, commit: nat, applied: nat,
    leader: Option<NodeId>, votes: set<NodeId>,
    config: Configuration, peers: seq<NodeId>, nextIndex: map<NodeId, nat>, matchIndex: map<NodeId, nat>,
    outbox: seq<Message>, appends: seq<Message>, voteRequests: seq<Message>, voteReplies: seq<Message>,
    requested: Option<seq<NodeId>>, requestPending: bool, target: Option<seq<NodeId>>,
    jointIndex: nat, finalIndex: nat, membership: Membership,
    threshold: int, app: seq<Command>, dirty: bool, fault: bool)

  /** The two durable files. The meta file is replaced before the log file, each atomically. */
  datatype Meta = Meta(term: nat, votedFor: Option<NodeId>, config: Configuration, commit: nat, threshold: int)
  datatype Disk = Disk(meta: Option<Meta>, log: Log)

  const DEFAULT_THRESHOLD := 32

  // ---- Configuration ----

  function StableConfig(members: seq<NodeId>, index: nat): Configuration {
    Configuration(Normalize(members), None, index)
  }

  function JointConfig(current: seq<NodeId>, target: seq<NodeId>, index: nat): Configuration {
    Configuration(Normalize(current), Some(Normalize(target)), index)
  }

  function Without(ids: seq<NodeId>, seen: seq<NodeId>): seq<NodeId> {
    if ids == [] then []
    else if ids[0] in seen then Without(ids[1..], seen)
    else [ids[0]] + Without(ids[1..], seen + [ids[0]])
  }

  lemma {:induction false} WithoutSpec(ids: seq<NodeId>, seen: seq<NodeId>, p: NodeId)
    ensures p in Without(ids, seen) <==> p in ids && p !in seen
    decreases |ids|
  {
    if ids != [] {
      WithoutSpec(ids[1..], if ids[0] in seen then seen else seen + [ids[0]], p);
      assert ids == [ids[0]] + ids[1..];
    }
  }

  /** The old members, then the new ones not among them. */
  function AllMembers(c: Configuration): seq<NodeId> {
    match c.joint
    case None => c.current
    case Some(added) => c.current + Without(added, c.current)
  }

  predicate IsVoting(n: Node) {
    n.id in AllMembers(n.config)
  }

  predicate ConfigQuorum(votes: set<NodeId>, c: Configuration) {
    HasQuorum(votes, c.current) && (c.joint.Some? ==> HasQuorum(votes, c.joint.value))
  }

  function PeersOf(c: Configuration, id: NodeId): seq<NodeId> {
    Without(AllMembers(c), [id])
  }

  /** Peers follow the configuration; new ones start from the first index with nothing acknowledged. */
  function RefreshPeers(n: Node): Node {
    var peers := PeersOf(n.config, n.id);
    n.(peers := peers,
       nextIndex := map p | p in peers :: if p in n.nextIndex then n.nextIndex[p] else 1,
       matchIndex := map p | p in peers :: if p in n.matchIndex then n.matchIndex[p] else 0)
  }

  // ---- Terms and votes ----

  function AdoptTerm(n: Node, term: nat): Node {
    if term > n.term then
      n.(term := term, votedFor := None, leader := None, dirty := true, votes := {}, role := Follower)
    else n
  }

  predicate Grants(n: Node, m: Message)
    requires m.RequestVote?
  {
    && IsVoting(n) && m.term == n.term && (n.votedFor == None || n.votedFor == Some(m.source))
    && UpToDate(m.lastIndex, m.lastTerm, n.log)
  }

  /** The answer once the term has been adopted. */
  function AnswerVote(n: Node, m: Message): Node
    requires m.RequestVote?
  {
    var granted := Grants(n, m);
    var n1 := if granted then n.(votedFor := Some(m.source), dirty := true) else n;
    n1.(outbox := n1.outbox + [VoteReply(n1.term, n1.id, m.source, granted)])
  }

  function HandleRequestVote(n: Node, m: Message): Node
    requires m.RequestVote?
  {
    AnswerVote(AdoptTerm(n, m.term), m)
  }

  function HandleVoteReply(n: Node, m: Message): Node
    requires m.VoteReply?
  {
    var n1 := AdoptTerm(n, m.term);
    if IsVoting(n1) && n1.role == Candidate && m.term == n1.term && m.granted
    then n1.(votes := n1.votes + {m.source}) else n1
  }

  function BallotRequests(n: Node, peers: seq<NodeId>): seq<Message> {
    if peers == [] then []
    else [RequestVote(n.term, n.id, peers[0], |n.log|, LastTerm(n.log))] + BallotRequests(n, peers[1..])
  }

  /** The next term, with its own vote. */
  function Standing(n: Node): Node {
    n.(term := n.term + 1, votedFor := Some(n.id), votes := {n.id}, leader := None, dirty := true)
  }

  function BecomeCandidate(n: Node): Node {
    var n1 := Standing(n);
    n1.(outbox := n1.outbox + BallotRequests(n1, n1.peers))
  }

  // ---- Replication ----

  /** The index sent from; beyond the end of the log the previous entry does not exist. */
  function SendIndex(n: Node, peer: NodeId): nat {
    Max(if peer in n.nextIndex then n.nextIndex[peer] else |n.log| + 1, 1)
  }

  function AppendMessage(n: Node, peer: NodeId, next: nat): Message
    requires 1 <= next <= |n.log| + 1
  {
    AppendEntries(n.term, n.id, peer, next - 1, TermAt(n.log, next - 1), CreatorAt(n.log, next - 1),
                  n.log[next - 1..], n.commit)
  }

  /** Reading the term before an index past the end raises in the source; the fault flag records that. */
  function SendTo(n: Node, peer: NodeId): Node {
    var next := SendIndex(n, peer);
    if next > |n.log| + 1 then n.(fault := true)
    else n.(outbox := n.outbox + [AppendMessage(n, peer, next)])
  }

  function AppendMessages(n: Node, peers: seq<NodeId>): seq<Message> {
    if peers == [] then []
    else (if SendIndex(n, peers[0]) <= |n.log| + 1 then [AppendMessage(n, peers[0], SendIndex(n, peers[0]))] else [])
         + AppendMessages(n, peers[1..])
  }

  function SendAll(n: Node, peers: seq<NodeId>): Node {
    n.(outbox := n.outbox + AppendMessages(n, peers),
       fault := n.fault || exists p :: p in peers && SendIndex(n, p) > |n.log| + 1)
  }

  function Broadcast(n: Node): Node {
    SendAll(n, n.peers)
  }

  /** A new leader, before its first broadcast. */
  function Enthroned(n: Node): Node {
    n.(leader := Some(n.id), nextIndex := map p | p in n.peers :: |n.log| + 1,
       matchIndex := (map p | p in n.peers :: 0)[n.id := |n.log|])
  }

  function BecomeLeader(n: Node): Node {
    Broadcast(Enthroned(n))
  }

  /** Members counted as holding an index: this node by its own log, others by their acknowledgement. */
  function HeldBy(n: Node, index: nat): set<NodeId> {
    (set j | j in n.matchIndex && j != n.id && n.matchIndex[j] >= index) + (if |n.log| >= index then {n.id} else {})
  }

  /** The highest index of the current term at most k that the configuration's quorums hold. */
  function CommitScan(n: Node, k: nat): (c: nat)
    requires k <= |n.log|
    ensures c == n.commit || (n.commit < c <= k && n.log[c - 1].term == n.term && ConfigQuorum(HeldBy(n, c), n.config))
  {
    if k <= n.commit then n.commit
    else if n.log[k - 1].term == n.term && ConfigQuorum(HeldBy(n, k), n.config) then k
    else CommitScan(n, k - 1)
  }

  /** No higher index of the current term is held by the quorums. */
  lemma {:induction false} CommitScanHighest(n: Node, k: nat, j: nat)
    requires k <= |n.log| && n.commit < j <= k && CommitScan(n, k) < j && n.log[j - 1].term == n.term
    ensures !ConfigQuorum(HeldBy(n, j), n.config)
    decreases k
  {
    if j < k { CommitScanHighest(n, k - 1, j); }
  }

  function AdvanceCommit(n: Node): Node {
    var c := CommitScan(n, |n.log|);
    if c == n.commit then n else n.(commit := c, dirty := true)
  }

  /** A leader's log with one more entry of its own. */
  function Appended(n: Node, c: Command): Node {
    var e := Entry(|n.log| + 1, n.term, c, n.id);
    n.(log := n.log + [e], dirty := true, matchIndex := n.matchIndex[n.id := e.index])
  }

  function AppendLocal(n: Node, c: Command): Node {
    Broadcast(AdvanceCommit(Appended(n, c)))
  }

  predicate AcceptsPrevious(n: Node, m: Message)
    requires m.AppendEntries?
  {
    && m.prevIndex <= |n.log|
    && TermAt(n.log, m.prevIndex) == (if m.prevIndex == 0 then 0 else m.prevTerm)
    && (m.prevIndex > 0 && m.prevCreator != "" ==> CreatorAt(n.log, m.prevIndex) == m.prevCreator)
  }

  function AppendFromLeader(n: Node, m: Message): Node
    requires m.AppendEntries? && AcceptsPrevious(n, m)
  {
    var r := Merge(Merged(n.log, false, false), m.entries, n.applied);
    n.(log := r.log, commit := NextCommit(n.commit, m.leaderCommit, |r.log|, r.rebuild),
       applied := if r.rebuild then 0 else n.applied, app := if r.rebuild then [] else n.app,
       dirty := n.dirty || r.changed || r.rebuild || m.leaderCommit > n.commit || n.commit > |r.log|)
  }

  /** The answer once the term has been adopted. */
  function AnswerAppend(n: Node, m: Message): Node
    requires m.AppendEntries?
  {
    var n1 := if m.term == n.term then n.(leader := Some(m.source)) else n;
    var success := m.term == n.term && AcceptsPrevious(n1, m);
    var n2 := if success then AppendFromLeader(n1, m) else n1;
    n2.(outbox := n2.outbox + [AppendReply(n2.term, n2.id, m.source, success, |n2.log|)])
  }

  function HandleAppendEntries(n: Node, m: Message): Node
    requires m.AppendEntries?
  {
    AnswerAppend(AdoptTerm(n, m.term), m)
  }

  function BackOff(next: nat): nat {
    if next <= 2 then 1 else next - 1
  }

  function RecordReply(n: Node, m: Message): Node
    requires m.AppendReply?
  {
    if n.role != Leader || m.term != n.term then n
    else if m.success then
      AdvanceCommit(n.(matchIndex := n.matchIndex[m.source := m.matchIndex],
                       nextIndex := n.nextIndex[m.source := m.matchIndex + 1]))
    else if m.source !in n.nextIndex then n.(fault := true)
    else SendTo(n.(nextIndex := n.nextIndex[m.source := BackOff(n.nextIndex[m.source])]), m.source)
  }

  function HandleAppendReply(n: Node, m: Message): Node
    requires m.AppendReply?
  {
    RecordReply(AdoptTerm(n, m.term), m)
  }

  // ---- Latch ----

  function Receive(n: Node, m: Message): Node {
    match m
    case AppendEntries(_, _, _, _, _, _, _, _) => n.(appends := n.appends + [m])
    case RequestVote(_, _, _, _, _) => n.(voteRequests := n.voteRequests + [m])
    case VoteReply(_, _, _, _) => n.(voteReplies := n.voteReplies + [m])
    case AppendReply(_, _, _, _, _) => HandleAppendReply(n, m)
  }

  function ReceiveAll(n: Node, inbox: seq<Message>): Node
    decreases |inbox|
  {
    if inbox == [] then n else ReceiveAll(Receive(n, inbox[0]), inbox[1..])
  }

  function AppendAll(n: Node, commands: seq<Command>): Node
    decreases |commands|
  {
    if commands == [] then n else AppendAll(AppendLocal(n, commands[0]), commands[1..])
  }

  function Latch(n: Node, inbox: seq<Message>, commands: seq<Command>): Node {
    var n1 := ReceiveAll(n, inbox);
    if n1.role == Leader then AppendAll(n1, commands) else n1
  }

  // ---- Role transitions: the first enabled row of the table, guard and action together ----

  function TakeAppend(n: Node): Node
    requires n.appends != [] && n.appends[0].AppendEntries?
  {
    HandleAppendEntries(n.(appends := n.appends[1..]), n.appends[0])
  }

  function TakeVoteRequest(n: Node): Node
    requires n.voteRequests != [] && n.voteRequests[0].RequestVote?
  {
    HandleRequestVote(n.(voteRequests := n.voteRequests[1..]), n.voteRequests[0])
  }

  function TakeVoteReply(n: Node): Node
    requires n.voteReplies != [] && n.voteReplies[0].VoteReply?
  {
    HandleVoteReply(n.(voteReplies := n.voteReplies[1..]), n.voteReplies[0])
  }

  /** The queues hold what their names say. */
  predicate Sorted(n: Node) {
    && (forall m :: m in n.appends ==> m.AppendEntries?)
    && (forall m :: m in n.voteRequests ==> m.RequestVote?)
    && (forall m :: m in n.voteReplies ==> m.VoteReply?)
  }

  datatype Clock = Clock(electionDue: bool, heartbeatDue: bool)

  predicate TimedOut(n: Node, clock: Clock) {
    IsVoting(n) && clock.electionDue && n.appends == []
  }

  function RoleStep(n: Node, clock: Clock): Node
    requires Sorted(n)
  {
    match n.role
    case Follower =>
      if TimedOut(n, clock) then BecomeCandidate(n.(role := Candidate))
      else if n.appends != [] then TakeAppend(n)
      else if n.voteRequests != [] then TakeVoteRequest(n)
      else if n.voteReplies != [] then n.(voteReplies := n.voteReplies[1..])
      else n
    case Candidate =>
      if TimedOut(n, clock) then n.(role := Follower, votes := {}, leader := None)
      else if ConfigQuorum(n.votes, n.config) then BecomeLeader(n.(role := Leader))
      else if n.appends != [] then TakeAppend(n.(role := Follower))
      else if n.voteRequests != [] then
        TakeVoteRequest(if n.voteRequests[0].term > n.term then n.(role := Follower) else n)
      else if n.voteReplies != [] then TakeVoteReply(n)
      else n
    case Leader =>
      if n.appends != [] then TakeAppend(n.(role := Follower))
      else if n.voteRequests != [] then
        TakeVoteRequest(if n.voteRequests[0].term > n.term then n.(role := Follower) else n)
      else if n.voteReplies != [] then n.(voteReplies := n.voteReplies[1..])
      else if clock.heartbeatDue then Broadcast(n)
      else n
  }

  // ---- Membership transitions ----

  predicate HasChangeRequest(n: Node) {
    && n.role == Leader && n.requestPending && n.requested.Some? && n.config.joint.None?
    && n.requested.value != n.config.current
  }

  predicate CaughtUp(n: Node) {
    && n.config.joint.Some?
    && forall m :: m in n.config.joint.value && m != n.id ==>
         (if m in n.matchIndex then n.matchIndex[m] else 0) >= |n.log|
  }

  function BeginChange(n: Node, members: seq<NodeId>): Node {
    AppendLocal(n.(membership := JointPending, target := Some(members), jointIndex := |n.log| + 1, outbox := []),
                EnterJoint(members))
  }

  function FinalizeChange(n: Node, members: seq<NodeId>): Node {
    AppendLocal(n.(membership := Finalizing, finalIndex := |n.log| + 1), LeaveJoint(members))
  }

  predicate CanFinalize(n: Node) {
    n.role == Leader && n.config.joint.Some? && n.target.Some? && CaughtUp(n)
  }

  function ChangeDone(n: Node): Node {
    n.(membership := Stable, requested := None, requestPending := false, target := None, jointIndex := 0, finalIndex := 0)
  }

  function MembershipStep(n: Node): Node {
    match n.membership
    case Stable =>
      if HasChangeRequest(n) then BeginChange(n, n.requested.value) else n
    case JointPending =>
      if n.config.joint.Some? && n.config.index == n.jointIndex then n.(membership := Joint) else n
    case Joint =>
      if CanFinalize(n) then FinalizeChange(n, n.target.value) else n
    case Finalizing =>
      if n.config.joint.None? && n.finalIndex > 0 && n.config.index == n.finalIndex then
        ChangeDone(n)
      else n
  }

  // ---- Dump ----

  function Save(n: Node): Disk {
    Disk(Some(Meta(n.term, n.votedFor, n.config, n.commit, n.threshold)), n.log)
  }

  function Halt(n: Node): Node {
    n.(running := false, appends := [], voteRequests := [], voteReplies := [], outbox := [], votes := {}, leader := None,
       role := Follower, membership := Stable)
  }

  function JointWith(n: Node, target: seq<NodeId>): Node {
    n.(config := JointConfig(n.config.current, target, n.applied), requested := Some(target), requestPending := true,
       target := Some(target), jointIndex := n.applied, membership := Joint, dirty := true)
  }

  function StableWith(n: Node, members: seq<NodeId>): Node {
    n.(config := StableConfig(members, n.applied), requested := None, requestPending := false,
       target := None, finalIndex := n.applied, membership := Stable, dirty := true)
  }

  function ApplyCommand(n: Node, c: Command): (n': Node)
    ensures n'.log == n.log && n'.commit == n.commit && n'.applied == n.applied
  {
    match c
    case SetMaxLog(t) => n.(threshold := t, dirty := true)
    case EnterJoint(members) =>
      if n.applied <= n.config.index then n
      else
        RefreshPeers(JointWith(n, Normalize(members)))
    case LeaveJoint(members) =>
      if n.applied <= n.config.index then n
      else
        var n1 := RefreshPeers(StableWith(n, Normalize(members)));
        if IsVoting(n) && !IsVoting(n1) then Halt(n1) else n1
    case AppCommand(_, _, _) => n.(app := n.app + [c])
  }

  function ApplyNext(n: Node): (n': Node)
    requires n.applied < |n.log|
    ensures n'.log == n.log && n'.commit == n.commit && n'.applied == n.applied + 1
  {
    var n1 := n.(applied := n.applied + 1);
    ApplyCommand(n1, n1.log[n1.applied - 1].command)
  }

  function ApplyAll(n: Node): Node
    requires n.applied <= n.commit <= |n.log|
    decreases n.commit - n.applied
  {
    if n.applied < n.commit then ApplyAll(ApplyNext(n)) else n
  }

  // ---- Start ----

  function StoredConfig(n: Node, meta: Meta): Configuration {
    if meta.config.current == [] then StableConfig(n.initial, 0)
    else match meta.config.joint
         case None => StableConfig(meta.config.current, meta.config.index)
         case Some(target) => JointConfig(meta.config.current, target, meta.config.index)
  }

  /** Everything restart resets, but for the peers. */
  function Reloaded(n: Node, meta: Meta, log: Log, config: Configuration): Node {
    n.(running := true, role := Follower, term := meta.term, votedFor := meta.votedFor, log := log,
       commit := Min(meta.commit, |log|), applied := 0, leader := None, votes := {}, config := config,
       outbox := [], appends := [], voteRequests := [], voteReplies := [],
       requested := config.joint, requestPending := config.joint.Some?, target := config.joint,
       jointIndex := 0, finalIndex := 0, membership := if config.joint.Some? then Joint else Stable,
       threshold := meta.threshold, app := [], dirty := false, fault := false)
  }

  const NO_META := Meta(0, None, Configuration([], None, 0), 0, DEFAULT_THRESHOLD)

  function Load(n: Node, disk: Disk): Node {
    var meta, log := disk.meta.GetOr(NO_META), if disk.meta.Some? then disk.log else [];
    RefreshPeers(Reloaded(n, meta, log, StoredConfig(n, meta)))
  }
}
