/** The two transition tables as data, and a machine that fires the first row whose state and guard fit.
    The role and membership transitions of a tick are what it does with them. */
module TransitionTables {
  import opened RaftTypes
  import opened Quorum
  import opened NodeSpec

  // ---- Roles ----

  datatype Guard =
    | TimeoutExpired | HasAppendEntries | HasVoteRequest | HasHigherTermVoteRequest | HasVote
    | ReceivedMajorityVotes | TimeForHeartbeat

  datatype Action =
    | Stand | BackToFollower | Win | HandleNextAppendEntries | HandleNextVoteRequest | HandleNextVote
    | IgnoreVote | SendHeartbeat

  datatype Row = Row(source: Role, guard: Guard, target: Role, action: Action)

  const FOLLOWER_ROWS: seq<Row> := [
    Row(Follower, TimeoutExpired, Candidate, Stand),
    Row(Follower, HasAppendEntries, Follower, HandleNextAppendEntries),
    Row(Follower, HasVoteRequest, Follower, HandleNextVoteRequest),
    Row(Follower, HasVote, Follower, IgnoreVote)
  ]

  const CANDIDATE_ROWS: seq<Row> := [
    Row(Candidate, TimeoutExpired, Follower, BackToFollower),
    Row(Candidate, ReceivedMajorityVotes, Leader, Win),
    Row(Candidate, HasAppendEntries, Follower, HandleNextAppendEntries),
    Row(Candidate, HasHigherTermVoteRequest, Follower, HandleNextVoteRequest),
    Row(Candidate, HasVoteRequest, Candidate, HandleNextVoteRequest),
    Row(Candidate, HasVote, Candidate, HandleNextVote)
  ]

  const LEADER_ROWS: seq<Row> := [
    Row(Leader, HasAppendEntries, Follower, HandleNextAppendEntries),
    Row(Leader, HasHigherTermVoteRequest, Follower, HandleNextVoteRequest),
    Row(Leader, HasVoteRequest, Leader, HandleNextVoteRequest),
    Row(Leader, HasVote, Leader, IgnoreVote),
    Row(Leader, TimeForHeartbeat, Leader, SendHeartbeat)
  ]

  const ROLE_TABLE := FOLLOWER_ROWS + (CANDIDATE_ROWS + LEADER_ROWS)

  /** More than half of the positions of a list, and of the second list of a joint configuration. */
  predicate MajorityOf(votes: set<NodeId>, c: Configuration) {
    2 * CountIn(votes, c.current) > |c.current| && (c.joint.Some? ==> 2 * CountIn(votes, c.joint.value) > |c.joint.value|)
  }

  predicate MemberOf(id: NodeId, c: Configuration) {
    id in c.current || (c.joint.Some? && id in c.joint.value)
  }

  predicate Holds(g: Guard, n: Node, clock: Clock) {
    match g
    case TimeoutExpired => clock.electionDue && MemberOf(n.id, n.config) && |n.appends| == 0
    case HasAppendEntries => |n.appends| > 0
    case HasVoteRequest => |n.voteRequests| > 0
    case HasHigherTermVoteRequest => |n.voteRequests| > 0 && n.voteRequests[0].term > n.term
    case HasVote => |n.voteReplies| > 0
    case ReceivedMajorityVotes => MajorityOf(n.votes, n.config)
    case TimeForHeartbeat => clock.heartbeatDue
  }

  /** The action takes from the queue its guard has looked at. */
  predicate Fits(row: Row) {
    && (row.action.HandleNextAppendEntries? ==> row.guard.HasAppendEntries?)
    && (row.action.HandleNextVoteRequest? ==> row.guard.HasVoteRequest? || row.guard.HasHigherTermVoteRequest?)
    && (row.action.HandleNextVote? || row.action.IgnoreVote? ==> row.guard.HasVote?)
  }

  function Act(row: Row, n: Node, clock: Clock): Node
    requires Fits(row) && Holds(row.guard, n, clock) && Sorted(n)
  {
    var m := n.(role := row.target);
    match row.action
    case Stand => BecomeCandidate(m)
    case BackToFollower => m.(votes := {}, leader := None)
    case Win => BecomeLeader(m)
    case HandleNextAppendEntries => HandleAppendEntries(m.(appends := m.appends[1..]), m.appends[0])
    case HandleNextVoteRequest => HandleRequestVote(m.(voteRequests := m.voteRequests[1..]), m.voteRequests[0])
    case HandleNextVote => HandleVoteReply(m.(voteReplies := m.voteReplies[1..]), m.voteReplies[0])
    case IgnoreVote => m.(voteReplies := m.voteReplies[1..])
    case SendHeartbeat => Broadcast(m)
  }

  predicate AllFit(table: seq<Row>) {
    forall k :: 0 <= k < |table| ==> Fits(table[k])
  }

  /** The first row from the node's role whose guard holds; without one nothing happens. */
  function Fire(table: seq<Row>, n: Node, clock: Clock): Node
    requires Sorted(n) && AllFit(table)
  {
    if table == [] then n
    else if table[0].source == n.role && Holds(table[0].guard, n, clock) then Act(table[0], n, clock)
    else Fire(table[1..], n, clock)
  }

  lemma FireNext(row: Row, rest: seq<Row>, n: Node, clock: Clock)
    requires Sorted(n) && Fits(row) && AllFit(rest)
    ensures AllFit([row] + rest)
    ensures Fire([row] + rest, n, clock) ==
              if row.source == n.role && Holds(row.guard, n, clock) then Act(row, n, clock) else Fire(rest, n, clock)
  {
    assert ([row] + rest)[1..] == rest;
    hide Act, Holds;
  }

  /** Rows from other states are passed over. */
  lemma {:induction false} FireSkips(others: seq<Row>, rest: seq<Row>, n: Node, clock: Clock)
    requires Sorted(n) && AllFit(others) && AllFit(rest) && forall k :: 0 <= k < |others| ==> others[k].source != n.role
    ensures AllFit(others + rest) && Fire(others + rest, n, clock) == Fire(rest, n, clock)
  {
    if others == [] {
      assert others + rest == rest;
    } else {
      FireSkips(others[1..], rest, n, clock);
      assert others + rest == [others[0]] + (others[1..] + rest);
      FireNext(others[0], others[1..] + rest, n, clock);
    }
  }

  lemma TablesFit()
    ensures AllFit(FOLLOWER_ROWS) && AllFit(CANDIDATE_ROWS) && AllFit(LEADER_ROWS) && AllFit(ROLE_TABLE)
    ensures forall k :: 0 <= k < |FOLLOWER_ROWS| ==> FOLLOWER_ROWS[k].source == Follower
    ensures forall k :: 0 <= k < |CANDIDATE_ROWS| ==> CANDIDATE_ROWS[k].source == Candidate
    ensures forall k :: 0 <= k < |LEADER_ROWS| ==> LEADER_ROWS[k].source == Leader
  {
  }

  /** A member of either list votes. */
  lemma VotingIs(n: Node)
    ensures IsVoting(n) <==> MemberOf(n.id, n.config)
  {
    if n.config.joint.Some? { WithoutSpec(n.config.joint.value, n.config.current, n.id); }
    hide Without;
  }

  lemma MajorityIs(votes: set<NodeId>, c: Configuration)
    ensures ConfigQuorum(votes, c) <==> MajorityOf(votes, c)
  {
  }

  lemma FireAt(table: seq<Row>, k: nat, n: Node, clock: Clock)
    requires Sorted(n) && AllFit(table) && k < |table| && table[k].source == n.role
    ensures AllFit(table[k..]) && AllFit(table[k + 1..])
    ensures Fire(table[k..], n, clock) ==
              if Holds(table[k].guard, n, clock) then Act(table[k], n, clock) else Fire(table[k + 1..], n, clock)
  {
    assert table[k..] == [table[k]] + table[k + 1..];
    FireNext(table[k], table[k + 1..], n, clock);
    hide Sorted, Fits, Act, Holds, Fire;
  }

  lemma FireNone(table: seq<Row>, n: Node, clock: Clock)
    requires Sorted(n)
    ensures AllFit(table[|table|..]) && Fire(table[|table|..], n, clock) == n
  {
  }

  lemma FollowerChain(n: Node, clock: Clock)
    requires Sorted(n) && n.role == Follower
    ensures var t := FOLLOWER_ROWS;
            && |t| == 4 && AllFit(t)
            && Fire(t, n, clock) ==
                 if Holds(t[0].guard, n, clock) then Act(t[0], n, clock)
                 else if Holds(t[1].guard, n, clock) then Act(t[1], n, clock)
                 else if Holds(t[2].guard, n, clock) then Act(t[2], n, clock)
                 else if Holds(t[3].guard, n, clock) then Act(t[3], n, clock)
                 else n
  {
    TablesFit();
    var t := FOLLOWER_ROWS;
    assert |t| == 4 && t[0..] == t;
    hide Sorted, Fits, Act, Holds, Fire, FOLLOWER_ROWS, AllFit;
    FireAt(t, 0, n, clock);
    FireAt(t, 1, n, clock);
    FireAt(t, 2, n, clock);
    FireAt(t, 3, n, clock);
    FireNone(t, n, clock);
  }

  lemma CandidateChain(n: Node, clock: Clock)
    requires Sorted(n) && n.role == Candidate
    ensures var t := CANDIDATE_ROWS;
            && |t| == 6 && AllFit(t)
            && Fire(t, n, clock) ==
                 if Holds(t[0].guard, n, clock) then Act(t[0], n, clock)
                 else if Holds(t[1].guard, n, clock) then Act(t[1], n, clock)
                 else if Holds(t[2].guard, n, clock) then Act(t[2], n, clock)
                 else if Holds(t[3].guard, n, clock) then Act(t[3], n, clock)
                 else if Holds(t[4].guard, n, clock) then Act(t[4], n, clock)
                 else if Holds(t[5].guard, n, clock) then Act(t[5], n, clock)
                 else n
  {
    TablesFit();
    var t := CANDIDATE_ROWS;
    assert |t| == 6 && t[0..] == t;
    hide Sorted, Fits, Act, Holds, Fire, CANDIDATE_ROWS, AllFit;
    FireAt(t, 0, n, clock);
    FireAt(t, 1, n, clock);
    FireAt(t, 2, n, clock);
    FireAt(t, 3, n, clock);
    FireAt(t, 4, n, clock);
    FireAt(t, 5, n, clock);
    FireNone(t, n, clock);
  }

  lemma LeaderChain(n: Node, clock: Clock)
    requires Sorted(n) && n.role == Leader
    ensures var t := LEADER_ROWS;
            && |t| == 5 && AllFit(t)
            && Fire(t, n, clock) ==
                 if Holds(t[0].guard, n, clock) then Act(t[0], n, clock)
                 else if Holds(t[1].guard, n, clock) then Act(t[1], n, clock)
                 else if Holds(t[2].guard, n, clock) then Act(t[2], n, clock)
                 else if Holds(t[3].guard, n, clock) then Act(t[3], n, clock)
                 else if Holds(t[4].guard, n, clock) then Act(t[4], n, clock)
                 else n
  {
    TablesFit();
    var t := LEADER_ROWS;
    assert |t| == 5 && t[0..] == t;
    hide Sorted, Fits, Act, Holds, Fire, LEADER_ROWS, AllFit;
    FireAt(t, 0, n, clock);
    FireAt(t, 1, n, clock);
    FireAt(t, 2, n, clock);
    FireAt(t, 3, n, clock);
    FireAt(t, 4, n, clock);
    FireNone(t, n, clock);
  }

  lemma FollowerRows(n: Node, clock: Clock)
    requires Sorted(n) && n.role == Follower
    ensures AllFit(FOLLOWER_ROWS) && Fire(FOLLOWER_ROWS, n, clock) == RoleStep(n, clock)
  {
    FollowerChain(n, clock);
    VotingIs(n);
    assert n.(role := Follower) == n;
    hide IsVoting, MemberOf, BecomeCandidate, HandleAppendEntries, HandleRequestVote, Fire, AllFit, Sorted;
  }

  lemma CandidateRows(n: Node, clock: Clock)
    requires Sorted(n) && n.role == Candidate
    ensures AllFit(CANDIDATE_ROWS) && Fire(CANDIDATE_ROWS, n, clock) == RoleStep(n, clock)
  {
    CandidateChain(n, clock);
    VotingIs(n);
    MajorityIs(n.votes, n.config);
    assert n.(role := Candidate) == n;
    hide IsVoting, MemberOf, ConfigQuorum, MajorityOf, BecomeLeader, HandleAppendEntries, HandleRequestVote, HandleVoteReply,
         Fire, AllFit, Sorted;
    var t := CANDIDATE_ROWS;
    if Holds(t[0].guard, n, clock) || Holds(t[1].guard, n, clock) {
    } else if n.appends != [] {
    } else {
      CandidateQueues(n, clock);
    }
  }

  lemma CandidateQueues(n: Node, clock: Clock)
    requires Sorted(n) && n.role == Candidate && n.appends == []
    requires !Holds(TimeoutExpired, n, clock) && !Holds(ReceivedMajorityVotes, n, clock)
    ensures AllFit(CANDIDATE_ROWS) && Fire(CANDIDATE_ROWS, n, clock) == RoleStep(n, clock)
  {
    CandidateChain(n, clock);
    VotingIs(n);
    MajorityIs(n.votes, n.config);
    assert n.(role := Candidate) == n;
    hide IsVoting, MemberOf, ConfigQuorum, MajorityOf, BecomeLeader, HandleAppendEntries, HandleRequestVote, HandleVoteReply,
         Fire, AllFit, Sorted;
  }

  lemma LeaderRows(n: Node, clock: Clock)
    requires Sorted(n) && n.role == Leader
    ensures AllFit(LEADER_ROWS) && Fire(LEADER_ROWS, n, clock) == RoleStep(n, clock)
  {
    LeaderChain(n, clock);
    assert n.(role := Leader) == n;
    hide Broadcast, HandleAppendEntries, HandleRequestVote, Fire, AllFit, Sorted;
    if n.appends == [] { LeaderQueues(n, clock); }
  }

  lemma LeaderQueues(n: Node, clock: Clock)
    requires Sorted(n) && n.role == Leader && n.appends == []
    ensures AllFit(LEADER_ROWS) && Fire(LEADER_ROWS, n, clock) == RoleStep(n, clock)
  {
    LeaderChain(n, clock);
    assert n.(role := Leader) == n;
    hide Broadcast, HandleAppendEntries, HandleRequestVote, Fire, AllFit, Sorted;
  }

  /** The role transition of a tick is the table's first enabled row. */
  lemma RoleTable(n: Node, clock: Clock)
    requires Sorted(n)
    ensures AllFit(ROLE_TABLE) && RoleStep(n, clock) == Fire(ROLE_TABLE, n, clock)
  {
    TablesFit();
    var f, c, l := FOLLOWER_ROWS, CANDIDATE_ROWS, LEADER_ROWS;
    assert f + [] == f && c + [] == c && l + [] == l && f + (c + l) == (f + c) + l;
    hide Fire, RoleStep, AllFit, FOLLOWER_ROWS, CANDIDATE_ROWS, LEADER_ROWS, Sorted;
    match n.role
    case Follower =>
      FollowerRows(n, clock);
      RowsThen(f, c + l, n, clock);
    case Candidate =>
      CandidateRows(n, clock);
      FireSkips(f, c + l, n, clock);
      RowsThen(c, l, n, clock);
    case Leader =>
      LeaderRows(n, clock);
      FireSkips(f, c + l, n, clock);
      FireSkips(c, l, n, clock);
  }

  /** Rows from other states after the node's own change nothing. */
  lemma {:induction false} RowsThen(rows: seq<Row>, others: seq<Row>, n: Node, clock: Clock)
    requires Sorted(n) && AllFit(rows) && AllFit(others) && forall k :: 0 <= k < |others| ==> others[k].source != n.role
    ensures AllFit(rows + others) && Fire(rows + others, n, clock) == Fire(rows, n, clock)
  {
    if rows == [] {
      assert rows + others == others && others + [] == others;
      FireSkips(others, [], n, clock);
    } else {
      RowsThen(rows[1..], others, n, clock);
      assert rows + others == [rows[0]] + (rows[1..] + others) && rows == [rows[0]] + rows[1..];
      FireNext(rows[0], rows[1..] + others, n, clock);
      FireNext(rows[0], rows[1..], n, clock);
    }
  }
}
