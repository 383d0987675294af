/** Elections of the Python node: a candidate leads exactly when the votes it has taken are a majority, and
    it gets the vote of everybody who may give it. */
module Elections {
  import opened RaftTypes
  import opened Quorum
  import opened NodeSpec
  import opened TransitionTables
  import opened Replication

  // ---- Counting ----

  /** The replies before the first one of a later term. */
  function UpTo(replies: seq<Message>, term: nat): (heard: seq<Message>)
    ensures heard <= replies
  {
    if replies == [] || replies[0].term > term then [] else [replies[0]] + UpTo(replies[1..], term)
  }

  /** Who grants a vote of the term. */
  function Granters(replies: seq<Message>, term: nat): set<NodeId> {
    set m | m in replies && m.VoteReply? && m.granted && m.term == term :: m.source
  }

  /** Only a member counts votes. */
  function Electorate(n: Node, replies: seq<Message>): set<NodeId> {
    n.votes + if MemberOf(n.id, n.config) then Granters(replies, n.term) else {}
  }

  /** Role transitions, one for each clock. */
  function Polled(n: Node, clocks: seq<Clock>): Node
    decreases |clocks|
  {
    if clocks == [] || !Sorted(n) then n else Polled(RoleStep(n, clocks[0]), clocks[1..])
  }

  /** No deadline passes. */
  predicate InTime(clocks: seq<Clock>) {
    forall k :: 0 <= k < |clocks| ==> !clocks[k].electionDue
  }

  /** With nothing but vote replies in its queues. */
  predicate Polling(n: Node) {
    Sorted(n) && n.appends == [] && n.voteRequests == []
  }

  lemma CandidateStep(n: Node, clock: Clock)
    requires Polling(n) && n.role == Candidate && !clock.electionDue
    ensures RoleStep(n, clock) ==
              if MajorityOf(n.votes, n.config) then BecomeLeader(n.(role := Leader))
              else if n.voteReplies != [] then TakeVoteReply(n) else n
  {
    MajorityIs(n.votes, n.config);
    hide BecomeLeader, TakeVoteReply, ConfigQuorum, MajorityOf, IsVoting;
  }

  /** No earlier vote is lost, and a granted one of the term is in. */
  lemma VoteTaken(n: Node)
    requires Sorted(n) && n.voteReplies != [] && n.role == Candidate
    ensures var m, n' := n.voteReplies[0], TakeVoteReply(n);
            && n'.voteReplies == n.voteReplies[1..] && n'.id == n.id && n'.config == n.config
            && n'.appends == n.appends && n'.voteRequests == n.voteRequests
            && (m.term > n.term ==> n'.role == Follower && n'.term == m.term && n'.votes == {})
            && (m.term <= n.term ==>
                  && n'.role == Candidate && n'.term == n.term && n.votes <= n'.votes
                  && n'.votes == n.votes + if m.granted && m.term == n.term && MemberOf(n.id, n.config) then {m.source} else {})
  {
    VotingIs(n.(voteReplies := n.voteReplies[1..]));
    hide IsVoting, MemberOf;
  }

  lemma TakenOffice(n: Node)
    ensures var n' := BecomeLeader(n.(role := Leader));
            && n'.role == Leader && n'.term == n.term && n'.id == n.id
            && n'.appends == n.appends && n'.voteRequests == n.voteRequests && n'.voteReplies == n.voteReplies
  {
    hide AppendMessages;
  }

  /** A candidate that wins knows itself for the leader, expects every peer to have its log, counts nothing
      as held but by itself, and tells every peer, once and in order. */
  lemma Wins(n: Node, clock: Clock)
    requires Polling(n) && n.role == Candidate && !clock.electionDue && MajorityOf(n.votes, n.config)
    ensures var n' := RoleStep(n, clock);
            && n'.role == Leader && n'.leader == Some(n.id) && n'.log == n.log && n'.term == n.term && n'.commit == n.commit
            && n'.nextIndex == (map p | p in n.peers :: |n.log| + 1)
            && n'.matchIndex == (map p | p in n.peers :: 0)[n.id := |n.log|]
            && |n'.outbox| == |n.outbox| + |n.peers| && n.outbox <= n'.outbox
            && forall k :: 0 <= k < |n.peers| ==> n'.outbox[|n.outbox| + k] == Due(n', n.peers[k])
  {
    CandidateStep(n, clock);
    var e := Enthroned(n.(role := Leader));
    EachSent(e, e.peers);
    hide MajorityOf, AppendMessages, RoleStep, Due;
    DueAlike(e, SendAll(e, e.peers));
  }

  lemma DueAlike(n: Node, n': Node)
    requires n' == n.(outbox := n'.outbox, fault := n'.fault)
    ensures forall p :: p in n.nextIndex && 1 <= n.nextIndex[p] <= |n.log| + 1 ==> Due(n', p) == Due(n, p)
  {
  }

  lemma LeaderStep(n: Node, clock: Clock)
    requires Polling(n) && n.role == Leader
    ensures var n' := RoleStep(n, clock); n'.role == Leader && n'.term == n.term && Polling(n')
  {
    BroadcastKeeps(n);
    hide Broadcast, TakeAppend, TakeVoteRequest;
  }

  lemma BroadcastKeeps(n: Node)
    ensures var n' := Broadcast(n);
            && n'.role == n.role && n'.term == n.term && n'.appends == n.appends && n'.voteRequests == n.voteRequests
            && n'.voteReplies == n.voteReplies
  {
    hide AppendMessages;
  }

  lemma {:induction false} LeaderStays(n: Node, clocks: seq<Clock>)
    requires Polling(n) && n.role == Leader
    ensures Polled(n, clocks).role == Leader && Polled(n, clocks).term == n.term
    decreases |clocks|
  {
    hide RoleStep, Polling;
    if clocks != [] {
      SortedHere(n);
      LeaderStep(n, clocks[0]);
      LeaderStays(RoleStep(n, clocks[0]), clocks[1..]);
    }
  }

  lemma SortedHere(n: Node)
    requires Polling(n)
    ensures Sorted(n)
  {
  }

  lemma FollowerStep(n: Node, clock: Clock)
    requires Polling(n) && n.role == Follower && !clock.electionDue
    ensures var n' := RoleStep(n, clock); n'.role == Follower && n'.term == n.term && Polling(n')
  {
    hide IsVoting;
  }

  lemma {:induction false} FollowerStays(n: Node, clocks: seq<Clock>)
    requires Polling(n) && n.role == Follower && InTime(clocks)
    ensures Polled(n, clocks).role == Follower && Polled(n, clocks).term == n.term
    decreases |clocks|
  {
    hide RoleStep, Polling;
    if clocks != [] {
      SortedHere(n);
      FollowerStep(n, clocks[0]);
      FollowerStays(RoleStep(n, clocks[0]), clocks[1..]);
    }
  }

  lemma MoreVotes(a: set<NodeId>, b: set<NodeId>, c: Configuration)
    requires a <= b && MajorityOf(a, c)
    ensures MajorityOf(b, c)
  {
    CountMonotone(a, b, c.current);
    if c.joint.Some? { CountMonotone(a, b, c.joint.value); }
  }

  lemma HeardFirst(n: Node, n': Node)
    requires n.voteReplies != [] && n.voteReplies[0].VoteReply? && n.voteReplies[0].term <= n.term
    requires n'.voteReplies == n.voteReplies[1..] && n'.term == n.term && n'.id == n.id && n'.config == n.config
    requires var m := n.voteReplies[0];
             n'.votes == n.votes + if m.granted && m.term == n.term && MemberOf(n.id, n.config) then {m.source} else {}
    ensures UpTo(n.voteReplies, n.term) == [n.voteReplies[0]] + UpTo(n'.voteReplies, n.term)
    ensures Electorate(n', UpTo(n'.voteReplies, n.term)) == Electorate(n, UpTo(n.voteReplies, n.term))
  {
    var m, rest := n.voteReplies[0], UpTo(n'.voteReplies, n.term);
    assert Granters([m] + rest, n.term) == Granters(rest, n.term) + (if m.granted && m.term == n.term then {m.source} else {}) by {
      assert forall x :: x in [m] + rest <==> x == m || x in rest;
    }
    hide MemberOf;
  }

  /** A candidate whose deadline does not pass, with nothing but vote replies to take, leads its term after
      it has taken them if and only if its votes and those granted by the replies, up to the first one of a
      later term, are a majority of its configuration: of both lists in a joint phase, whatever their size.
      Without that majority it is still a candidate with just those votes, or a follower of the later term. */
  lemma {:induction false} ElectionDecided(n: Node, clocks: seq<Clock>)
    requires Polling(n) && n.role == Candidate && InTime(clocks) && |clocks| > |n.voteReplies|
    ensures var n', heard := Polled(n, clocks), UpTo(n.voteReplies, n.term);
            var votes := Electorate(n, heard);
            && (n'.role == Leader && n'.term == n.term <==> MajorityOf(votes, n.config))
            && (!MajorityOf(votes, n.config) && heard == n.voteReplies ==> n'.role == Candidate && n'.term == n.term && n'.votes == votes)
            && (!MajorityOf(votes, n.config) && heard != n.voteReplies ==> n'.role == Follower && n'.term > n.term)
    decreases |clocks|
  {
    hide RoleStep, MajorityOf, MemberOf, TakeVoteReply, BecomeLeader;
    var clock, later := clocks[0], clocks[1..];
    var heard := UpTo(n.voteReplies, n.term);
    CandidateStep(n, clock);
    assert Polled(n, clocks) == Polled(RoleStep(n, clock), later);
    if MajorityOf(n.votes, n.config) {
      MoreVotes(n.votes, Electorate(n, heard), n.config);
      TakenOffice(n);
      LeaderStays(RoleStep(n, clock), later);
    } else if n.voteReplies == [] {
      assert Granters([], n.term) == {} && Electorate(n, heard) == n.votes;
      StillCandidate(n, clocks);
    } else {
      VoteTaken(n);
      var n1 := TakeVoteReply(n);
      if n.voteReplies[0].term > n.term {
        assert Granters([], n.term) == {} && heard == [] && Electorate(n, heard) == n.votes;
        FollowerStays(n1, later);
      } else {
        HeardFirst(n, n1);
        ElectionDecided(n1, later);
      }
    }
  }

  /** Without replies and without a majority nothing changes. */
  lemma {:induction false} StillCandidate(n: Node, clocks: seq<Clock>)
    requires Polling(n) && n.role == Candidate && InTime(clocks) && n.voteReplies == [] && !MajorityOf(n.votes, n.config)
    ensures Polled(n, clocks) == n
    decreases |clocks|
  {
    hide RoleStep, MajorityOf;
    if clocks != [] {
      CandidateStep(n, clocks[0]);
      StillCandidate(n, clocks[1..]);
    }
  }

  // ---- Asking ----

  /** The last entry of a log is of a later term than another's, or of the same and the log is no shorter. */
  predicate NoOlder(log: Log, other: Log) {
    || other == []
    || (log != [] && (log[|log| - 1].term > other[|other| - 1].term
                      || (log[|log| - 1].term == other[|other| - 1].term && |log| >= |other|)))
  }

  /** Whether a node may vote for this candidate in this term: it is a member, has not voted for another in
      the term, and its last entry is not ahead of the candidate's. */
  predicate Willing(v: Node, term: nat, candidate: NodeId, log: Log) {
    && MemberOf(v.id, v.config) && v.term <= term
    && (v.term == term ==> v.votedFor == None || v.votedFor == Some(candidate))
    && NoOlder(log, v.log)
  }

  function Request(n: Node, peer: NodeId): Message {
    RequestVote(n.term, n.id, peer, |n.log|, if n.log == [] then 0 else n.log[|n.log| - 1].term)
  }

  /** A follower stands when its deadline passes, it is a member and no leader's message waits: in the next
      term, with its own vote, asking each peer once with its last index and term. */
  lemma Stands(n: Node, clock: Clock)
    requires Sorted(n) && n.role == Follower
    ensures var c := RoleStep(n, clock);
            && (c.role == Candidate <==> clock.electionDue && MemberOf(n.id, n.config) && n.appends == [])
            && (c.role == Candidate ==>
                  && c.term == n.term + 1 && c.votedFor == Some(n.id) && c.votes == {n.id} && c.leader == None && c.dirty
                  && c.id == n.id && c.log == n.log && c.config == n.config && c.peers == n.peers
                  && c.appends == n.appends && c.voteRequests == n.voteRequests && c.voteReplies == n.voteReplies
                  && |c.outbox| == |n.outbox| + |n.peers|
                  && forall k :: 0 <= k < |n.peers| ==> c.outbox[|n.outbox| + k] == Request(c, n.peers[k]))
  {
    FollowerChain(n, clock);
    FollowerRows(n, clock);
    hide RoleStep, BecomeCandidate, HandleAppendEntries, HandleRequestVote, MemberOf, Fire, AllFit;
    Campaign(n);
    if n.appends != [] { HeardRole(n); }
    if n.voteRequests != [] { AskedRole(n); }
  }

  lemma Campaign(n: Node)
    ensures var c := BecomeCandidate(n.(role := Candidate));
            && c.role == Candidate && c.term == n.term + 1 && c.votedFor == Some(n.id) && c.votes == {n.id} && c.leader == None && c.dirty
            && c.id == n.id && c.log == n.log && c.config == n.config && c.peers == n.peers
            && c.appends == n.appends && c.voteRequests == n.voteRequests && c.voteReplies == n.voteReplies
            && |c.outbox| == |n.outbox| + |n.peers|
            && forall k :: 0 <= k < |n.peers| ==> c.outbox[|n.outbox| + k] == Request(c, n.peers[k])
  {
    var s := Standing(n.(role := Candidate));
    EachAsked(s, s.peers);
    hide BallotRequests;
  }

  lemma {:induction false} EachAsked(n: Node, peers: seq<NodeId>)
    ensures |BallotRequests(n, peers)| == |peers|
    ensures forall k :: 0 <= k < |peers| ==> BallotRequests(n, peers)[k] == Request(n, peers[k])
  {
    if peers != [] { EachAsked(n, peers[1..]); }
  }

  lemma HeardRole(n: Node)
    requires Sorted(n) && n.role == Follower && n.appends != []
    ensures HandleAppendEntries(n.(appends := n.appends[1..]), n.appends[0]).role == Follower
  {
    var m := n.appends[0];
    var n1 := AdoptTerm(n.(appends := n.appends[1..]), m.term).(leader := Some(m.source));
    if AcceptsPrevious(n1, m) { TakenRole(n1, m); }
    hide AcceptsPrevious, AppendFromLeader;
  }

  lemma TakenRole(n: Node, m: Message)
    requires m.AppendEntries? && AcceptsPrevious(n, m)
    ensures AppendFromLeader(n, m).role == n.role
  {
  }

  lemma AskedRole(n: Node)
    requires Sorted(n) && n.role == Follower && n.voteRequests != []
    ensures HandleRequestVote(n.(voteRequests := n.voteRequests[1..]), n.voteRequests[0]).role == Follower
  {
    Adopted(n.(voteRequests := n.voteRequests[1..]), n.voteRequests[0].term);
    hide Grants, AdoptTerm;
  }

  lemma NoOlderIs(log: Log, other: Log)
    ensures UpToDate(|log|, if log == [] then 0 else log[|log| - 1].term, other) <==> NoOlder(log, other)
  {
  }

  lemma VoteAnswered(v: Node, c: Node)
    requires c.term <= v.term
    ensures var w := AnswerVote(v, Request(c, v.id));
            var granted := Willing(v, c.term, c.id, c.log);
            && w == v.(votedFor := w.votedFor, dirty := w.dirty, outbox := v.outbox + [VoteReply(v.term, v.id, c.id, granted)])
            && w.votedFor == (if granted then Some(c.id) else v.votedFor)
  {
    VotingIs(v);
    NoOlderIs(c.log, v.log);
    hide IsVoting, MemberOf, UpToDate, NoOlder;
  }

  /** A node asked for its vote adopts a later term, answers once, and grants if and only if it may; its
      vote is then the candidate's. */
  lemma Answered(v: Node, c: Node)
    ensures var w := HandleRequestVote(v, Request(c, v.id));
            var granted := Willing(v, c.term, c.id, c.log);
            && w.term == Max(v.term, c.term) && w.log == v.log
            && w.outbox == v.outbox + [VoteReply(w.term, v.id, c.id, granted)]
            && w.votedFor == (if granted then Some(c.id) else if v.term < c.term then None else v.votedFor)
            && (v.term < c.term ==> w.role == Follower && w.leader == None && w.votes == {})
  {
    Adopted(v, c.term);
    VoteAnswered(AdoptTerm(v, c.term), c);
    hide AdoptTerm, AnswerVote, MemberOf, NoOlder;
  }

  function Answer(v: Node, c: Node): (m: Message)
    ensures m.VoteReply?
  {
    var w := HandleRequestVote(v, Request(c, v.id));
    w.outbox[|w.outbox| - 1]
  }

  function Answers(voters: seq<Node>, c: Node): (ms: seq<Message>)
    ensures |ms| == |voters| && forall m :: m in ms ==> m.VoteReply?
  {
    if voters == [] then [] else [Answer(voters[0], c)] + Answers(voters[1..], c)
  }

  /** The nodes asked before the first one that is in a later term already. */
  function Reached(voters: seq<Node>, term: nat): seq<Node> {
    if voters == [] || voters[0].term > term then [] else [voters[0]] + Reached(voters[1..], term)
  }

  function Supporters(voters: seq<Node>, c: Node): set<NodeId> {
    set v | v in voters && Willing(v, c.term, c.id, c.log) :: v.id
  }

  lemma AnswerIs(v: Node, c: Node)
    ensures Answer(v, c) == VoteReply(Max(v.term, c.term), v.id, c.id, Willing(v, c.term, c.id, c.log))
  {
    Answered(v, c);
    hide HandleRequestVote, Willing;
  }

  lemma GrantersMore(m: Message, heard: seq<Message>, term: nat)
    ensures Granters([m] + heard, term) == Granters(heard, term) + if m.VoteReply? && m.granted && m.term == term then {m.source} else {}
  {
    assert forall x :: x in [m] + heard <==> x == m || x in heard;
  }

  lemma SupportersMore(v: Node, rest: seq<Node>, c: Node)
    ensures Supporters([v] + rest, c) == Supporters(rest, c) + if Willing(v, c.term, c.id, c.log) then {v.id} else {}
  {
    hide Willing;
    assert forall x :: x in [v] + rest <==> x == v || x in rest;
  }

  lemma {:induction false} Support(voters: seq<Node>, c: Node)
    ensures Granters(UpTo(Answers(voters, c), c.term), c.term) == Supporters(Reached(voters, c.term), c)
    decreases |voters|
  {
    hide Answer, Willing, Granters, Supporters;
    if voters == [] || voters[0].term > c.term {
      if voters != [] { AnswerIs(voters[0], c); }
      NoSupport(c);
    } else {
      var v, rest := voters[0], voters[1..];
      AnswerIs(v, c);
      Support(rest, c);
      GrantersMore(Answer(v, c), UpTo(Answers(rest, c), c.term), c.term);
      SupportersMore(v, Reached(rest, c.term), c);
      assert Answers(voters, c)[0] == Answer(v, c) && Answers(voters, c)[1..] == Answers(rest, c);
    }
  }

  lemma NoSupport(c: Node)
    ensures Granters([], c.term) == {} && Supporters([], c) == {}
  {
  }

  /** An election from the deadline to office: a member stands, some nodes answer, and after taking their
      answers it leads the new term if and only if it and those that may vote for it are a majority. */
  lemma ElectionHeld(n: Node, due: Clock, voters: seq<Node>, clocks: seq<Clock>)
    requires Polling(n) && n.role == Follower && n.voteReplies == [] && MemberOf(n.id, n.config) && due.electionDue
    requires InTime(clocks) && |clocks| > |voters|
    ensures var c := RoleStep(n, due);
            var c' := Polled(c.(voteReplies := Answers(voters, c)), clocks);
            && (forall p :: p in n.peers ==> Request(c, p) in c.outbox)
            && (c'.role == Leader && c'.term == n.term + 1 <==>
                  MajorityOf({n.id} + Supporters(Reached(voters, n.term + 1), c), n.config))
  {
    hide RoleStep, MajorityOf, Polled, MemberOf, Answers, Supporters, Request;
    Stands(n, due);
    var c := RoleStep(n, due);
    var c1 := c.(voteReplies := Answers(voters, c));
    Support(voters, c);
    ElectionDecided(c1, clocks);
    assert Electorate(c1, UpTo(c1.voteReplies, c1.term)) == {n.id} + Supporters(Reached(voters, n.term + 1), c);
    forall p | p in n.peers ensures Request(c, p) in c.outbox {
      var k :| 0 <= k < |n.peers| && n.peers[k] == p;
      assert c.outbox[|n.outbox| + k] == Request(c, p);
    }
  }
}
