/** The Python RaftNode as the object it is: fields updated in place by its methods, each proved to
    compute what NodeSpec says. One call of Tick is one tick of the cluster model. */
module RaftNode {
  import opened RaftTypes
  import opened Quorum
  import opened LogMerge
  import opened Members
  import opened NodeSpec
  import opened NodeLocal
  import opened Cluster

  /** Two files, each replaced as a whole. */
  class JsonFileStorage {
    var meta: Option<Meta>
    var log: Log

    constructor ()
      ensures Contents() == Disk(None, [])
    {
      meta, log := None, [];
    }

    ghost function Contents(): Disk
      reads this
    {
      Disk(meta, log)
    }

    method ReplaceMeta(m: Meta)
      modifies this`meta
      ensures Contents() == Disk(Some(m), old(log))
    {
      meta := Some(m);
    }

    method ReplaceLog(entries: Log)
      modifies this`log
      ensures Contents() == Disk(old(meta), entries)
    {
      log := entries;
    }

    method Save(m: Meta, entries: Log)
      modifies this
      ensures Contents() == Disk(Some(m), entries)
    {
      ReplaceMeta(m);
      ReplaceLog(entries);
    }

    method Load() returns (m: Meta, entries: Log)
      ensures m == meta.GetOr(NO_META)
      ensures entries == if meta.Some? then log else []
    {
      m := meta.GetOr(NO_META);
      entries := if meta.Some? then log else [];
    }
  }

  method NormalizeMembers(members: seq<NodeId>) returns (r: seq<NodeId>)
    ensures r == Normalize(members)
  {
    var distinct := [];
    for i := 0 to |members|
      invariant distinct == Distinct(members[..i])
    {
      assert members[..i + 1][..|members[..i + 1]| - 1] == members[..i];
      if members[i] != "" && members[i] !in distinct {
        distinct := distinct + [members[i]];
      }
    }
    assert members[..|members|] == members;
    r := Sort(distinct);
  }

  method AllMembersOf(c: Configuration) returns (r: seq<NodeId>)
    ensures r == AllMembers(c)
  {
    r := c.current;
    if c.joint.Some? {
      var added := c.joint.value;
      for i := 0 to |added|
        invariant AllMembers(c) == r + Without(added[i..], r)
      {
        if added[i] !in r {
          r := r + [added[i]];
        }
      }
    }
  }

  method HasVotes(votes: set<NodeId>, members: seq<NodeId>) returns (ok: bool)
    ensures ok <==> HasQuorum(votes, members)
  {
    var count := 0;
    for i := 0 to |members|
      invariant count + CountIn(votes, members[i..]) == CountIn(votes, members)
    {
      if members[i] in votes {
        count := count + 1;
      }
    }
    ok := count >= Majority(members);
  }

  class RaftNode {
    const nodeId: NodeId
    const initialMembers: seq<NodeId>
    const storage: JsonFileStorage
    var running: bool
    var role: Role
    var currentTerm: nat
    var votedFor: Option<NodeId>
    var log: Log
    var commitIndex: nat
    var lastApplied: nat
    var leaderId: Option<NodeId>
    var votesReceived: set<NodeId>
    var configState: Configuration
    var peers: seq<NodeId>
    var nextIndex: map<NodeId, nat>
    var matchIndex: map<NodeId, nat>
    var outbox: seq<Message>
    var pendingAppendEntries: seq<Message>
    var pendingVoteRequests: seq<Message>
    var pendingVotes: seq<Message>
    var requestedChange: Option<seq<NodeId>>
    var requestedChangePending: bool
    var pendingMembers: Option<seq<NodeId>>
    var jointConfigIndex: nat
    var finalConfigIndex: nat
    var membershipState: Membership
    var compactionThreshold: int
    var application: seq<Command>
    var persistDirty: bool
    /** Stands for an exception: IndexError or KeyError while answering. */
    var raised: bool

    /** A node starts from what its storage holds; on an empty storage it is the fresh node of the cluster model. */
    constructor (id: NodeId, members: seq<NodeId>, files: JsonFileStorage)
      ensures nodeId == id && initialMembers == members && storage == files
      ensures files.Contents() == NO_DISK ==> State() == Fresh(id, members)
    {
      nodeId, initialMembers, storage := id, members, files;
      running, role, currentTerm, votedFor, log, commitIndex, lastApplied := true, Follower, 0, None, [], 0, 0;
      leaderId, votesReceived, configState, peers := None, {}, StableConfig(members, 0), [];
      nextIndex, matchIndex, outbox := map[], map[], [];
      pendingAppendEntries, pendingVoteRequests, pendingVotes := [], [], [];
      requestedChange, requestedChangePending, pendingMembers, jointConfigIndex, finalConfigIndex := None, false, None, 0, 0;
      membershipState, compactionThreshold, application, persistDirty, raised := Stable, DEFAULT_THRESHOLD, [], false, false;
      new;
      hide Load, StableConfig;
      Start();
    }

    ghost function State(): Node
      reads this
    {
      Node(nodeId, initialMembers, running, role, currentTerm, votedFor, log, commitIndex, lastApplied, leaderId, votesReceived,
           configState, peers, nextIndex, matchIndex, outbox, pendingAppendEntries, pendingVoteRequests, pendingVotes,
           requestedChange, requestedChangePending, pendingMembers, jointConfigIndex, finalConfigIndex, membershipState,
           compactionThreshold, application, persistDirty, raised)
    }

    // ---- Terms and votes ----

    method StepDownToFollower()
      modifies `votesReceived, `role
      ensures votesReceived == {} && role == Follower
    {
      votesReceived := {};
      role := Follower;
    }

    method HandleTermUpdate(term: nat)
      modifies `currentTerm, `votedFor, `leaderId, `persistDirty, `votesReceived, `role
      ensures term > old(currentTerm) ==>
                currentTerm == term && votedFor == None && leaderId == None && persistDirty && votesReceived == {} && role == Follower
      ensures term <= old(currentTerm) ==> unchanged(this)
    {
      if term > currentTerm {
        currentTerm, votedFor, leaderId, persistDirty := term, None, None, true;
        StepDownToFollower();
      }
    }

    method AdoptTerm(term: nat)
      modifies `currentTerm, `votedFor, `leaderId, `persistDirty, `votesReceived, `role
      ensures State() == NodeSpec.AdoptTerm(old(State()), term)
    {
      HandleTermUpdate(term);
    }

    method IsVotingMember() returns (ok: bool)
      ensures ok <==> nodeId in AllMembers(configState)
    {
      var all := AllMembersOf(configState);
      ok := nodeId in all;
    }

    method CandidateIsUpToDate(lastIndex: nat, lastTerm: nat) returns (ok: bool)
      ensures ok <==> UpToDate(lastIndex, lastTerm, log)
    {
      var myTerm := if |log| > 0 then log[|log| - 1].term else 0;
      if lastTerm != myTerm {
        return lastTerm > myTerm;
      }
      ok := lastIndex >= |log|;
    }

    /** The vote, once the term of the request has been adopted. */
    method Vote(m: Message)
      requires m.RequestVote?
      modifies `votedFor, `persistDirty, `outbox
      ensures var granted := nodeId in AllMembers(configState) && m.term == currentTerm
                && (old(votedFor) == None || old(votedFor) == Some(m.source)) && UpToDate(m.lastIndex, m.lastTerm, log);
              && votedFor == (if granted then Some(m.source) else old(votedFor)) && persistDirty == (old(persistDirty) || granted)
              && outbox == old(outbox) + [VoteReply(currentTerm, nodeId, m.source, granted)]
    {
      hide UpToDate, AllMembers;
      var granted := false;
      var voting := IsVotingMember();
      if voting && m.term == currentTerm {
        var upToDate := CandidateIsUpToDate(m.lastIndex, m.lastTerm);
        if (votedFor == None || votedFor == Some(m.source)) && upToDate {
          votedFor, persistDirty, granted := Some(m.source), true, true;
        }
      }
      outbox := outbox + [VoteReply(currentTerm, nodeId, m.source, granted)];
    }

    method HandleRequestVote(m: Message)
      requires m.RequestVote?
      modifies `currentTerm, `votedFor, `leaderId, `persistDirty, `votesReceived, `role, `outbox
      ensures State() == NodeSpec.HandleRequestVote(old(State()), m)
    {
      hide NodeSpec.AdoptTerm, AnswerVote;
      AdoptTerm(m.term);
      Reply(m);
    }

    method Reply(m: Message)
      requires m.RequestVote?
      modifies `votedFor, `persistDirty, `outbox
      ensures State() == AnswerVote(old(State()), m)
    {
      hide UpToDate, AllMembers;
      Vote(m);
    }

    method HandleRequestVoteResponse(m: Message)
      requires m.VoteReply?
      modifies `currentTerm, `votedFor, `leaderId, `persistDirty, `votesReceived, `role
      ensures State() == HandleVoteReply(old(State()), m)
    {
      hide AllMembers;
      HandleTermUpdate(m.term);
      CountVote(m);
    }

    method CountVote(m: Message)
      requires m.VoteReply?
      modifies `votesReceived
      ensures var counts := nodeId in AllMembers(configState) && role == Candidate && m.term == currentTerm && m.granted;
              votesReceived == if counts then old(votesReceived) + {m.source} else old(votesReceived)
    {
      var voting := IsVotingMember();
      if !voting || role != Candidate || m.term != currentTerm {
        return;
      }
      if m.granted {
        votesReceived := votesReceived + {m.source};
      }
    }

    method AskForVotes()
      modifies `outbox
      ensures outbox == old(outbox) + BallotRequests(old(State()), peers)
    {
      ghost var was := State();
      for i := 0 to |peers|
        invariant outbox + BallotRequests(was, peers[i..]) == old(outbox) + BallotRequests(was, peers)
      {
        outbox := outbox + [RequestVote(currentTerm, nodeId, peers[i], |log|, LastTerm(log))];
      }
    }

    method BecomeCandidate()
      modifies `currentTerm, `votedFor, `votesReceived, `leaderId, `persistDirty, `outbox
      ensures State() == NodeSpec.BecomeCandidate(old(State()))
    {
      hide BallotRequests, Standing;
      Stand();
      AskForVotes();
    }

    method Stand()
      modifies `currentTerm, `votedFor, `votesReceived, `leaderId, `persistDirty
      ensures State() == Standing(old(State()))
    {
      NextTerm();
    }

    method NextTerm()
      modifies `currentTerm, `votedFor, `votesReceived, `leaderId, `persistDirty
      ensures currentTerm == old(currentTerm) + 1 && votedFor == Some(nodeId) && votesReceived == {nodeId} && leaderId == None
      ensures persistDirty
    {
      currentTerm := currentTerm + 1;
      votedFor, votesReceived, leaderId, persistDirty := Some(nodeId), {nodeId}, None, true;
    }

    // ---- Replication ----

    method SendAppendEntries(peer: NodeId)
      modifies `outbox, `raised
      ensures State() == SendTo(old(State()), peer)
    {
      var next := if peer in nextIndex then nextIndex[peer] else |log| + 1;
      if next < 1 { next := 1; }
      if next > |log| + 1 {
        raised := true;
        return;
      }
      var prev := next - 1;
      outbox := outbox + [AppendEntries(currentTerm, nodeId, peer, prev, TermAt(log, prev), CreatorAt(log, prev), log[prev..], commitIndex)];
      hide TermAt, CreatorAt;
    }

    method BroadcastAppendEntries()
      modifies `outbox, `raised
      ensures State() == Broadcast(old(State()))
    {
      hide SendTo, SendAll;
      ghost var was := State();
      SendNone(was);
      for i := 0 to |peers|
        invariant State() == SendAll(was, peers[..i])
      {
        assert peers[..i + 1] == peers[..i] + [peers[i]];
        SendAllThen(was, peers[..i], peers[i]);
        SendAppendEntries(peers[i]);
      }
      assert peers[..|peers|] == was.peers;
    }

    method TakeOffice()
      modifies `leaderId, `nextIndex, `matchIndex
      ensures leaderId == Some(nodeId) && nextIndex == (map p | p in peers :: |log| + 1)
      ensures matchIndex == (map p | p in peers :: 0)[nodeId := |log|]
    {
      leaderId := Some(nodeId);
      var last := |log|;
      nextIndex := map p | p in peers :: last + 1;
      matchIndex := map p | p in peers :: 0;
      matchIndex := matchIndex[nodeId := last];
    }

    method BecomeLeader()
      modifies `leaderId, `nextIndex, `matchIndex, `outbox, `raised
      ensures State() == NodeSpec.BecomeLeader(old(State()))
    {
      ghost var n := State();
      hide SendAll;
      TakeOffice();
      assert State() == n.(leader := Some(n.id), nextIndex := map p | p in n.peers :: |n.log| + 1,
                           matchIndex := (map p | p in n.peers :: 0)[n.id := |n.log|]);
      BroadcastAppendEntries();
    }

    method ReplicatedOn(candidate: nat, members: seq<NodeId>) returns (ok: bool)
      ensures ok <==> HasQuorum(HeldBy(State(), candidate), members)
    {
      var replicated := 0;
      for i := 0 to |members|
        invariant replicated + CountIn(HeldBy(State(), candidate), members[i..]) == CountIn(HeldBy(State(), candidate), members)
      {
        assert members[i..][0] == members[i] && members[i..][1..] == members[i + 1..];
        assert members[i] in HeldBy(State(), candidate) <==>
            if members[i] == nodeId then |log| >= candidate else members[i] in matchIndex && matchIndex[members[i]] >= candidate;
        if members[i] == nodeId {
          if |log| >= candidate { replicated := replicated + 1; }
        } else if members[i] in matchIndex && matchIndex[members[i]] >= candidate {
          replicated := replicated + 1;
        }
      }
      ok := replicated >= Majority(members);
    }

    method IsCommitted(candidate: nat) returns (ok: bool)
      ensures ok <==> ConfigQuorum(HeldBy(State(), candidate), configState)
    {
      ok := ReplicatedOn(candidate, configState.current);
      if ok && configState.joint.Some? {
        ok := ReplicatedOn(candidate, configState.joint.value);
      }
    }

    /** The downward scan for the highest committed index of the current term. */
    method HighestCommitted() returns (c: nat)
      ensures c == CommitScan(State(), |log|)
    {
      c := |log|;
      hide HeldBy, ConfigQuorum;
      while c > commitIndex
        invariant c <= |log| && CommitScan(State(), |log|) == CommitScan(State(), c)
      {
        if log[c - 1].term == currentTerm {
          var committed := IsCommitted(c);
          if committed { return; }
        }
        c := c - 1;
      }
      c := commitIndex;
    }

    method AdvanceCommitIndex()
      modifies `commitIndex, `persistDirty
      ensures State() == AdvanceCommit(old(State()))
    {
      hide CommitScan;
      var c := HighestCommitted();
      if c != commitIndex { CommitAt(c); }
    }

    method CommitAt(c: nat)
      modifies `commitIndex, `persistDirty
      ensures commitIndex == c && persistDirty
    {
      commitIndex, persistDirty := c, true;
    }

    method PutEntry(c: Command)
      modifies `log, `persistDirty, `matchIndex
      ensures var e := Entry(|old(log)| + 1, currentTerm, c, nodeId);
              log == old(log) + [e] && matchIndex == old(matchIndex)[nodeId := e.index] && persistDirty
    {
      var entry := Entry(|log| + 1, currentTerm, c, nodeId);
      log, persistDirty := log + [entry], true;
      matchIndex := matchIndex[nodeId := entry.index];
    }

    method AppendClientCommand(c: Command)
      modifies `log, `persistDirty, `matchIndex, `commitIndex, `outbox, `raised
      ensures State() == AppendLocal(old(State()), c)
    {
      hide AdvanceCommit, Broadcast;
      ghost var n := State();
      PutEntry(c);
      ghost var e := Entry(|n.log| + 1, n.term, c, n.id);
      assert State() == n.(log := n.log + [e], dirty := true, matchIndex := n.matchIndex[n.id := e.index]);
      AdvanceCommitIndex();
      BroadcastAppendEntries();
    }

    /** The merge loop: a conflicting entry cuts the log, the next entry extends it, others are skipped. */
    method MergeEntries(entries: Log) returns (rebuild: bool, ghost changed: bool)
      modifies `log, `persistDirty
      ensures Merge(Merged(old(log), false, false), entries, lastApplied) == Merged(log, rebuild, changed)
      ensures persistDirty == (old(persistDirty) || changed)
    {
      rebuild, changed := false, false;
      for i := 0 to |entries|
        invariant persistDirty == (old(persistDirty) || changed)
        invariant Merge(Merged(log, rebuild, changed), entries[i..], lastApplied)
               == Merge(Merged(old(log), false, false), entries, lastApplied)
      {
        var entry := entries[i];
        assert entries[i..][0] == entry && entries[i..][1..] == entries[i + 1..];
        ghost var before := Merged(log, rebuild, changed);
        if 0 < entry.index <= |log| {
          var conflict := log[entry.index - 1].term != entry.term;
          if !conflict && entry.creator != "" {
            conflict := log[entry.index - 1].creator != entry.creator;
          }
          if conflict {
            if entry.index <= lastApplied { rebuild := true; }
            log, persistDirty, changed := log[..entry.index - 1], true, true;
          }
        }
        if entry.index == |log| + 1 {
          log, persistDirty, changed := log + [entry], true, true;
        }
        assert Merged(log, rebuild, changed) == MergeOne(before, entry, lastApplied);
      }
    }

    /** Commit index and application after a merge. */
    method SettleCommit(leaderCommit: nat, rebuild: bool)
      modifies `persistDirty, `commitIndex, `application, `lastApplied
      ensures commitIndex == NextCommit(old(commitIndex), leaderCommit, |log|, rebuild)
      ensures application == (if rebuild then [] else old(application)) && lastApplied == (if rebuild then 0 else old(lastApplied))
      ensures persistDirty == (old(persistDirty) || rebuild || leaderCommit > old(commitIndex) || old(commitIndex) > |log|)
    {
      if rebuild {
        commitIndex := Min(leaderCommit, |log|);
        application, lastApplied, persistDirty := [], 0, true;
      } else if leaderCommit > commitIndex {
        commitIndex, persistDirty := Min(leaderCommit, |log|), true;
      } else if commitIndex > |log| {
        commitIndex, persistDirty := |log|, true;
      }
    }

    method ChecksPrevious(m: Message) returns (ok: bool)
      requires m.AppendEntries?
      ensures ok <==> AcceptsPrevious(State(), m)
    {
      if m.prevIndex > |log| { return false; }
      if m.prevIndex > 0 && log[m.prevIndex - 1].term != m.prevTerm { return false; }
      if m.prevIndex > 0 && m.prevCreator != "" && log[m.prevIndex - 1].creator != m.prevCreator { return false; }
      ok := true;
    }

    method AppendEntriesFromLeader(m: Message) returns (success: bool)
      requires m.AppendEntries?
      modifies `log, `persistDirty, `commitIndex, `application, `lastApplied
      ensures success <==> AcceptsPrevious(old(State()), m)
      ensures State() == if success then AppendFromLeader(old(State()), m) else old(State())
    {
      hide AcceptsPrevious, Merge, NextCommit;
      success := ChecksPrevious(m);
      if success { MergeAndSettle(m); }
    }

    method MergeAndSettle(m: Message)
      requires m.AppendEntries? && AcceptsPrevious(State(), m)
      modifies `log, `persistDirty, `commitIndex, `application, `lastApplied
      ensures State() == AppendFromLeader(old(State()), m)
    {
      hide AcceptsPrevious, Merge, NextCommit;
      var rebuild, changed := MergeEntries(m.entries);
      SettleCommit(m.leaderCommit, rebuild);
    }

    method HandleAppendEntries(m: Message)
      requires m.AppendEntries?
      modifies `currentTerm, `votedFor, `leaderId, `persistDirty, `votesReceived, `role
      modifies `log, `commitIndex, `application, `lastApplied, `outbox
      ensures State() == NodeSpec.HandleAppendEntries(old(State()), m)
    {
      hide NodeSpec.AdoptTerm, AnswerAppend;
      AdoptTerm(m.term);
      Answer(m);
    }

    method Answer(m: Message)
      requires m.AppendEntries?
      modifies `leaderId, `persistDirty, `log, `commitIndex, `application, `lastApplied, `outbox
      ensures State() == AnswerAppend(old(State()), m)
    {
      hide AcceptsPrevious, AppendFromLeader;
      var success := false;
      if m.term == currentTerm {
        leaderId := Some(m.source);
        assert State() == old(State()).(leader := Some(m.source));
        success := AppendEntriesFromLeader(m);
      }
      outbox := outbox + [AppendReply(currentTerm, nodeId, m.source, success, |log|)];
    }

    method HandleAppendEntriesResponse(m: Message)
      requires m.AppendReply?
      modifies `currentTerm, `votedFor, `leaderId, `persistDirty, `votesReceived, `role
      modifies `matchIndex, `nextIndex, `commitIndex, `outbox, `raised
      ensures State() == HandleAppendReply(old(State()), m)
    {
      hide NodeSpec.AdoptTerm, RecordReply;
      AdoptTerm(m.term);
      Record(m);
    }

    method Record(m: Message)
      requires m.AppendReply?
      modifies `persistDirty, `matchIndex, `nextIndex, `commitIndex, `outbox, `raised
      ensures State() == RecordReply(old(State()), m)
    {
      if role != Leader || m.term != currentTerm { return; }
      hide AdvanceCommit, SendTo, BackOff;
      if m.success {
        Acknowledged(m);
      } else {
        Rejected(m.source);
      }
    }

    method Acknowledged(m: Message)
      requires m.AppendReply?
      modifies `matchIndex, `nextIndex, `commitIndex, `persistDirty
      ensures var n := old(State());
              State() == AdvanceCommit(n.(matchIndex := n.matchIndex[m.source := m.matchIndex],
                                          nextIndex := n.nextIndex[m.source := m.matchIndex + 1]))
    {
      hide AdvanceCommit;
      ghost var n := State();
      Acknowledge(m.source, m.matchIndex);
      assert State() == n.(matchIndex := n.matchIndex[m.source := m.matchIndex], nextIndex := n.nextIndex[m.source := m.matchIndex + 1]);
      AdvanceCommitIndex();
    }

    method Rejected(peer: NodeId)
      modifies `nextIndex, `outbox, `raised
      ensures var n := old(State());
              State() == if peer !in n.nextIndex then n.(fault := true)
                         else SendTo(n.(nextIndex := n.nextIndex[peer := BackOff(n.nextIndex[peer])]), peer)
    {
      hide SendTo;
      ghost var n := State();
      if peer !in nextIndex {
        raised := true;
        return;
      }
      nextIndex := nextIndex[peer := if nextIndex[peer] <= 2 then 1 else nextIndex[peer] - 1];
      assert State() == n.(nextIndex := n.nextIndex[peer := BackOff(n.nextIndex[peer])]);
      SendAppendEntries(peer);
    }

    method Acknowledge(peer: NodeId, index: nat)
      modifies `matchIndex, `nextIndex
      ensures matchIndex == old(matchIndex)[peer := index] && nextIndex == old(nextIndex)[peer := index + 1]
    {
      matchIndex := matchIndex[peer := index];
      nextIndex := nextIndex[peer := index + 1];
    }

    // ---- Inputs ----

    method Latch(inbox: seq<Message>, commands: seq<Command>)
      modifies this
      ensures State() == NodeSpec.Latch(old(State()), inbox, commands)
    {
      hide Receive, AppendLocal;
      ghost var was := State();
      for i := 0 to |inbox|
        invariant ReceiveAll(State(), inbox[i..]) == ReceiveAll(was, inbox)
      {
        assert inbox[i..][0] == inbox[i] && inbox[i..][1..] == inbox[i + 1..];
        LatchMessage(inbox[i]);
      }
      assert inbox[|inbox|..] == [];
      ghost var latched := State();
      if role == Leader {
        for i := 0 to |commands|
          invariant AppendAll(State(), commands[i..]) == AppendAll(latched, commands)
        {
          assert commands[i..][0] == commands[i] && commands[i..][1..] == commands[i + 1..];
          AppendClientCommand(commands[i]);
        }
        assert commands[|commands|..] == [];
      }
    }

    method LatchMessage(m: Message)
      modifies this
      ensures State() == Receive(old(State()), m)
    {
      hide HandleAppendReply;
      match m {
        case AppendEntries(_, _, _, _, _, _, _, _) => pendingAppendEntries := pendingAppendEntries + [m];
        case RequestVote(_, _, _, _, _) => pendingVoteRequests := pendingVoteRequests + [m];
        case VoteReply(_, _, _, _) => pendingVotes := pendingVotes + [m];
        case AppendReply(_, _, _, _, _) => HandleAppendEntriesResponse(m);
      }
    }

    // ---- Role transitions ----

    method HandleNextAppendEntries()
      requires Sorted(State()) && pendingAppendEntries != []
      modifies this
      ensures State() == TakeAppend(old(State()))
    {
      hide NodeSpec.HandleAppendEntries;
      ghost var n := State();
      var m := pendingAppendEntries[0];
      pendingAppendEntries := pendingAppendEntries[1..];
      assert State() == n.(appends := n.appends[1..]);
      HandleAppendEntries(m);
    }

    method HandleNextVoteRequest()
      requires Sorted(State()) && pendingVoteRequests != []
      modifies this
      ensures State() == TakeVoteRequest(old(State()))
    {
      hide NodeSpec.HandleRequestVote;
      ghost var n := State();
      var m := pendingVoteRequests[0];
      pendingVoteRequests := pendingVoteRequests[1..];
      assert State() == n.(voteRequests := n.voteRequests[1..]);
      HandleRequestVote(m);
    }

    method HandleNextVote()
      requires Sorted(State()) && pendingVotes != []
      modifies this
      ensures State() == TakeVoteReply(old(State()))
    {
      hide HandleVoteReply;
      ghost var n := State();
      var m := pendingVotes[0];
      pendingVotes := pendingVotes[1..];
      assert State() == n.(voteReplies := n.voteReplies[1..]);
      HandleRequestVoteResponse(m);
    }

    method IgnoreVote()
      requires pendingVotes != []
      modifies `pendingVotes
      ensures State() == old(State()).(voteReplies := old(pendingVotes)[1..])
    {
      pendingVotes := pendingVotes[1..];
    }

    method SetRole(r: Role)
      modifies `role
      ensures State() == old(State()).(role := r)
    {
      role := r;
    }

    method BackToFollower()
      modifies `role, `votesReceived, `leaderId
      ensures role == Follower && votesReceived == {} && leaderId == None
    {
      role := Follower;
      votesReceived, leaderId := {}, None;
    }

    method TimeoutExpired(clock: Clock) returns (ok: bool)
      ensures ok <==> TimedOut(State(), clock)
    {
      var voting := IsVotingMember();
      ok := voting && clock.electionDue && pendingAppendEntries == [];
    }

    method ReceivedMajority() returns (ok: bool)
      ensures ok <==> ConfigQuorum(votesReceived, configState)
    {
      ok := HasVotes(votesReceived, configState.current);
      if ok && configState.joint.Some? {
        ok := HasVotes(votesReceived, configState.joint.value);
      }
    }

    method FollowerStep(clock: Clock)
      requires Sorted(State()) && role == Follower
      modifies this
      ensures State() == RoleStep(old(State()), clock)
    {
      hide NodeSpec.BecomeCandidate, TakeAppend, TakeVoteRequest, TimedOut, Sorted;
      var due := TimeoutExpired(clock);
      if due {
        SetRole(Candidate);
        BecomeCandidate();
      } else if pendingAppendEntries != [] {
        HandleNextAppendEntries();
      } else if pendingVoteRequests != [] {
        HandleNextVoteRequest();
      } else if pendingVotes != [] {
        IgnoreVote();
      }
    }

    method CandidateStep(clock: Clock)
      requires Sorted(State()) && role == Candidate
      modifies this
      ensures State() == RoleStep(old(State()), clock)
    {
      hide NodeSpec.BecomeLeader, TakeAppend, TakeVoteRequest, TakeVoteReply, TimedOut, ConfigQuorum;
      var due := TimeoutExpired(clock);
      if due {
        BackToFollower();
      } else {
        var won := ReceivedMajority();
        if won {
          SetRole(Leader);
          BecomeLeader();
        } else {
          Answering();
        }
      }
    }

    /** What a candidate does with its queues; a higher term in a vote request ends the candidacy. */
    method Answering()
      requires Sorted(State())
      modifies this
      ensures var n := old(State());
              State() ==
                if n.appends != [] then TakeAppend(n.(role := Follower))
                else if n.voteRequests != [] then
                  TakeVoteRequest(if n.voteRequests[0].term > n.term then n.(role := Follower) else n)
                else if n.voteReplies != [] then TakeVoteReply(n) else n
    {
      hide TakeAppend, TakeVoteRequest, TakeVoteReply;
      if pendingAppendEntries != [] {
        SetRole(Follower);
        HandleNextAppendEntries();
      } else if pendingVoteRequests != [] {
        if pendingVoteRequests[0].term > currentTerm { SetRole(Follower); }
        HandleNextVoteRequest();
      } else if pendingVotes != [] {
        HandleNextVote();
      }
    }

    method LeaderStep(clock: Clock)
      requires Sorted(State()) && role == Leader
      modifies this
      ensures State() == RoleStep(old(State()), clock)
    {
      hide TakeAppend, TakeVoteRequest, Broadcast;
      if pendingAppendEntries != [] {
        SetRole(Follower);
        HandleNextAppendEntries();
      } else if pendingVoteRequests != [] {
        if pendingVoteRequests[0].term > currentTerm { SetRole(Follower); }
        HandleNextVoteRequest();
      } else if pendingVotes != [] {
        IgnoreVote();
      } else if clock.heartbeatDue {
        BroadcastAppendEntries();
      }
    }

    /** The first enabled row of the role table. */
    method RoleTransition(clock: Clock)
      requires Sorted(State())
      modifies this
      ensures State() == RoleStep(old(State()), clock)
    {
      hide RoleStep, Sorted;
      match role {
        case Follower => FollowerStep(clock);
        case Candidate => CandidateStep(clock);
        case Leader => LeaderStep(clock);
      }
    }

    // ---- Membership transitions ----

    method HasMembershipChangeRequest() returns (ok: bool)
      ensures ok <==> HasChangeRequest(State())
    {
      ok := role == Leader && requestedChangePending && requestedChange.Some? && configState.joint.None?
            && requestedChange.value != configState.current;
    }

    method JointMembersAreCaughtUp() returns (ok: bool)
      ensures ok <==> CaughtUp(State())
    {
      if configState.joint.None? { return false; }
      var members := configState.joint.value;
      for i := 0 to |members|
        invariant forall j :: 0 <= j < i && members[j] != nodeId ==>
                    (if members[j] in matchIndex then matchIndex[members[j]] else 0) >= |log|
      {
        if members[i] != nodeId && (if members[i] in matchIndex then matchIndex[members[i]] else 0) < |log| {
          return false;
        }
      }
      ok := true;
    }

    method Aim(members: seq<NodeId>)
      modifies `membershipState, `pendingMembers, `jointConfigIndex, `outbox
      ensures membershipState == JointPending && pendingMembers == Some(members) && jointConfigIndex == |log| + 1 && outbox == []
    {
      membershipState, pendingMembers := JointPending, Some(members);
      jointConfigIndex := |log| + 1;
      outbox := [];
    }

    method BeginMembershipChange()
      requires requestedChange.Some?
      modifies this
      ensures State() == BeginChange(old(State()), old(requestedChange).value)
    {
      hide AppendLocal;
      ghost var n := State();
      var members := requestedChange.value;
      Aim(members);
      assert State() == n.(membership := JointPending, target := Some(members), jointIndex := |n.log| + 1, outbox := []);
      AppendClientCommand(EnterJoint(members));
    }

    method Finish()
      modifies `membershipState, `finalConfigIndex
      ensures membershipState == Finalizing && finalConfigIndex == |log| + 1
    {
      membershipState := Finalizing;
      finalConfigIndex := |log| + 1;
    }

    method AppendFinalConfig()
      requires pendingMembers.Some?
      modifies this
      ensures State() == FinalizeChange(old(State()), old(pendingMembers).value)
    {
      hide AppendLocal;
      ghost var n := State();
      Finish();
      assert State() == n.(membership := Finalizing, finalIndex := |n.log| + 1);
      AppendClientCommand(LeaveJoint(pendingMembers.value));
    }

    method LeaveJointConfig()
      modifies `membershipState, `requestedChange, `requestedChangePending, `pendingMembers, `jointConfigIndex, `finalConfigIndex
      ensures State() == ChangeDone(old(State()))
    {
      ForgetChange();
    }

    method ForgetChange()
      modifies `membershipState, `requestedChange, `requestedChangePending, `pendingMembers, `jointConfigIndex, `finalConfigIndex
      ensures membershipState == Stable && requestedChange == None && !requestedChangePending && pendingMembers == None
      ensures jointConfigIndex == 0 && finalConfigIndex == 0
    {
      membershipState := Stable;
      requestedChange, requestedChangePending, pendingMembers := None, false, None;
      jointConfigIndex, finalConfigIndex := 0, 0;
    }

    /** The first enabled row of the membership table. */
    method MembershipTransition()
      modifies this
      ensures State() == MembershipStep(old(State()))
    {
      hide BeginChange, FinalizeChange, HasChangeRequest, CanFinalize, ChangeDone;
      match membershipState {
        case Stable =>
          var asked := HasMembershipChangeRequest();
          if asked {
            assert requestedChange.Some? by { Asked(State()); }
            BeginMembershipChange();
          }
        case JointPending =>
          if configState.joint.Some? && configState.index == jointConfigIndex { SetMembership(Joint); }
        case Joint =>
          var ready := CanFinalizeJoint();
          if ready {
            assert pendingMembers.Some? by { Ready(State()); }
            AppendFinalConfig();
          }
        case Finalizing =>
          if configState.joint.None? && finalConfigIndex > 0 && configState.index == finalConfigIndex { LeaveJointConfig(); }
      }
    }

    method SetMembership(m: Membership)
      modifies `membershipState
      ensures State() == old(State()).(membership := m)
    {
      membershipState := m;
    }

    method CanFinalizeJoint() returns (ok: bool)
      ensures ok <==> CanFinalize(State())
    {
      hide CaughtUp;
      ok := JointMembersAreCaughtUp();
      ok := role == Leader && configState.joint.Some? && pendingMembers.Some? && ok;
    }

    // ---- Outputs ----

    method RefreshMembershipState()
      modifies `peers, `nextIndex, `matchIndex
      ensures State() == RefreshPeers(old(State()))
    {
      var all := AllMembersOf(configState);
      hide AllMembers, Without;
      Repeer(Without(all, [nodeId]));
    }

    method Repeer(ids: seq<NodeId>)
      modifies `peers, `nextIndex, `matchIndex
      ensures peers == ids
      ensures nextIndex == map p | p in ids :: if p in old(nextIndex) then old(nextIndex)[p] else 1
      ensures matchIndex == map p | p in ids :: if p in old(matchIndex) then old(matchIndex)[p] else 0
    {
      var preservedNext, preservedMatch := nextIndex, matchIndex;
      peers := ids;
      nextIndex := map p | p in ids :: if p in preservedNext then preservedNext[p] else 1;
      matchIndex := map p | p in ids :: if p in preservedMatch then preservedMatch[p] else 0;
    }

    method Stop()
      modifies this
      ensures State() == Halt(old(State()))
    {
      StopFields();
    }

    method StopFields()
      modifies `running, `pendingAppendEntries, `pendingVoteRequests, `pendingVotes, `outbox, `votesReceived, `leaderId, `role,
               `membershipState
      ensures !running && pendingAppendEntries == [] && pendingVoteRequests == [] && pendingVotes == [] && outbox == []
      ensures votesReceived == {} && leaderId == None && role == Follower && membershipState == Stable
    {
      running := false;
      pendingAppendEntries, pendingVoteRequests, pendingVotes, outbox := [], [], [], [];
      votesReceived, leaderId, role, membershipState := {}, None, Follower, Stable;
    }

    method SetJoint(target: seq<NodeId>, config: Configuration)
      modifies `configState, `requestedChange, `requestedChangePending, `pendingMembers, `jointConfigIndex, `membershipState, `persistDirty
      ensures configState == config && requestedChange == Some(target) && requestedChangePending && pendingMembers == Some(target)
      ensures jointConfigIndex == lastApplied && membershipState == Joint && persistDirty
    {
      configState := config;
      requestedChange, requestedChangePending, pendingMembers := Some(target), true, Some(target);
      jointConfigIndex, membershipState, persistDirty := lastApplied, Joint, true;
    }

    method ApplyEnterJoint(members: seq<NodeId>)
      modifies this
      ensures State() == ApplyCommand(old(State()), EnterJoint(members))
    {
      if lastApplied <= configState.index { return; }
      hide Normalize, RefreshPeers, JointWith;
      var target := NormalizeMembers(members);
      var current := NormalizeMembers(configState.current);
      var added := NormalizeMembers(target);
      EnterJointConfig(target, Configuration(current, Some(added), lastApplied));
      RefreshMembershipState();
    }

    method EnterJointConfig(target: seq<NodeId>, config: Configuration)
      requires config == JointConfig(configState.current, target, lastApplied)
      modifies `configState, `requestedChange, `requestedChangePending, `pendingMembers, `jointConfigIndex, `membershipState, `persistDirty
      ensures State() == JointWith(old(State()), target)
    {
      hide JointConfig;
      SetJoint(target, config);
    }

    method SetStable(config: Configuration)
      modifies `configState, `requestedChange, `requestedChangePending, `pendingMembers, `finalConfigIndex, `membershipState, `persistDirty
      ensures configState == config && requestedChange == None && !requestedChangePending && pendingMembers == None
      ensures finalConfigIndex == lastApplied && membershipState == Stable && persistDirty
    {
      configState := config;
      requestedChange, requestedChangePending, pendingMembers := None, false, None;
      finalConfigIndex, membershipState, persistDirty := lastApplied, Stable, true;
    }

    method EnterStableConfig(members: seq<NodeId>, config: Configuration)
      requires config == StableConfig(members, lastApplied)
      modifies `configState, `requestedChange, `requestedChangePending, `pendingMembers, `finalConfigIndex, `membershipState, `persistDirty
      ensures State() == StableWith(old(State()), members)
    {
      hide StableConfig;
      SetStable(config);
    }

    method ApplyLeaveJoint(members: seq<NodeId>)
      modifies this
      ensures State() == ApplyCommand(old(State()), LeaveJoint(members))
    {
      if lastApplied <= configState.index { return; }
      hide Normalize, RefreshPeers, AllMembers, Halt, StableWith;
      var was := IsVotingMember();
      var target := NormalizeMembers(members);
      var current := NormalizeMembers(target);
      EnterStableConfig(target, Configuration(current, None, lastApplied));
      RefreshMembershipState();
      var stays := IsVotingMember();
      if was && !stays { Stop(); }
    }

    method ApplyCommittedCommand(c: Command)
      modifies this
      ensures State() == ApplyCommand(old(State()), c)
    {
      match c {
        case SetMaxLog(t) => compactionThreshold, persistDirty := t, true;
        case EnterJoint(members) => ApplyEnterJoint(members);
        case LeaveJoint(members) => ApplyLeaveJoint(members);
        case AppCommand(_, _, _) => application := application + [c];
      }
      hide Normalize, RefreshPeers, IsVoting, Halt;
    }

    /** Saves if anything durable changed, then applies what is committed, then sends. */
    method DumpOutputs() returns (sent: seq<Message>)
      requires InWindow(State())
      modifies this, storage
      ensures var w := old(State());
              var a := ApplyAll(w.(dirty := false));
              && State() == a.(outbox := []) && sent == a.outbox
              && storage.Contents() == if w.dirty then Save(w) else old(storage.Contents())
    {
      hide ApplyCommand, ApplyNext;
      ghost var w := State();
      if persistDirty {
        storage.Save(Meta(currentTerm, votedFor, configState, commitIndex, compactionThreshold), log);
        persistDirty := false;
      }
      assert State() == w.(dirty := false);
      ghost var disk := storage.Contents();
      while lastApplied < commitIndex
        invariant InWindow(State()) && ApplyAll(State()) == ApplyAll(w.(dirty := false)) && storage.Contents() == disk
        decreases commitIndex - lastApplied
      {
        ApplyOne();
      }
      sent := outbox;
      outbox := [];
    }

    method ApplyOne()
      requires lastApplied < |log|
      modifies this
      ensures State() == ApplyNext(old(State()))
    {
      hide ApplyCommand;
      ghost var n := State();
      lastApplied := lastApplied + 1;
      assert State() == n.(applied := n.applied + 1);
      ApplyCommittedCommand(log[lastApplied - 1].command);
    }

    // ---- Start, requests, ticks ----

    method ConfigFrom(meta: Meta) returns (c: Configuration)
      ensures c == StoredConfig(State(), meta)
    {
      var current := NormalizeMembers(if meta.config.current == [] then initialMembers else meta.config.current);
      c := Configuration(current, None, if meta.config.current == [] then 0 else meta.config.index);
      if meta.config.current != [] && meta.config.joint.Some? {
        var target := NormalizeMembers(meta.config.joint.value);
        c := Configuration(current, Some(target), meta.config.index);
      }
    }

    method RestoreDurable(meta: Meta, entries: Log, config: Configuration)
      modifies `currentTerm, `votedFor, `log, `commitIndex, `lastApplied, `configState, `compactionThreshold, `application
      ensures currentTerm == meta.term && votedFor == meta.votedFor && log == entries && commitIndex == Min(meta.commit, |entries|)
      ensures lastApplied == 0 && configState == config && compactionThreshold == meta.threshold && application == []
    {
      currentTerm, votedFor, log, compactionThreshold := meta.term, meta.votedFor, entries, meta.threshold;
      configState := config;
      commitIndex, lastApplied, application := Min(meta.commit, |entries|), 0, [];
    }

    method ResetVolatile()
      modifies `running, `role, `leaderId, `votesReceived, `outbox, `pendingAppendEntries, `pendingVoteRequests, `pendingVotes,
               `persistDirty, `raised
      ensures running && role == Follower && leaderId == None && votesReceived == {} && outbox == [] && pendingAppendEntries == []
      ensures pendingVoteRequests == [] && pendingVotes == [] && !persistDirty && !raised
    {
      running, role, leaderId, votesReceived := true, Follower, None, {};
      outbox, pendingAppendEntries, pendingVoteRequests, pendingVotes := [], [], [], [];
      persistDirty, raised := false, false;
    }

    method ResetMembership()
      modifies `requestedChange, `requestedChangePending, `pendingMembers, `jointConfigIndex, `finalConfigIndex, `membershipState
      ensures requestedChange == configState.joint && requestedChangePending == configState.joint.Some?
      ensures pendingMembers == configState.joint && jointConfigIndex == 0 && finalConfigIndex == 0
      ensures membershipState == if configState.joint.Some? then Joint else Stable
    {
      requestedChange, requestedChangePending, pendingMembers := None, false, None;
      jointConfigIndex, finalConfigIndex := 0, 0;
      membershipState := if configState.joint.Some? then Joint else Stable;
      if configState.joint.Some? {
        requestedChange, requestedChangePending, pendingMembers := configState.joint, true, configState.joint;
      }
    }

    method Reload(meta: Meta, entries: Log, config: Configuration)
      modifies this
      ensures State() == Reloaded(old(State()), meta, entries, config)
    {
      Reset(meta, entries, config);
    }

    method Reset(meta: Meta, entries: Log, config: Configuration)
      modifies `currentTerm, `votedFor, `log, `commitIndex, `lastApplied, `configState, `compactionThreshold, `application
      modifies `running, `role, `leaderId, `votesReceived, `outbox, `pendingAppendEntries, `pendingVoteRequests, `pendingVotes,
               `persistDirty, `raised
      modifies `requestedChange, `requestedChangePending, `pendingMembers, `jointConfigIndex, `finalConfigIndex, `membershipState
      ensures currentTerm == meta.term && votedFor == meta.votedFor && log == entries && commitIndex == Min(meta.commit, |entries|)
      ensures lastApplied == 0 && configState == config && compactionThreshold == meta.threshold && application == []
      ensures running && role == Follower && leaderId == None && votesReceived == {} && outbox == [] && pendingAppendEntries == []
      ensures pendingVoteRequests == [] && pendingVotes == [] && !persistDirty && !raised
      ensures requestedChange == config.joint && requestedChangePending == config.joint.Some?
      ensures pendingMembers == config.joint && jointConfigIndex == 0 && finalConfigIndex == 0
      ensures membershipState == if config.joint.Some? then Joint else Stable
    {
      RestoreDurable(meta, entries, config);
      ResetVolatile();
      ResetMembership();
    }

    method Start()
      modifies this
      ensures State() == Load(old(State()), storage.Contents())
    {
      hide RefreshPeers, StoredConfig, Reloaded;
      var meta, entries := storage.Load();
      var config := ConfigFrom(meta);
      Reload(meta, entries, config);
      RefreshMembershipState();
    }

    method RequestMembershipChange(members: seq<NodeId>)
      modifies `requestedChange, `requestedChangePending
      ensures State() == old(State()).(requested := Some(Normalize(members)), requestPending := true)
    {
      hide Normalize;
      requestedChange := None;
      var target := NormalizeMembers(members);
      requestedChange, requestedChangePending := Some(target), true;
    }

    /** One tick: latch, role transition, membership transition, dump. It does to the node and its disk
        what the Tick event of the cluster model does, and sends what that event sends. */
    method Tick(inbox: seq<Message>, commands: seq<Command>, clock: Clock) returns (sent: seq<Message>)
      requires Sorted(NodeSpec.Latch(State(), inbox, commands))
      requires InWindow(Worked(State(), Cluster.Tick(nodeId, inbox, commands, clock)))
      modifies this, storage
      ensures var w := Worked(old(State()), Cluster.Tick(nodeId, inbox, commands, clock));
              var a := ApplyAll(w.(dirty := false));
              && State() == a.(outbox := []) && sent == a.outbox
              && storage.Contents() == if w.dirty then Save(w) else old(storage.Contents())
    {
      hide NodeSpec.Latch, RoleStep, MembershipStep, ApplyAll, Sorted, InWindow;
      ghost var e := Cluster.Tick(nodeId, inbox, commands, clock);
      ghost var n, disk := State(), storage.Contents();
      Latch(inbox, commands);
      assert State() == Latched(n, e);
      RoleTransition(clock);
      MembershipTransition();
      assert State() == Worked(n, e) && storage.Contents() == disk;
      sent := DumpOutputs();
    }
  }

  lemma {:induction false} AppendMessagesThen(n: Node, before: seq<NodeId>, p: NodeId)
    ensures AppendMessages(n, before + [p]) == AppendMessages(n, before) + AppendMessages(n, [p])
  {
    if before == [] {
      assert [] + [p] == [p];
    } else {
      assert (before + [p])[0] == before[0] && (before + [p])[1..] == before[1..] + [p];
      AppendMessagesThen(n, before[1..], p);
    }
  }

  lemma SendNone(n: Node)
    ensures SendAll(n, []) == n
  {
  }

  lemma AppendMessagesOne(n: Node, p: NodeId)
    ensures AppendMessages(n, [p]) == if SendIndex(n, p) <= |n.log| + 1 then [AppendMessage(n, p, SendIndex(n, p))] else []
  {
    assert [p][0] == p && [p][1..] == [];
    assert AppendMessages(n, []) == [];
    hide AppendMessage, SendIndex;
  }

  predicate SomeBeyond(n: Node, peers: seq<NodeId>) {
    exists p :: p in peers && SendIndex(n, p) > |n.log| + 1
  }

  lemma SomeBeyondThen(n: Node, before: seq<NodeId>, p: NodeId)
    ensures SomeBeyond(n, before + [p]) <==> SomeBeyond(n, before) || SendIndex(n, p) > |n.log| + 1
  {
    hide SendIndex;
    assert p in before + [p] && forall q :: q in before ==> q in before + [p];
  }

  lemma SendAllThen(was: Node, before: seq<NodeId>, p: NodeId)
    ensures SendTo(SendAll(was, before), p) == SendAll(was, before + [p])
  {
    hide AppendMessages, SendIndex, AppendMessage, SendTo;
    AppendMessagesThen(was, before, p);
    AppendMessagesOne(was, p);
    SomeBeyondThen(was, before, p);
    SendAlike(was, SendAll(was, before), p);
  }

  lemma SendAlike(was: Node, here: Node, p: NodeId)
    requires here == was.(outbox := here.outbox, fault := here.fault)
    ensures SendTo(here, p) ==
              if SendIndex(was, p) > |was.log| + 1 then here.(fault := true)
              else here.(outbox := here.outbox + [AppendMessage(was, p, SendIndex(was, p))])
  {
    hide TermAt, CreatorAt;
  }

  lemma Asked(n: Node)
    ensures HasChangeRequest(n) ==> n.requested.Some?
  {
  }

  lemma Ready(n: Node)
    ensures CanFinalize(n) ==> n.target.Some?
  {
  }
}
