/** The replicated system reduced to what safety depends on: each peer's durable state and role, and
    every message ever sent. Auxiliary histories record who voted for whom, who reigned in a term with
    which log, and how far each peer has acknowledged each term's log. */
module Protocol {
  import opened RaftTypes
  import opened Quorum
  import opened LogMerge

  datatype Peer = Peer(term: nat, vote: Option<NodeId>, log: Log, commit: nat, applied: nat,
                       role: Role, votes: set<NodeId>, matched: map<NodeId, nat>)

  datatype Sys = Sys(peers: map<NodeId, Peer>, net: set<Message>)

  /** A vote with the voter's log at the time it was first cast. */
  datatype Ballot = Ballot(candidate: NodeId, log: Log)

  /** A term's elected leader: the votes that elected it, its log when elected and its log since. */
  datatype Reign = Reign(leader: NodeId, votes: set<NodeId>, base: Log, log: Log)

  datatype History = History(ballots: map<(NodeId, nat), Ballot>, reigns: map<nat, Reign>, acks: map<(NodeId, nat), nat>)

  predicate TermsBelow(log: Log, bound: nat) {
    forall k :: 0 <= k < |log| ==> log[k].term < bound
  }

  /** A log is traced when it is a prefix of what the leader of its last term had. */
  predicate Traced(h: History, log: Log) {
    log == [] || (LastTerm(log) in h.reigns && log <= h.reigns[LastTerm(log)].log)
  }

  predicate CastFor(h: History, voter: NodeId, term: nat, candidate: NodeId) {
    (voter, term) in h.ballots && h.ballots[(voter, term)].candidate == candidate
  }

  predicate ReignOk(h: History, members: seq<NodeId>, t: nat)
    requires t in h.reigns
  {
    var r := h.reigns[t];
    && HasQuorum(r.votes, members) && r.leader in r.votes
    && (forall j :: j in r.votes ==> CastFor(h, j, t, r.leader))
    && CastFor(h, r.leader, t, r.leader) && r.base == h.ballots[(r.leader, t)].log
    && r.base <= r.log && TermsBelow(r.base, t) && Traced(h, r.base)
    && (forall k :: |r.base| <= k < |r.log| ==> r.log[k].term == t && r.log[k].creator == r.leader)
    && Indexed(r.log)
  }

  predicate BallotOk(h: History, b: (NodeId, nat))
    requires b in h.ballots
  {
    var v := h.ballots[b];
    && Traced(h, v.log)
    && CastFor(h, v.candidate, b.1, v.candidate)
    && var cand := h.ballots[(v.candidate, b.1)].log;
       TermsBelow(cand, b.1) && UpToDate(|cand|, LastTerm(cand), v.log)
  }

  /** A peer never takes back a vote it cast: it stays in that vote or moves to a later term. */
  predicate Promised(s: Sys, h: History, b: (NodeId, nat))
    requires b in h.ballots
  {
    && b.0 in s.peers && b.1 <= s.peers[b.0].term
    && (b.1 == s.peers[b.0].term ==> s.peers[b.0].vote == Some(h.ballots[b].candidate))
  }

  predicate PeerOk(h: History, i: NodeId, p: Peer) {
    && Traced(h, p.log) && TermsBelow(p.log, p.term + 1)
    && (p.role == Candidate ==>
          && p.vote == Some(i) && i in p.votes
          && (forall j :: j in p.votes ==> CastFor(h, j, p.term, i))
          && (i, p.term) in h.ballots && h.ballots[(i, p.term)].log == p.log
          && TermsBelow(p.log, p.term)
          && (p.term in h.reigns ==> h.reigns[p.term].leader != i))
    && (p.role == Leader ==> p.term in h.reigns && h.reigns[p.term].leader == i && h.reigns[p.term].log == p.log)
  }

  predicate MessageOk(h: History, m: Message) {
    match m
    case RequestVote(t, c, _, lastIndex, lastTerm) =>
      CastFor(h, c, t, c) && |h.ballots[(c, t)].log| == lastIndex && LastTerm(h.ballots[(c, t)].log) == lastTerm
    case VoteReply(t, j, c, granted) => granted ==> CastFor(h, j, t, c)
    case AppendEntries(t, l, _, prev, prevTerm, prevCreator, entries, _) =>
      && t in h.reigns && h.reigns[t].leader == l
      && |h.reigns[t].base| <= prev + |entries| <= |h.reigns[t].log| && entries == h.reigns[t].log[prev..prev + |entries|]
      && prevTerm == TermAt(h.reigns[t].log, prev) && prevCreator == CreatorAt(h.reigns[t].log, prev)
    case AppendReply(_, _, _, _, _) => true
  }

  ghost predicate ReignsOk(h: History, members: seq<NodeId>) {
    forall t {:trigger ReignOk(h, members, t)} :: t in h.reigns ==> ReignOk(h, members, t)
  }

  ghost predicate BallotsOk(h: History) {
    forall b {:trigger BallotOk(h, b)} :: b in h.ballots ==> BallotOk(h, b)
  }

  ghost predicate PromisesKept(s: Sys, h: History) {
    forall b {:trigger Promised(s, h, b)} :: b in h.ballots ==> Promised(s, h, b)
  }

  ghost predicate PeersOk(s: Sys, h: History) {
    forall i {:trigger PeerOk(h, i, s.peers[i])} :: i in s.peers ==> PeerOk(h, i, s.peers[i])
  }

  ghost predicate NetOk(s: Sys, h: History) {
    forall m {:trigger MessageOk(h, m)} :: m in s.net ==> MessageOk(h, m)
  }

  /** No message is ahead of its sender's term. */
  predicate TermKept(s: Sys, m: Message) {
    m.source in s.peers && m.term <= s.peers[m.source].term
  }

  ghost predicate NetTermsOk(s: Sys) {
    forall m {:trigger TermKept(s, m)} :: m in s.net ==> TermKept(s, m)
  }

  /** What holds in every run, whatever followers acknowledge. */
  ghost predicate Inv(s: Sys, h: History, members: seq<NodeId>) {
    ReignsOk(h, members) && BallotsOk(h) && PromisesKept(s, h) && PeersOk(s, h) && NetOk(s, h) && NetTermsOk(s)
  }

  // ---- Commitment ----

  /** Peers that acknowledged the log of a term up to an index. */
  function Holders(h: History, members: seq<NodeId>, t: nat, k: nat): set<NodeId> {
    set j | j in members && (j, t) in h.acks && k <= h.acks[(j, t)]
  }

  /** Index k of term t's log is chosen: its entry is of that term and a majority acknowledged it. */
  predicate Chosen(h: History, members: seq<NodeId>, t: nat, k: nat) {
    && t in h.reigns && 1 <= k <= |h.reigns[t].log| && h.reigns[t].log[k - 1].term == t
    && HasQuorum(Holders(h, members, t, k), members)
  }

  ghost predicate Committed(h: History, members: seq<NodeId>, log: Log, limit: nat) {
    log == [] || exists t: nat, k: nat :: t <= limit && Chosen(h, members, t, k) && |log| <= k && log <= h.reigns[t].log
  }

  /** The leader of term v was elected without the first k entries of term t's log. */
  predicate Missing(h: History, t: nat, k: nat, v: nat) {
    t in h.reigns && k <= |h.reigns[t].log| && v in h.reigns && !(h.reigns[t].log[..k] <= h.reigns[v].base)
  }

  /** The log still has the first k entries of term t's log, or some leader elected between lacked them. */
  ghost predicate Keeps(h: History, t: nat, k: nat, log: Log, limit: nat)
    requires t in h.reigns && k <= |h.reigns[t].log|
  {
    h.reigns[t].log[..k] <= log || exists v :: t < v < limit && Missing(h, t, k, v)
  }

  ghost predicate KeepsAll(h: History, t: nat, upTo: nat, log: Log, limit: nat)
    requires t in h.reigns && upTo <= |h.reigns[t].log|
  {
    forall k: nat {:trigger Keeps(h, t, k, log, limit)} :: k <= upTo ==> Keeps(h, t, k, log, limit)
  }

  ghost predicate AckOk(s: Sys, h: History, a: (NodeId, nat))
    requires a in h.acks
  {
    && a.1 in h.reigns && h.acks[a] <= |h.reigns[a.1].log|
    && a.0 in s.peers && a.1 <= s.peers[a.0].term
    && KeepsAll(h, a.1, h.acks[a], s.peers[a.0].log, s.peers[a.0].term + 1)
  }

  ghost predicate BallotKeeps(h: History, b: (NodeId, nat))
    requires b in h.ballots
  {
    b.1 !in h.reigns || b.0 in h.reigns[b.1].votes ==>
      forall t :: (b.0, t) in h.acks && t < b.1 && t in h.reigns && h.acks[(b.0, t)] <= |h.reigns[t].log| ==>
        KeepsAll(h, t, h.acks[(b.0, t)], h.ballots[b].log, b.1)
  }

  /** A peer whose last entry is of its own term has acknowledged its whole log. */
  predicate Vouched(h: History, i: NodeId, p: Peer) {
    p.log != [] && LastTerm(p.log) == p.term ==> (i, p.term) in h.acks && |p.log| <= h.acks[(i, p.term)]
  }

  ghost predicate PeerCommitOk(h: History, members: seq<NodeId>, i: NodeId, p: Peer) {
    && p.applied <= p.commit <= |p.log| && Committed(h, members, p.log[..p.commit], p.term) && Vouched(h, i, p)
    && (p.role == Leader ==>
          && (i, p.term) in h.acks && h.acks[(i, p.term)] == |p.log|
          && forall j :: j in p.matched && j != i && p.matched[j] > 0 ==>
               (j, p.term) in h.acks && p.matched[j] <= h.acks[(j, p.term)])
  }

  ghost predicate MessageCommitOk(h: History, members: seq<NodeId>, m: Message) {
    match m
    case AppendEntries(t, l, _, prev, _, _, entries, leaderCommit) =>
      && t in h.reigns && leaderCommit <= prev + |entries| <= |h.reigns[t].log|
      && Committed(h, members, h.reigns[t].log[..leaderCommit], t)
    case AppendReply(t, j, _, success, matchIndex) =>
      success ==> (j, t) in h.acks && matchIndex <= h.acks[(j, t)]
    case _ => true
  }

  ghost predicate AcksOk(s: Sys, h: History) {
    forall a {:trigger AckOk(s, h, a)} :: a in h.acks ==> AckOk(s, h, a)
  }

  ghost predicate BallotsKeep(h: History) {
    forall b {:trigger BallotKeeps(h, b)} :: b in h.ballots ==> BallotKeeps(h, b)
  }

  /** A leader has acknowledged all of its own log. */
  predicate ReignHeld(h: History, t: nat)
    requires t in h.reigns
  {
    var a := (h.reigns[t].leader, t);
    a in h.acks && |h.reigns[t].log| <= h.acks[a]
  }

  ghost predicate ReignsHeld(h: History) {
    forall t {:trigger ReignHeld(h, t)} :: t in h.reigns ==> ReignHeld(h, t)
  }

  ghost predicate PeersCommitOk(s: Sys, h: History, members: seq<NodeId>) {
    forall i {:trigger PeerCommitOk(h, members, i, s.peers[i])} :: i in s.peers ==> PeerCommitOk(h, members, i, s.peers[i])
  }

  ghost predicate NetCommitOk(s: Sys, h: History, members: seq<NodeId>) {
    forall m {:trigger MessageCommitOk(h, members, m)} :: m in s.net ==> MessageCommitOk(h, members, m)
  }

  /** What holds as long as acknowledgements are honest and saves do not tear a commit. */
  ghost predicate CommitInv(s: Sys, h: History, members: seq<NodeId>) {
    AcksOk(s, h) && BallotsKeep(h) && ReignsHeld(h) && PeersCommitOk(s, h, members) && NetCommitOk(s, h, members)
  }

  // ---- Consequences ----

  /** Every prefix of a traced log is traced: it is what the leader of its last term had. */
  lemma {:induction false} TracedPrefix(h: History, members: seq<NodeId>, log: Log, k: nat)
    requires ReignsOk(h, members)
    requires Traced(h, log) && k <= |log|
    ensures Traced(h, log[..k])
    decreases if log == [] then 0 else 1 + LastTerm(log)
  {
    if 0 < k < |log| {
      var t := LastTerm(log);
      var r := h.reigns[t];
      assert ReignOk(h, members, t);
      assert log[..k] <= r.log;
      assert LastTerm(log[..k]) == log[k - 1].term == r.log[k - 1].term;
      if k <= |r.base| {
        assert log[..k] == r.base[..k];
        TracedPrefix(h, members, r.base, k);
      }
    } else if k == |log| {
      assert log[..k] == log;
    }
  }

  /** Log matching for two traced logs. */
  lemma LogMatching(h: History, members: seq<NodeId>, a: Log, b: Log)
    requires ReignsOk(h, members)
    requires Traced(h, a) && Traced(h, b)
    ensures Matching(a, b)
  {
    forall k | 0 <= k < |a| && k < |b| && a[k].term == b[k].term ensures a[..k + 1] == b[..k + 1] {
      TracedPrefix(h, members, a, k + 1);
      TracedPrefix(h, members, b, k + 1);
      assert LastTerm(a[..k + 1]) == LastTerm(b[..k + 1]);
    }
  }

  /** Terms never decrease along a traced log. */
  lemma TermsRise(h: History, members: seq<NodeId>, log: Log, j: nat, k: nat)
    requires ReignsOk(h, members)
    requires Traced(h, log) && j <= k < |log|
    ensures log[j].term <= log[k].term
  {
    TracedPrefix(h, members, log, k + 1);
    var t := log[k].term;
    assert LastTerm(log[..k + 1]) == t && ReignOk(h, members, t);
    assert log[..k + 1][j] == log[j];
  }

  /** A reign's own log is traced. */
  lemma ReignTraced(h: History, members: seq<NodeId>, t: nat, k: nat)
    requires ReignsOk(h, members)
    requires t in h.reigns && k <= |h.reigns[t].log|
    ensures Traced(h, h.reigns[t].log[..k])
  {
    var r := h.reigns[t];
    assert ReignOk(h, members, t);
    if k <= |r.base| {
      TracedPrefix(h, members, r.base, k);
      assert r.base[..k] == r.log[..k];
    }
  }

  /** Leader completeness: a chosen prefix is in the log of every later leader from its election on. */
  lemma {:induction false} LeaderCompleteness(s: Sys, h: History, members: seq<NodeId>, t: nat, k: nat, u: nat)
    requires Inv(s, h, members) && CommitInv(s, h, members)
    requires Chosen(h, members, t, k) && u in h.reigns && t < u
    ensures h.reigns[t].log[..k] <= h.reigns[u].base
    decreases u
  {
    var chosen := h.reigns[t].log[..k];
    var r := h.reigns[u];
    assert ReignOk(h, members, u) && ReignOk(h, members, t);
    var j := QuorumsMeet(Holders(h, members, t, k), r.votes, members);
    var b := (j, u);
    assert CastFor(h, j, u, r.leader);
    assert BallotOk(h, b) && BallotKeeps(h, b) && AckOk(s, h, (j, t));
    var seen := h.ballots[b].log;
    assert Keeps(h, t, k, seen, u);
    if !(chosen <= seen) {
      var v :| t < v < u && Missing(h, t, k, v);
      LeaderCompleteness(s, h, members, t, k, v);
      assert false;
    }
    assert seen[k - 1] == chosen[k - 1];
    TermsRise(h, members, seen, k - 1, |seen| - 1);
    var x, y := LastTerm(seen), LastTerm(r.base);
    assert UpToDate(|r.base|, y, seen);
    if x != y {
      assert r.base[|r.base| - 1].term < u;
      LeaderCompleteness(s, h, members, t, k, y);
      assert ReignOk(h, members, y);
      assert h.reigns[y].base <= r.base;
    }
  }

  /** A committed prefix is in the log of every leader of its own term or later. */
  lemma CommittedInReign(s: Sys, h: History, members: seq<NodeId>, log: Log, limit: nat, u: nat)
    requires Inv(s, h, members) && CommitInv(s, h, members)
    requires Committed(h, members, log, limit) && limit <= u && u in h.reigns
    ensures log <= h.reigns[u].log
  {
    if log != [] {
      var t: nat, k: nat :| t <= limit && Chosen(h, members, t, k) && |log| <= k && log <= h.reigns[t].log;
      if t < u {
        LeaderCompleteness(s, h, members, t, k, u);
        assert ReignOk(h, members, u);
        assert log <= h.reigns[t].log[..k];
      }
    }
  }

  /** State machine safety: of two committed prefixes one extends the other. */
  lemma CommittedAgree(s: Sys, h: History, members: seq<NodeId>, a: Log, la: nat, b: Log, lb: nat)
    requires Inv(s, h, members) && CommitInv(s, h, members)
    requires Committed(h, members, a, la) && Committed(h, members, b, lb)
    ensures a <= b || b <= a
  {
    if a != [] && b != [] {
      var t: nat, k: nat :| t <= la && Chosen(h, members, t, k) && |a| <= k && a <= h.reigns[t].log;
      var u: nat, j: nat :| u <= lb && Chosen(h, members, u, j) && |b| <= j && b <= h.reigns[u].log;
      assert Committed(h, members, a, t) && Committed(h, members, b, u);
      if t <= u {
        CommittedInReign(s, h, members, a, t, u);
      } else {
        CommittedInReign(s, h, members, b, u, t);
      }
    }
  }
}
