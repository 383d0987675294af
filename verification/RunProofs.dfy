/** Every run of the cluster has a proof: protocol states and growing histories beside its states. */
module RunProofs {
  import opened RaftTypes
  import opened Protocol
  import opened ProtocolSteps
  import opened NodeSpec
  import opened NodeLocal
  import opened Refinement
  import opened TickRefinement
  import opened Members
  import opened Cluster
  import opened SoleVoter
  import opened ClusterSafety

  /** At that moment the node's disk held the log in the given term. */
  predicate HeldAt(r: Run, m: nat, i: NodeId, t: nat, log: Log)
    requires m < |r.states|
  {
    i in r.states[m].disks && Durable(r.states[m].disks[i]).term == t && log <= DurableLog(r.states[m].disks[i])
  }

  /** Entry x on the node's disk is its own, or was on its disk, with all before it, in the entry's own term. */
  predicate CoveredBy(r: Run, k: nat, i: NodeId, x: nat)
    requires k < |r.states| && i in r.states[k].disks && 1 <= x <= |DurableLog(r.states[k].disks[i])|
  {
    var log := DurableLog(r.states[k].disks[i]);
    || log[x - 1].creator == i
    || exists m {:trigger HeldAt(r, m, i, log[x - 1].term, log[..x])} :: 0 <= m <= k && HeldAt(r, m, i, log[x - 1].term, log[..x])
  }

  predicate Covered(r: Run, k: nat, i: NodeId, index: nat)
    requires k < |r.states| && i in r.states[k].disks
  {
    index == 0 || exists x {:trigger CoveredBy(r, k, i, x)} ::
      1 <= x <= |DurableLog(r.states[k].disks[i])| && index <= x && CoveredBy(r, k, i, x)
  }

  /** The torn save is harmless if the old log agrees with the new one up to the new commit index and, if
      the node has committed alone in the very tick that was cut off, what is left is covered. */
  predicate TornSafe(r: Run, k: nat, e: Event)
    requires k < |r.states| && e.TornTick? && Enabled(r.states[k], e)
  {
    var c := r.states[k];
    && TornLog(c, e) <= Worked(c.nodes[e.id], e).log
    && (CommitsAlone(c.nodes[e.id], e) ==> Covered(r, k, e.id, |TornLog(c, e)|))
  }

  /** No dishonest acknowledgement and no harmful torn save. */
  predicate Trusted(r: Run, k: nat)
    requires k < |r.events| && |r.states| == |r.events| + 1 && Follows(r, k)
  {
    var c, e := r.states[k], r.events[k];
    && (e.Tick? ==> HonestStep(Latched(c.nodes[e.id], e)))
    && (e.TornTick? ==> TornSafe(r, k, e))
  }

  /** Every event of the run is trusted: replies are honest and no save tears a commit. */
  predicate AlwaysTrusted(r: Run)
    requires IsRun(r)
  {
    forall k: nat {:trigger Follows(r, k)} :: k < |r.events| && Follows(r, k) ==> Trusted(r, k)
  }

  const NOTHING := History(map[], map[], map[])

  lemma InitialSim(c: State, members: seq<NodeId>) returns (s: Sys)
    requires Initial(c)
    ensures Inv(s, NOTHING, members) && CommitInv(s, NOTHING, members) && Rel(c, s)
  {
    hide Load, Fresh, Normalize, NodeRel, PeerOk, PeerCommitOk;
    s := Sys(map i | i in c.nodes :: PeerOf(c.nodes[i]), {});
    forall i | i in c.nodes
      ensures NodeRel(c, s, i) && PeerOk(NOTHING, i, s.peers[i]) && PeerCommitOk(NOTHING, members, i, s.peers[i])
    {
      FreshSim(c, s, members, i);
    }
  }

  lemma FreshSim(c: State, s: Sys, members: seq<NodeId>, i: NodeId)
    requires i in c.nodes && i in c.disks && c.nodes[i] == Fresh(i, c.nodes[i].initial) && c.disks[i] == NO_DISK
    requires i in s.peers && s.peers[i] == PeerOf(c.nodes[i])
    ensures NodeRel(c, s, i) && PeerOk(NOTHING, i, s.peers[i]) && PeerCommitOk(NOTHING, members, i, s.peers[i])
  {
    hide Load, Fresh, Normalize;
    FreshFacts(i, c.nodes[i].initial);
  }

  lemma FreshFacts(i: NodeId, initial: seq<NodeId>)
    ensures var n := Fresh(i, initial);
            && n.id == i && n.running && !n.fault && n.outbox == [] && n.appends == [] && n.voteRequests == [] && n.voteReplies == []
            && PeerOf(n) == Resting(NO_DISK).(matched := n.matchIndex) && Replayed(n)
  {
    hide Load;
    LoadFacts(Node(i, initial, true, Follower, 0, None, [], 0, 0, None, {}, StableConfig(initial, 0), [], map[], map[],
                   [], [], [], [], None, false, None, 0, 0, Stable, DEFAULT_THRESHOLD, [], false, false), NO_DISK);
  }

  /** The proof of a run: a protocol state and a growing history beside each state. */
  ghost predicate Proof(r: Run, members: seq<NodeId>, ss: seq<Sys>, hs: seq<History>) {
    && |ss| == |hs| <= |r.states|
    && (forall k :: 0 <= k < |ss| ==> Inv(ss[k], hs[k], members) && Rel(r.states[k], ss[k]))
    && (forall k :: 0 <= k < |ss| - 1 ==> Extends(hs[k], hs[k + 1]) && AllRetain(ss[k], hs[k], ss[k + 1]))
  }

  lemma {:induction false} ProofGrows(r: Run, members: seq<NodeId>, ss: seq<Sys>, hs: seq<History>, j: nat, k: nat)
    requires Proof(r, members, ss, hs) && j <= k < |hs|
    ensures Extends(hs[j], hs[k]) && AllRetain(ss[j], hs[j], ss[k])
    decreases k - j
  {
    hide Inv, Rel, Extends, AllRetain;
    if j < k {
      ProofGrows(r, members, ss, hs, j, k - 1);
      ExtendsTransitive(hs[j], hs[k - 1], hs[k]);
      AllRetainTransitive(ss[j], hs[j], ss[k - 1], hs[k - 1], ss[k]);
    } else {
      ExtendsSelf(hs[j]);
      AllRetainSame(ss[j], hs[j]);
    }
  }

  lemma ExtendsSelf(h: History)
    ensures Extends(h, h)
  {
  }

  // ---- What a node has acknowledged ----

  /** Each acknowledgement is of a reign of the node's own, or its disk has held what it acknowledged in
      the term it acknowledged. */
  ghost predicate Told(r: Run, k: nat, h: History, a: (NodeId, nat))
    requires k < |r.states| && a in h.acks
  {
    && a.1 in h.reigns && h.acks[a] <= |h.reigns[a.1].log|
    && (h.reigns[a.1].leader == a.0
        || exists m {:trigger HeldAt(r, m, a.0, a.1, h.reigns[a.1].log[..h.acks[a]])} ::
             0 <= m <= k && HeldAt(r, m, a.0, a.1, h.reigns[a.1].log[..h.acks[a]]))
  }

  ghost predicate AcksTold(r: Run, k: nat, h: History)
    requires k < |r.states|
  {
    forall a {:trigger Told(r, k, h, a)} :: a in h.acks ==> Told(r, k, h, a)
  }

  lemma OldAckTold(r: Run, k: nat, h: History, h': History, a: (NodeId, nat))
    requires k + 1 < |r.states| && Extends(h, h') && a in h.acks && a in h'.acks && h'.acks[a] == h.acks[a] && Told(r, k, h, a)
    ensures Told(r, k + 1, h', a)
  {
    assert SameReign(h.reigns[a.1], h'.reigns[a.1]);
    assert h'.reigns[a.1].log[..h.acks[a]] == h.reigns[a.1].log[..h.acks[a]];
  }

  lemma NewAckTold(r: Run, k: nat, s: Sys, h: History, members: seq<NodeId>, a: (NodeId, nat))
    requires k < |r.states| && Inv(s, h, members) && CommitInv(s, h, members) && Rel(r.states[k], s) && a in h.acks
    requires a.0 in s.peers && (a.1 == s.peers[a.0].term || (a.1 in h.reigns && h.reigns[a.1].leader == a.0))
    ensures Told(r, k, h, a)
  {
    assert AckOk(s, h, a);
    if h.reigns[a.1].leader != a.0 {
      PeerThere(r.states[k], s, a.0);
      PeerView(r.states[k], s, h, members, a.0);
      assert Keeps(h, a.1, h.acks[a], s.peers[a.0].log, s.peers[a.0].term + 1);
      hide Inv, CommitInv, Rel;
      assert HeldAt(r, k, a.0, a.1, h.reigns[a.1].log[..h.acks[a]]);
    }
  }

  lemma AcksStillTold(r: Run, k: nat, s': Sys, h: History, h': History, members: seq<NodeId>, i: NodeId)
    requires k + 1 < |r.states| && Inv(s', h', members) && CommitInv(s', h', members) && Rel(r.states[k + 1], s')
    requires Extends(h, h') && AcksTold(r, k, h) && i in s'.peers && Reported(h, h', i, s'.peers[i].term)
    ensures AcksTold(r, k + 1, h')
  {
    hide Inv, CommitInv, Rel, Told, Extends;
    forall a | a in h'.acks ensures Told(r, k + 1, h', a) {
      if a in h.acks && h'.acks[a] == h.acks[a] {
        assert Told(r, k, h, a);
        OldAckTold(r, k, h, h', a);
      } else {
        NewAckTold(r, k + 1, s', h', members, a);
      }
    }
  }

  /** What the run shows of an entry on disk and what the history says of it are the same. */
  lemma CoveredByAcked(r: Run, members: seq<NodeId>, ss: seq<Sys>, hs: seq<History>, k: nat, i: NodeId, x: nat)
    requires Proof(r, members, ss, hs) && k < |ss| && AcksTold(r, k, hs[k])
    requires forall j :: 0 <= j <= k ==> CommitInv(ss[j], hs[j], members)
    requires i in r.states[k].nodes && i in r.states[k].disks && 1 <= x <= |DurableLog(r.states[k].disks[i])|
    ensures CoveredBy(r, k, i, x) <==> AckedAt(hs[k], i, DurableLog(r.states[k].disks[i]), x)
  {
    hide Inv, CommitInv, Rel, Extends, AllRetain, AcksTold;
    var log := DurableLog(r.states[k].disks[i]);
    var t := log[x - 1].term;
    PeerView(r.states[k], ss[k], hs[k], members, i);
    EntryReign(ss[k], hs[k], members, i, x);
    if AckedAt(hs[k], i, log, x) {
      AckCovers(r, k, hs[k], i, x);
    }
    if log[x - 1].creator == i {
      ReignAcked(ss[k], hs[k], members, t, x, i);
    } else if CoveredBy(r, k, i, x) {
      var m :| 0 <= m <= k && HeldAt(r, m, i, t, log[..x]);
      ProofGrows(r, members, ss, hs, m, k);
      HeldAcked(r, m, ss[m], hs[m], hs[k], members, i, t, log[..x]);
    }
  }

  lemma EntryReign(s: Sys, h: History, members: seq<NodeId>, i: NodeId, x: nat)
    requires Inv(s, h, members) && i in s.peers && 1 <= x <= |s.peers[i].log|
    ensures var log := s.peers[i].log;
            var t := log[x - 1].term;
            t in h.reigns && log[..x] <= h.reigns[t].log && h.reigns[t].leader == log[x - 1].creator
  {
    var log := s.peers[i].log;
    assert PeerOk(h, i, s.peers[i]);
    TracedPrefix(h, members, log, x);
    var t := log[x - 1].term;
    assert LastTerm(log[..x]) == t && ReignOk(h, members, t) && h.reigns[t].log[x - 1] == log[..x][x - 1];
  }

  lemma ReignAcked(s: Sys, h: History, members: seq<NodeId>, t: nat, x: nat, i: NodeId)
    requires CommitInv(s, h, members) && t in h.reigns && h.reigns[t].leader == i && x <= |h.reigns[t].log|
    ensures (i, t) in h.acks && x <= h.acks[(i, t)]
  {
    assert ReignHeld(h, t);
  }

  lemma AckCovers(r: Run, k: nat, h: History, i: NodeId, x: nat)
    requires k < |r.states| && AcksTold(r, k, h) && i in r.states[k].disks && 1 <= x <= |DurableLog(r.states[k].disks[i])|
    requires var log := DurableLog(r.states[k].disks[i]);
             var t := log[x - 1].term;
             AckedAt(h, i, log, x) && t in h.reigns && log[..x] <= h.reigns[t].log && h.reigns[t].leader == log[x - 1].creator
    ensures CoveredBy(r, k, i, x)
  {
    var log := DurableLog(r.states[k].disks[i]);
    var t := log[x - 1].term;
    var a := (i, t);
    assert Told(r, k, h, a);
    if h.reigns[t].leader != i {
      var m :| 0 <= m <= k && HeldAt(r, m, i, t, h.reigns[t].log[..h.acks[a]]);
      assert log[..x] <= h.reigns[t].log[..h.acks[a]];
      assert HeldAt(r, m, i, t, log[..x]);
    }
  }

  lemma HeldAcked(r: Run, m: nat, s: Sys, h: History, h': History, members: seq<NodeId>, i: NodeId, t: nat, log: Log)
    requires m < |r.states| && Inv(s, h, members) && CommitInv(s, h, members) && Rel(r.states[m], s) && Extends(h, h')
    requires HeldAt(r, m, i, t, log) && log != [] && LastTerm(log) == t
    ensures (i, t) in h'.acks && |log| <= h'.acks[(i, t)]
  {
    PeerView(r.states[m], s, h, members, i);
    var held := s.peers[i].log;
    assert PeerCommitOk(h, members, i, s.peers[i]);
    TermsRise(h, members, held, |log| - 1, |held| - 1);
    assert held[|log| - 1] == log[|log| - 1];
  }

  /** So a tear is harmless exactly when it leaves as committed only what was chosen before. */
  ghost predicate TearsJudged(r: Run, k: nat, h: History, members: seq<NodeId>)
    requires k < |r.states|
  {
    forall e: Event {:trigger TornSafe(r, k, e)} :: e.TornTick? && Enabled(r.states[k], e) ==>
      (TornSafe(r, k, e) <==> Committed(h, members, TornLog(r.states[k], e), Worked(r.states[k].nodes[e.id], e).term))
  }

  lemma CoveredAcked(r: Run, members: seq<NodeId>, ss: seq<Sys>, hs: seq<History>, k: nat, i: NodeId, index: nat)
    requires Proof(r, members, ss, hs) && k < |ss| && AcksTold(r, k, hs[k])
    requires forall j :: 0 <= j <= k ==> CommitInv(ss[j], hs[j], members)
    requires i in r.states[k].nodes && i in r.states[k].disks
    ensures Covered(r, k, i, index) <==> AckedTo(hs[k], i, DurableLog(r.states[k].disks[i]), index)
  {
    assert k < |r.states| && k < |hs|;
    hide CoveredBy, AckedAt, CommitInv, Proof, AcksTold;
    forall x: nat | 1 <= x <= |DurableLog(r.states[k].disks[i])|
      ensures CoveredBy(r, k, i, x) <==> AckedAt(hs[k], i, DurableLog(r.states[k].disks[i]), x)
    {
      CoveredByAcked(r, members, ss, hs, k, i, x);
    }
  }

  lemma JudgeTears(r: Run, members: seq<NodeId>, ss: seq<Sys>, hs: seq<History>, k: nat)
    requires Proof(r, members, ss, hs) && k < |ss| && AcksTold(r, k, hs[k]) && Based(r.states[k], members)
    requires forall j :: 0 <= j <= k ==> CommitInv(ss[j], hs[j], members)
    ensures TearsJudged(r, k, hs[k], members)
  {
    forall e: Event | e.TornTick? && Enabled(r.states[k], e)
      ensures TornSafe(r, k, e)
              <==> Committed(hs[k], members, TornLog(r.states[k], e), Worked(r.states[k].nodes[e.id], e).term)
    {
      JudgeTear(r, members, ss, hs, k, e);
    }
  }

  lemma JudgeTear(r: Run, members: seq<NodeId>, ss: seq<Sys>, hs: seq<History>, k: nat, e: Event)
    requires Proof(r, members, ss, hs) && k < |ss| && AcksTold(r, k, hs[k]) && Based(r.states[k], members)
    requires forall j :: 0 <= j <= k ==> CommitInv(ss[j], hs[j], members)
    requires e.TornTick? && Enabled(r.states[k], e)
    ensures TornSafe(r, k, e)
            <==> Committed(hs[k], members, TornLog(r.states[k], e), Worked(r.states[k].nodes[e.id], e).term)
  {
    hide Worked, Latched, Sorted, CommitsAlone, TornLog, Covered, AckedTo, AcksTold, Inv, CommitInv, Rel, Extends, AllRetain, Committed;
    TornChosenIff(r.states[k], ss[k], hs[k], members, e);
    CoveredAcked(r, members, ss, hs, k, e.id, |TornLog(r.states[k], e)|);
  }

  lemma {:induction false} RunSim(r: Run, members: seq<NodeId>, n: nat) returns (ss: seq<Sys>, hs: seq<History>)
    requires IsRun(r) && AlwaysBased(r, members) && n < |r.states|
    ensures Proof(r, members, ss, hs) && |ss| == n + 1
    ensures AlwaysTrusted(r) ==> forall k :: 0 <= k <= n ==> CommitInv(ss[k], hs[k], members) && AcksTold(r, k, hs[k])
  {
    hide Inv, CommitInv, Rel, Trusted, Step, Enabled, Initial, Extends, AllRetain, AcksTold;
    if n == 0 {
      var s := InitialSim(r.states[0], members);
      ss, hs := [s], [NOTHING];
      NothingTold(r);
    } else {
      ss, hs := RunSim(r, members, n - 1);
      assert Follows(r, n - 1) && Based(r.states[n - 1], members);
      var s, h := StepSim(r.states[n - 1], ss[n - 1], hs[n - 1], members, r.events[n - 1]);
      if AlwaysTrusted(r) {
        TrustedStep(r, members, ss, hs, n - 1, s, h);
      }
      ss, hs := ss + [s], hs + [h];
    }
  }

  lemma NothingTold(r: Run)
    requires r.states != []
    ensures AcksTold(r, 0, NOTHING)
  {
  }

  lemma TrustedStep(r: Run, members: seq<NodeId>, ss: seq<Sys>, hs: seq<History>, k: nat, s: Sys, h: History)
    requires IsRun(r) && k < |r.events| && Follows(r, k) && Trusted(r, k) && Based(r.states[k], members)
    requires Proof(r, members, ss, hs) && |ss| == k + 1
    requires forall j :: 0 <= j <= k ==> CommitInv(ss[j], hs[j], members) && AcksTold(r, j, hs[j])
    requires Inv(s, h, members) && Extends(hs[k], h) && Rel(r.states[k + 1], s)
    requires r.events[k].id in s.peers && Reported(hs[k], h, r.events[k].id, s.peers[r.events[k].id].term)
    requires Harmless(r.states[k], hs[k], members, r.events[k]) ==> CommitInv(s, h, members)
    ensures CommitInv(s, h, members) && AcksTold(r, k + 1, h)
  {
    assert |hs| == k + 1 && |r.states| == |r.events| + 1 && Enabled(r.states[k], r.events[k]);
    hide Inv, CommitInv, Rel, Step, Enabled, Initial, Extends, AllRetain, AcksTold, Reported, Proof, TornSafe, HonestStep, Latched,
         Worked, TornLog, Committed, Based, IsRun;
    JudgeTears(r, members, ss, hs, k);
    assert r.events[k].TornTick? ==> TornSafe(r, k, r.events[k]);
    AcksStillTold(r, k, s, hs[k], h, members, r.events[k].id);
  }

  /** Two moments of a run, in order, with their proof. */
  lemma Moments(r: Run, members: seq<NodeId>, j: nat, k: nat) returns (s: Sys, h: History, s': Sys, h': History)
    requires IsRun(r) && AlwaysBased(r, members) && j <= k < |r.states|
    ensures Inv(s, h, members) && Rel(r.states[j], s) && Inv(s', h', members) && Rel(r.states[k], s')
    ensures Extends(h, h') && AllRetain(s, h, s')
    ensures AlwaysTrusted(r) ==> CommitInv(s, h, members) && CommitInv(s', h', members)
    ensures AlwaysTrusted(r) ==> TearsJudged(r, j, h, members) && TearsJudged(r, k, h', members)
  {
    hide Inv, CommitInv, Rel, Trusted, Step, Enabled, Initial, Extends, AllRetain, AcksTold, TearsJudged;
    var ss, hs := RunSim(r, members, k);
    ProofGrows(r, members, ss, hs, j, k);
    s, h, s', h' := ss[j], hs[j], ss[k], hs[k];
    assert Based(r.states[j], members) && Based(r.states[k], members);
    if AlwaysTrusted(r) {
      JudgeTears(r, members, ss, hs, j);
      JudgeTears(r, members, ss, hs, k);
    }
  }

  /** Three moments, the first before the other two. */
  lemma ThreeMoments(r: Run, members: seq<NodeId>, j: nat, k: nat, q: nat)
    returns (s: Sys, h: History, s1: Sys, h1: History, s2: Sys, h2: History)
    requires IsRun(r) && AlwaysBased(r, members) && j <= k < |r.states| && j <= q < |r.states|
    ensures Inv(s, h, members) && Rel(r.states[j], s) && Inv(s1, h1, members) && Rel(r.states[k], s1)
    ensures Inv(s2, h2, members) && Rel(r.states[q], s2)
    ensures Extends(h, h1) && AllRetain(s, h, s1) && Extends(h, h2)
    ensures k <= q ==> Extends(h1, h2)
    ensures q <= k ==> Extends(h2, h1)
    ensures AlwaysTrusted(r) ==> CommitInv(s, h, members) && CommitInv(s1, h1, members) && CommitInv(s2, h2, members)
  {
    hide Inv, CommitInv, Rel, Trusted, Step, Enabled, Initial, Extends, AllRetain, AcksTold;
    var ss, hs := RunSim(r, members, Max(k, q));
    ProofGrows(r, members, ss, hs, j, k);
    ProofGrows(r, members, ss, hs, j, q);
    if k <= q { ProofGrows(r, members, ss, hs, k, q); }
    if q <= k { ProofGrows(r, members, ss, hs, q, k); }
    s, h, s1, h1, s2, h2 := ss[j], hs[j], ss[k], hs[k], ss[q], hs[q];
  }

  predicate Leads(c: State, i: NodeId, t: nat) {
    i in c.nodes && c.nodes[i].running && c.nodes[i].role == Leader && c.nodes[i].term == t
  }

  lemma LeaderReigns(c: State, s: Sys, h: History, members: seq<NodeId>, i: NodeId, t: nat)
    requires Inv(s, h, members) && Rel(c, s) && Leads(c, i, t)
    ensures t in h.reigns && h.reigns[t].leader == i && h.reigns[t].log == c.nodes[i].log
  {
    assert NodeRel(c, s, i) && PeerOk(h, i, s.peers[i]);
  }

  /** The log of a node, from memory or, while it is down, from its disk. */
  function LogOf(c: State, i: NodeId): Log
    requires i in c.nodes && i in c.disks
  {
    if c.nodes[i].running then c.nodes[i].log else DurableLog(c.disks[i])
  }

  function TermOf(c: State, i: NodeId): nat
    requires i in c.nodes && i in c.disks
  {
    if c.nodes[i].running then c.nodes[i].term else Durable(c.disks[i]).term
  }

  lemma PeerView(c: State, s: Sys, h: History, members: seq<NodeId>, i: NodeId)
    requires Inv(s, h, members) && Rel(c, s) && i in c.nodes
    ensures i in c.disks && i in s.peers && s.peers[i].log == LogOf(c, i) && s.peers[i].term == TermOf(c, i)
    ensures PeerOk(h, i, s.peers[i]) && ReignsOk(h, members)
    ensures Durable(c.disks[i]).term == TermOf(c, i) && DurableLog(c.disks[i]) == LogOf(c, i)
    ensures Durable(c.disks[i]).votedFor == s.peers[i].vote
  {
    assert NodeRel(c, s, i) && PeerOk(h, i, s.peers[i]);
  }

  lemma PeerThere(c: State, s: Sys, a: NodeId)
    requires Rel(c, s) && a in s.peers
    ensures a in c.nodes
  {
  }

  predicate Up(c: State, i: NodeId) {
    i in c.nodes && c.nodes[i].running
  }

  /** What a running node has committed. */
  function CommittedLog(c: State, i: NodeId): Log
    requires i in c.nodes && c.nodes[i].commit <= |c.nodes[i].log|
  {
    c.nodes[i].log[..c.nodes[i].commit]
  }

  lemma CommittedView(c: State, s: Sys, h: History, members: seq<NodeId>, i: NodeId)
    requires Inv(s, h, members) && Rel(c, s) && Up(c, i)
    ensures Replayed(c.nodes[i])
    ensures CommitInv(s, h, members) ==> Committed(h, members, CommittedLog(c, i), c.nodes[i].term)
  {
    assert NodeRel(c, s, i);
    if CommitInv(s, h, members) {
      assert PeerCommitOk(h, members, i, s.peers[i]);
    }
  }

  lemma SameNodesHere(c: State, e: Event)
    requires Enabled(c, e)
    ensures e.id in Step(c, e).nodes
  {
    hide Worked, ApplyAll, Load, Normalize;
  }

  lemma LongerReignLog(h: History, h': History, t: nat)
    requires Extends(h, h') && t in h.reigns
    ensures t in h'.reigns && h.reigns[t].log <= h'.reigns[t].log
  {
    assert SameReign(h.reigns[t], h'.reigns[t]);
  }

  /** After a tick the disk holds the log and the term its work has left. */
  lemma SavedLog(c: State, s: Sys, e: Event)
    requires Rel(c, s) && e.Tick? && Enabled(c, e)
    ensures var w, c' := Worked(c.nodes[e.id], e), Step(c, e);
            e.id in c'.disks && DurableLog(c'.disks[e.id]) == w.log && Durable(c'.disks[e.id]).term == w.term
  {
    hide Worked, Latched, Routine, ApplyAll, Sim;
    assert NodeRel(c, s, e.id);
    WorkRoutine(c.nodes[e.id], e);
    SavedOnDisk(c.nodes[e.id], Worked(c.nodes[e.id], e), c.disks[e.id]);
  }
}
