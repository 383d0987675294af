/** When a crash between the two files of a save contradicts the cluster. */
module TornRestarts {
  import opened RaftTypes
  import opened Quorum
  import opened Protocol
  import opened ProtocolSteps
  import opened NodeSpec
  import opened NodeLocal
  import opened Refinement
  import opened Cluster
  import opened SoleVoter
  import opened ClusterSafety
  import opened RunProofs

  /** Starting a node after a tear gives exactly that as its committed log. */
  lemma TornRestart(c: State, s: Sys, e: Event)
    requires e.TornTick? && Enabled(c, e) && Rel(c, s)
    ensures var torn := Step(c, e);
            Enabled(torn, Start(e.id)) &&
            var n := Step(torn, Start(e.id)).nodes[e.id];
            n.commit <= |n.log| && n.log[..n.commit] == TornLog(c, e) && n.term == Worked(c.nodes[e.id], e).term
  {
    hide Worked, Load, Latched, Sim;
    assert NodeRel(c, s, e.id);
    var torn := Step(c, e);
    LoadFacts(torn.nodes[e.id], torn.disks[e.id]);
    assert DurableLog(torn.disks[e.id]) == DurableLog(c.disks[e.id]);
  }

  function Restarted(c: State, e: Event): Node
    requires e.TornTick? && Enabled(c, e) && Enabled(Step(c, e), Start(e.id))
  {
    Step(Step(c, e), Start(e.id)).nodes[e.id]
  }

  lemma Moment(r: Run, members: seq<NodeId>, k: nat) returns (s: Sys, h: History)
    requires IsRun(r) && AlwaysBased(r, members) && AlwaysTrusted(r) && k < |r.states|
    ensures Inv(s, h, members) && CommitInv(s, h, members) && Rel(r.states[k], s) && TearsJudged(r, k, h, members)
  {
    hide Inv, CommitInv, Rel, IsRun, AlwaysBased, AlwaysTrusted, Extends, AllRetain, TearsJudged;
    var s1, h1, s2, h2 := Moments(r, members, k, k);
    s, h := s1, h1;
  }

  /** Exactly when a tear is harmless: the node then starts again with nothing but chosen entries as
      committed, whatever its part in the cluster. */
  lemma HarmlessIffChosen(r: Run, members: seq<NodeId>, k: nat, e: Event) returns (s: Sys, h: History)
    requires IsRun(r) && AlwaysBased(r, members) && AlwaysTrusted(r) && k < |r.states|
    requires e.TornTick? && Enabled(r.states[k], e)
    ensures Inv(s, h, members) && CommitInv(s, h, members) && Rel(r.states[k], s)
    ensures Enabled(Step(r.states[k], e), Start(e.id))
    ensures var n := Restarted(r.states[k], e);
            n.commit <= |n.log| && (TornSafe(r, k, e) <==> Committed(h, members, n.log[..n.commit], n.term))
  {
    hide Inv, CommitInv, Rel, Worked, Latched, Trusted, IsRun, AlwaysBased, AlwaysTrusted, Step, TornSafe, TornLog,
         Committed, Extends, AllRetain, Based, Sorted;
    s, h := Moment(r, members, k);
    TornRestart(r.states[k], s, e);
  }

  /** Exactly when a tear contradicts the cluster: of a node that starts again after a crash between its
      two files, and any node that has committed as much, the committed logs agree if and only if the tear
      was harmless. The other may have committed it by any moment up to the crash; and, unless the node
      committed alone in the tick that was cut off, by any later moment of the run too. Whatever and
      whenever the other has committed, a harmless tear contradicts nobody. */
  lemma HarmlessTearIff(r: Run, members: seq<NodeId>, k: nat, e: Event, j: nat, b: NodeId)
    requires IsRun(r) && AlwaysBased(r, members) && AlwaysTrusted(r) && k < |r.states| && j < |r.states|
    requires e.TornTick? && Enabled(r.states[k], e) && Up(r.states[j], b)
    ensures Enabled(Step(r.states[k], e), Start(e.id)) && Replayed(r.states[j].nodes[b])
    ensures var n, other := Restarted(r.states[k], e), CommittedLog(r.states[j], b);
            && n.commit <= |n.log|
            && (TornSafe(r, k, e) ==> n.log[..n.commit] <= other || other <= n.log[..n.commit])
            && (|other| >= n.commit && (j <= k || !CommitsAlone(r.states[k].nodes[e.id], e)) ==>
                  (TornSafe(r, k, e) <==> n.log[..n.commit] <= other))
  {
    hide Inv, CommitInv, Rel, Worked, Latched, Trusted, IsRun, AlwaysBased, AlwaysTrusted, Step, TornSafe, TornLog, CommitsAlone,
         Committed, Extends, AllRetain, Based, Sorted;
    var s, h, s', h' := TornMoments(r, members, k, j);
    TornRestart(r.states[k], s, e);
    BasedHere(r, members, k, e);
    CommittedView(r.states[j], s', h', members, b);
    var w, other := Worked(r.states[k].nodes[e.id], e), CommittedLog(r.states[j], b);
    if TornSafe(r, k, e) {
      ChosenAgree(s, h, s', h', members, TornLog(r.states[k], e), w.term, other, r.states[j].nodes[b].term);
    } else if TornLog(r.states[k], e) <= other {
      if CommitsAlone(r.states[k].nodes[e.id], e) {
        if j <= k { CommittedEarlier(r, members, k, e, s, h, s', h', j, b); }
      } else {
        AidedChosenIff(r.states[k], s, h, members, e);
        ChosenAgree(s, h, s', h', members, w.log[..w.commit], w.term, other, r.states[j].nodes[b].term);
        AgreeingPrefix(TornLog(r.states[k], e), w, other);
      }
    }
  }

  /** What another has committed before is chosen. */
  lemma CommittedEarlier(r: Run, members: seq<NodeId>, k: nat, e: Event, s: Sys, h: History, s': Sys, h': History, j: nat, b: NodeId)
    requires j <= k < |r.states| && e.TornTick? && Enabled(r.states[k], e) && Up(r.states[j], b) && Replayed(r.states[j].nodes[b])
    requires Inv(s, h, members) && CommitInv(s, h, members) && Rel(r.states[k], s) && r.states[k].nodes[e.id].config.current == members
    requires Extends(h', h) && Committed(h', members, CommittedLog(r.states[j], b), r.states[j].nodes[b].term)
    requires TornLog(r.states[k], e) <= CommittedLog(r.states[j], b) && CommitsAlone(r.states[k].nodes[e.id], e)
    ensures Committed(h, members, TornLog(r.states[k], e), Worked(r.states[k].nodes[e.id], e).term)
  {
    var kept, other, since := TornLog(r.states[k], e), CommittedLog(r.states[j], b), r.states[j].nodes[b].term;
    hide Inv, CommitInv, Rel, Worked, Latched, Sorted, TornLog, CommitsAlone, Committed, Extends;
    CommittedStable(h', h, members, other, since, since);
    CommittedPrefix(h, members, other, since, |kept|);
    assert other[..|kept|] == kept;
    AloneLimit(r.states[k], s, h, members, e, kept, since);
  }

  lemma AloneLimit(c: State, s: Sys, h: History, members: seq<NodeId>, e: Event, log: Log, limit: nat)
    requires Inv(s, h, members) && CommitInv(s, h, members) && Rel(c, s) && e.TornTick? && Enabled(c, e)
    requires c.nodes[e.id].config.current == members && CommitsAlone(c.nodes[e.id], e) && Committed(h, members, log, limit)
    ensures Committed(h, members, log, Worked(c.nodes[e.id], e).term)
  {
    hide Inv, CommitInv, Latched, Worked, Sorted, Committed, HasQuorum;
    assert NodeRel(c, s, e.id);
    WorkRoutine(c.nodes[e.id], e);
    SoleLimit(s, h, members, e.id, log, limit);
    CommittedStable(h, h, members, log, c.nodes[e.id].term, Worked(c.nodes[e.id], e).term);
  }

  lemma BasedHere(r: Run, members: seq<NodeId>, k: nat, e: Event)
    requires AlwaysBased(r, members) && k < |r.states| && e.TornTick? && Enabled(r.states[k], e)
    ensures r.states[k].nodes[e.id].config.current == members
  {
    hide Latched, Worked, Sorted;
    assert Based(r.states[k], members);
  }

  /** Two moments of a trusted run, in either order. */
  lemma TornMoments(r: Run, members: seq<NodeId>, k: nat, j: nat) returns (s: Sys, h: History, s': Sys, h': History)
    requires IsRun(r) && AlwaysBased(r, members) && AlwaysTrusted(r) && k < |r.states| && j < |r.states|
    ensures Inv(s, h, members) && Rel(r.states[k], s) && Inv(s', h', members) && Rel(r.states[j], s')
    ensures CommitInv(s, h, members) && CommitInv(s', h', members) && TearsJudged(r, k, h, members)
    ensures k <= j ==> Extends(h, h')
    ensures j <= k ==> Extends(h', h)
  {
    hide Inv, CommitInv, Rel, IsRun, AlwaysBased, AlwaysTrusted, Extends, AllRetain, TearsJudged;
    if k < j {
      s, h, s', h' := Moments(r, members, k, j);
    } else if j < k {
      s', h', s, h := Moments(r, members, j, k);
    } else {
      s, h := Moment(r, members, k);
      s', h' := s, h;
      ExtendsSelf(h);
    }
  }

  lemma ChosenAgree(s: Sys, h: History, s': Sys, h': History, members: seq<NodeId>, a: Log, la: nat, b: Log, lb: nat)
    requires Inv(s, h, members) && CommitInv(s, h, members) && Inv(s', h', members) && CommitInv(s', h', members)
    requires (Extends(h, h') || Extends(h', h)) && Committed(h, members, a, la) && Committed(h', members, b, lb)
    ensures a <= b || b <= a
  {
    hide Inv, CommitInv, Committed, Extends;
    if Extends(h, h') {
      CommittedStable(h, h', members, a, la, la);
      CommittedAgree(s', h', members, a, la, b, lb);
    } else {
      CommittedStable(h', h, members, b, lb, lb);
      CommittedAgree(s, h, members, a, la, b, lb);
    }
  }

  /** Against a log that agrees with the new one, the old one is a prefix only if it agrees with the new. */
  lemma AgreeingPrefix(kept: Log, w: Node, other: Log)
    requires w.commit <= |w.log| && |kept| <= w.commit && (w.log[..w.commit] <= other || other <= w.log[..w.commit])
    ensures |other| >= |kept| ==> (kept <= w.log <==> kept <= other)
  {
    assert kept <= w.log <==> kept <= w.log[..w.commit];
    if |other| >= |kept| {
      assert other[..|kept|] == w.log[..w.commit][..|kept|];
    }
  }

  /** And the leaders: what the node takes for committed is in the log of a leader of that or a later
      term, at that or any later moment, if and only if the tear was harmless. */
  lemma TornLeaderIff(r: Run, members: seq<NodeId>, k: nat, e: Event, j: nat, l: NodeId, t: nat)
    requires IsRun(r) && AlwaysBased(r, members) && AlwaysTrusted(r) && k <= j < |r.states|
    requires e.TornTick? && Enabled(r.states[k], e) && Leads(r.states[j], l, t) && Worked(r.states[k].nodes[e.id], e).term <= t
    ensures Enabled(Step(r.states[k], e), Start(e.id))
    ensures var n, log := Restarted(r.states[k], e), r.states[j].nodes[l].log;
            && n.commit <= |n.log|
            && (TornSafe(r, k, e) ==> n.log[..n.commit] <= log)
            && (!CommitsAlone(r.states[k].nodes[e.id], e) ==> (TornSafe(r, k, e) <==> n.log[..n.commit] <= log))
  {
    hide Inv, CommitInv, Rel, Worked, Latched, Trusted, IsRun, AlwaysBased, AlwaysTrusted, Step, TornSafe, TornLog, CommitsAlone,
         Committed, Extends, AllRetain, Based, Sorted;
    var s, h, s', h' := TornMoments(r, members, k, j);
    TornRestart(r.states[k], s, e);
    BasedHere(r, members, k, e);
    LeaderReigns(r.states[j], s', h', members, l, t);
    var w, log := Worked(r.states[k].nodes[e.id], e), r.states[j].nodes[l].log;
    if TornSafe(r, k, e) {
      ChosenInReign(h, s', h', members, TornLog(r.states[k], e), w.term, t);
    } else if !CommitsAlone(r.states[k].nodes[e.id], e) {
      AidedChosenIff(r.states[k], s, h, members, e);
      ChosenInReign(h, s', h', members, w.log[..w.commit], w.term, t);
      AgreeingPrefix(TornLog(r.states[k], e), w, log);
    }
  }

  lemma ChosenInReign(h: History, s': Sys, h': History, members: seq<NodeId>, log: Log, limit: nat, t: nat)
    requires Inv(s', h', members) && CommitInv(s', h', members) && Extends(h, h') && Committed(h, members, log, limit)
    requires limit <= t && t in h'.reigns
    ensures log <= h'.reigns[t].log
  {
    hide Inv, CommitInv, Committed, Extends;
    CommittedStable(h, h', members, log, limit, limit);
    CommittedInReign(s', h', members, log, limit, t);
  }
}
