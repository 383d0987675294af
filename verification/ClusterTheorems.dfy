/** What every run of the cluster guarantees. */
module ClusterTheorems {
  import opened RaftTypes
  import opened LogMerge
  import opened Protocol
  import opened ProtocolSteps
  import opened NodeSpec
  import opened NodeLocal
  import opened Cluster
  import opened ClusterSafety
  import opened RunProofs

  /** At most one node ever leads in a term, at whatever moments of the run. */
  lemma ElectionSafety(r: Run, members: seq<NodeId>, j: nat, k: nat, a: NodeId, b: NodeId, t: nat)
    requires IsRun(r) && AlwaysBased(r, members) && j <= k < |r.states|
    requires Leads(r.states[j], a, t) && Leads(r.states[k], b, t)
    ensures a == b
  {
    hide Inv, Rel, CommitInv, Trusted;
    var s, h, s', h' := Moments(r, members, j, k);
    LeaderReigns(r.states[j], s, h, members, a, t);
    LeaderReigns(r.states[k], s', h', members, b, t);
    assert SameReign(h.reigns[t], h'.reigns[t]);
  }

  /** A leader never overwrites or deletes entries of its own log. */
  lemma LeaderAppendOnly(r: Run, members: seq<NodeId>, j: nat, k: nat, a: NodeId, t: nat)
    requires IsRun(r) && AlwaysBased(r, members) && j <= k < |r.states|
    requires Leads(r.states[j], a, t) && Leads(r.states[k], a, t)
    ensures r.states[j].nodes[a].log <= r.states[k].nodes[a].log
  {
    hide Inv, Rel, CommitInv, Trusted;
    var s, h, s', h' := Moments(r, members, j, k);
    LeaderReigns(r.states[j], s, h, members, a, t);
    LeaderReigns(r.states[k], s', h', members, a, t);
    assert SameReign(h.reigns[t], h'.reigns[t]);
  }

  /** Wherever two logs of the run, of any nodes at any moments, hold the same term at an index, they
      agree on every entry up to it. */
  lemma LogsMatch(r: Run, members: seq<NodeId>, j: nat, k: nat, a: NodeId, b: NodeId)
    requires IsRun(r) && AlwaysBased(r, members) && j <= k < |r.states|
    requires a in r.states[j].nodes && b in r.states[k].nodes && a in r.states[j].disks && b in r.states[k].disks
    ensures Matching(LogOf(r.states[j], a), LogOf(r.states[k], b))
  {
    hide Inv, Rel, CommitInv, Trusted;
    var s, h, s', h' := Moments(r, members, j, k);
    PeerView(r.states[j], s, h, members, a);
    PeerView(r.states[k], s', h', members, b);
    TracedStable(h, h', s.peers[a].log);
    LogMatching(h', members, s.peers[a].log, s'.peers[b].log);
  }

  /** Along a log, indices count up from one and terms never decrease nor exceed the node's term. */
  lemma LogsOrdered(r: Run, members: seq<NodeId>, k: nat, a: NodeId)
    requires IsRun(r) && AlwaysBased(r, members) && k < |r.states| && a in r.states[k].nodes && a in r.states[k].disks
    ensures var log := LogOf(r.states[k], a);
            && Indexed(log) && TermsBelow(log, TermOf(r.states[k], a) + 1)
            && forall x, y :: 0 <= x <= y < |log| ==> log[x].term <= log[y].term
  {
    hide Inv, Rel, CommitInv, Trusted;
    var s, h, _, _ := Moments(r, members, k, k);
    PeerView(r.states[k], s, h, members, a);
    var log := LogOf(r.states[k], a);
    TracedIndexed(h, members, log);
    forall x, y | 0 <= x <= y < |log| ensures log[x].term <= log[y].term {
      TermsRise(h, members, log, x, y);
    }
  }

  /** Applied entries are committed ones and committed ones are in the log, in every run. */
  lemma AppliedWindow(r: Run, members: seq<NodeId>, k: nat, a: NodeId)
    requires IsRun(r) && AlwaysBased(r, members) && k < |r.states| && Up(r.states[k], a)
    ensures Replayed(r.states[k].nodes[a])
  {
    hide Inv, Rel, CommitInv, Trusted;
    var s, h, _, _ := Moments(r, members, k, k);
    CommittedView(r.states[k], s, h, members, a);
  }

  /** Leader completeness: what any node has committed by some moment is in the log of every leader of
      that node's term or a later one from then on. */
  lemma CommittedInLaterLeaders(r: Run, members: seq<NodeId>, j: nat, k: nat, a: NodeId, l: NodeId, t: nat)
    requires IsRun(r) && AlwaysBased(r, members) && AlwaysTrusted(r) && j <= k < |r.states|
    requires Up(r.states[j], a) && Leads(r.states[k], l, t) && r.states[j].nodes[a].term <= t
    ensures Replayed(r.states[j].nodes[a]) && CommittedLog(r.states[j], a) <= r.states[k].nodes[l].log
  {
    hide Inv, Rel, CommitInv, Trusted;
    var s, h, s', h' := Moments(r, members, j, k);
    CommittedView(r.states[j], s, h, members, a);
    var done, since := CommittedLog(r.states[j], a), r.states[j].nodes[a].term;
    CommittedStable(h, h', members, done, since, since);
    LeaderReigns(r.states[k], s', h', members, l, t);
    CommittedInReign(s', h', members, done, since, t);
  }

  /** State machine safety: the committed logs of any two nodes at any two moments agree as far as both go. */
  lemma StateMachineSafety(r: Run, members: seq<NodeId>, j: nat, k: nat, a: NodeId, b: NodeId)
    requires IsRun(r) && AlwaysBased(r, members) && AlwaysTrusted(r) && j <= k < |r.states|
    requires Up(r.states[j], a) && Up(r.states[k], b)
    ensures Replayed(r.states[j].nodes[a]) && Replayed(r.states[k].nodes[b])
    ensures var x, y := CommittedLog(r.states[j], a), CommittedLog(r.states[k], b); x <= y || y <= x
  {
    hide Inv, Rel, CommitInv, Trusted;
    var s, h, s', h' := Moments(r, members, j, k);
    CommittedView(r.states[j], s, h, members, a);
    CommittedView(r.states[k], s', h', members, b);
    var done, since := CommittedLog(r.states[j], a), r.states[j].nodes[a].term;
    CommittedStable(h, h', members, done, since, since);
    CommittedAgree(s', h', members, done, since, CommittedLog(r.states[k], b), r.states[k].nodes[b].term);
  }

  /** So no two applications ever diverge: of what two of them have seen one continues the other. */
  lemma ApplicationsAgree(r: Run, members: seq<NodeId>, j: nat, k: nat, a: NodeId, b: NodeId)
    requires IsRun(r) && AlwaysBased(r, members) && AlwaysTrusted(r) && j <= k < |r.states|
    requires Up(r.states[j], a) && Up(r.states[k], b)
    ensures var x, y := r.states[j].nodes[a].app, r.states[k].nodes[b].app; x <= y || y <= x
  {
    hide AlwaysTrusted, AlwaysBased, IsRun;
    StateMachineSafety(r, members, j, k, a, b);
    ReplaysComparable(r.states[j].nodes[a], r.states[k].nodes[b]);
  }

  lemma ReplaysComparable(x: Node, y: Node)
    requires Replayed(x) && Replayed(y) && (x.log[..x.commit] <= y.log[..y.commit] || y.log[..y.commit] <= x.log[..x.commit])
    ensures x.app <= y.app || y.app <= x.app
  {
    hide Replay;
    var p, q := x.log[..x.applied], y.log[..y.applied];
    assert p == x.log[..x.commit][..x.applied] && q == y.log[..y.commit][..y.applied];
    if p <= q {
      ReplayPrefix(p, q);
    } else {
      assert q <= p;
      ReplayPrefix(q, p);
    }
  }
}
