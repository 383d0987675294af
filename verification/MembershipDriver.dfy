/** The membership changes of the Python node: when a leader appends the entries that open and end a joint
    phase, and what applying them does. */
module MembershipDriver {
  import opened RaftTypes
  import opened Members
  import opened NodeSpec
  import opened NodeLocal
  import opened Cluster
  import opened JointTarget
  import opened TransitionTables

  // ---- The table ----

  datatype Condition = HasMembershipChangeRequest | JointConfigCommitted | CanFinalizeJoint | FinalConfigCommitted

  datatype Effect = BeginMembershipChange | EnterJointConfig | AppendFinalConfig | LeaveJointConfig

  datatype Phase = Phase(source: Membership, condition: Condition, target: Membership, effect: Effect)

  const MEMBERSHIP_TABLE: seq<Phase> := [
    Phase(Stable, HasMembershipChangeRequest, JointPending, BeginMembershipChange),
    Phase(JointPending, JointConfigCommitted, Membership.Joint, EnterJointConfig),
    Phase(Membership.Joint, CanFinalizeJoint, Finalizing, AppendFinalConfig),
    Phase(Finalizing, FinalConfigCommitted, Stable, LeaveJointConfig)
  ]

  /** A leader that was asked for members other than those it is stable in. */
  predicate Asked(n: Node) {
    && n.role == Leader && n.requestPending && n.requested.Some? && n.config.joint.None?
    && n.requested.value != n.config.current
  }

  /** Every new member but the node itself has acknowledged the whole log. */
  predicate AllAcknowledged(n: Node)
    requires n.config.joint.Some?
  {
    forall m :: m in n.config.joint.value && m != n.id ==> |n.log| == 0 || (m in n.matchIndex && n.matchIndex[m] >= |n.log|)
  }

  predicate Met(c: Condition, n: Node) {
    match c
    case HasMembershipChangeRequest => Asked(n)
    case JointConfigCommitted => n.config.joint.Some? && n.config.index == n.jointIndex
    case CanFinalizeJoint => n.role == Leader && n.config.joint.Some? && n.target.Some? && AllAcknowledged(n)
    case FinalConfigCommitted => n.config.joint.None? && n.finalIndex > 0 && n.config.index == n.finalIndex
  }

  predicate Suits(p: Phase) {
    && (p.effect.BeginMembershipChange? ==> p.condition.HasMembershipChangeRequest?)
    && (p.effect.AppendFinalConfig? ==> p.condition.CanFinalizeJoint?)
  }

  /** Opening a joint phase drops what the tick has queued so far; both entries are appended like a
      command, and with the last phase the request is forgotten. */
  function Effected(p: Phase, n: Node): Node
    requires Suits(p) && Met(p.condition, n)
  {
    var m := n.(membership := p.target);
    match p.effect
    case BeginMembershipChange =>
      AppendLocal(m.(target := n.requested, jointIndex := |n.log| + 1, outbox := []), EnterJoint(n.requested.value))
    case EnterJointConfig => m
    case AppendFinalConfig => AppendLocal(m.(finalIndex := |n.log| + 1), LeaveJoint(n.target.value))
    case LeaveJointConfig =>
      m.(requested := None, requestPending := false, target := None, jointIndex := 0, finalIndex := 0)
  }

  function Advance(table: seq<Phase>, n: Node): Node
    requires forall k :: 0 <= k < |table| ==> Suits(table[k])
  {
    if table == [] then n
    else if table[0].source == n.membership && Met(table[0].condition, n) then Effected(table[0], n)
    else Advance(table[1..], n)
  }

  lemma CaughtUpIs(n: Node)
    requires n.config.joint.Some?
    ensures CaughtUp(n) <==> AllAcknowledged(n)
  {
  }

  lemma AdvanceAt(k: nat, n: Node)
    requires k < 4
    ensures |MEMBERSHIP_TABLE| == 4 && forall j :: 0 <= j < 4 ==> Suits(MEMBERSHIP_TABLE[j])
    ensures var t := MEMBERSHIP_TABLE;
            Advance(t[k..], n) ==
              if t[k].source == n.membership && Met(t[k].condition, n) then Effected(t[k], n) else Advance(t[k + 1..], n)
  {
    var t := MEMBERSHIP_TABLE;
    assert t[k..][0] == t[k] && t[k..][1..] == t[k + 1..];
    hide Met, Effected;
  }

  function RowOf(m: Membership): (p: Phase)
    ensures p.source == m && Suits(p)
  {
    match m
    case Stable => Phase(Stable, HasMembershipChangeRequest, JointPending, BeginMembershipChange)
    case JointPending => Phase(JointPending, JointConfigCommitted, Membership.Joint, EnterJointConfig)
    case Joint => Phase(Membership.Joint, CanFinalizeJoint, Finalizing, AppendFinalConfig)
    case Finalizing => Phase(Finalizing, FinalConfigCommitted, Stable, LeaveJointConfig)
  }

  lemma RowsAre()
    ensures forall k :: 0 <= k < 4 ==> MEMBERSHIP_TABLE[k] == RowOf(MEMBERSHIP_TABLE[k].source)
    ensures MEMBERSHIP_TABLE[0].source == Stable && MEMBERSHIP_TABLE[1].source == JointPending
    ensures MEMBERSHIP_TABLE[2].source == Membership.Joint && MEMBERSHIP_TABLE[3].source == Finalizing
  {
  }

  lemma OneRow(n: Node)
    ensures |MEMBERSHIP_TABLE| == 4 && forall j :: 0 <= j < 4 ==> Suits(MEMBERSHIP_TABLE[j])
    ensures Advance(MEMBERSHIP_TABLE, n) == if Met(RowOf(n.membership).condition, n) then Effected(RowOf(n.membership), n) else n
  {
    var t := MEMBERSHIP_TABLE;
    RowsAre();
    assert t[0..] == t && t[4..] == [] && Advance([], n) == n;
    hide Met, Effected, Advance, RowOf, MEMBERSHIP_TABLE, Suits;
    AdvanceAt(0, n);
    AdvanceAt(1, n);
    AdvanceAt(2, n);
    AdvanceAt(3, n);
  }

  /** The membership transition of a tick is the table's first enabled row. */
  lemma MembershipTable(n: Node)
    ensures |MEMBERSHIP_TABLE| == 4 && forall j :: 0 <= j < 4 ==> Suits(MEMBERSHIP_TABLE[j])
    ensures MembershipStep(n) == Advance(MEMBERSHIP_TABLE, n)
  {
    OneRow(n);
    if n.config.joint.Some? { CaughtUpIs(n); }
    hide CaughtUp, AllAcknowledged, AppendLocal, Advance, MEMBERSHIP_TABLE, Suits;
  }

  // ---- What a tick appends ----

  function Own(n: Node, c: Command): Entry {
    Entry(|n.log| + 1, n.term, c, n.id)
  }

  lemma AppendLocalAdds(n: Node, c: Command)
    ensures AppendLocal(n, c).log == n.log + [Own(n, c)]
  {
    hide CommitScan, AppendMessages;
  }

  lemma StepAppends(n: Node)
    requires Targeted(n)
    ensures MembershipStep(n).log == n.log +
              if n.membership == Stable && Asked(n) then [Own(n, EnterJoint(n.requested.value))]
              else if n.membership == Membership.Joint && n.role == Leader && n.config.joint.Some? && AllAcknowledged(n)
              then [Own(n, LeaveJoint(n.config.joint.value))]
              else []
  {
    hide AppendLocal, AllAcknowledged, CaughtUp, MembershipStep;
    if n.membership == Stable && Asked(n) {
      OpeningAdds(n);
    } else if n.membership == Membership.Joint && n.role == Leader && n.config.joint.Some? {
      EndingAdds(n);
    } else {
      NoChange(n);
    }
  }

  lemma OpeningAdds(n: Node)
    requires n.membership == Stable && Asked(n)
    ensures MembershipStep(n).log == n.log + [Own(n, EnterJoint(n.requested.value))]
  {
    hide AppendLocal;
    AppendLocalAdds(n.(membership := JointPending, target := Some(n.requested.value), jointIndex := |n.log| + 1, outbox := []),
                    EnterJoint(n.requested.value));
  }

  lemma EndingAdds(n: Node)
    requires Targeted(n) && n.membership == Membership.Joint && n.role == Leader && n.config.joint.Some?
    ensures MembershipStep(n).log == n.log + if AllAcknowledged(n) then [Own(n, LeaveJoint(n.config.joint.value))] else []
  {
    CaughtUpIs(n);
    hide AppendLocal, AllAcknowledged, CaughtUp;
    AppendLocalAdds(n.(membership := Finalizing, finalIndex := |n.log| + 1), LeaveJoint(n.target.value));
  }

  /** In every run, after the role transition a tick appends at most one more entry: one that opens a joint
      phase if and only if the node is a leader that was asked for members other than those it is stable
      in, and one that ends the joint phase if and only if the node is a leader in it and every new member
      but itself has acknowledged the whole log. Each names the members it is about. */
  lemma ChangeEntries(r: Run, k: nat)
    requires IsRun(r) && k < |r.events| && r.events[k].Tick? && Enabled(r.states[k], r.events[k])
    ensures var n := r.states[k].nodes[r.events[k].id];
            var n1 := RoleStep(Latched(n, r.events[k]), r.events[k].clock);
            Worked(n, r.events[k]).log == n1.log +
              if n1.membership == Stable && Asked(n1) then [Own(n1, EnterJoint(n1.requested.value))]
              else if n1.membership == Membership.Joint && n1.role == Leader && n1.config.joint.Some? && AllAcknowledged(n1)
              then [Own(n1, LeaveJoint(n1.config.joint.value))]
              else []
  {
    assert |r.states| == |r.events| + 1;
    hide RoleStep, Latched, Targeted, MembershipStep, Step, Initial, IsRun, Worked, Sorted, Asked, AllAcknowledged;
    var e := r.events[k];
    var n := r.states[k].nodes[e.id];
    TargetKept(r, k, e.id);
    WorkedTarget(n, e);
    var n1 := RoleStep(Latched(n, e), e.clock);
    TargetMoves(n, n1);
    StepAppends(n1);
    assert Worked(n, e) == MembershipStep(n1) by { WorkedIs(n, e); }
  }

  lemma WorkedIs(n: Node, e: Event)
    requires (e.Tick? || e.TornTick?) && Sorted(Latched(n, e))
    ensures Worked(n, e) == MembershipStep(RoleStep(Latched(n, e), e.clock))
  {
  }

  lemma {:induction false} MessagesReachEnd(n: Node, peers: seq<NodeId>)
    ensures forall m :: m in AppendMessages(n, peers) ==>
              m.AppendEntries? && m.term == n.term && m.source == n.id && m.prevIndex + |m.entries| == |n.log|
  {
    if peers != [] { MessagesReachEnd(n, peers[1..]); }
  }

  lemma AppendLocalSends(n: Node, c: Command)
    requires n.outbox == []
    ensures forall m :: m in AppendLocal(n, c).outbox ==>
              m.AppendEntries? && m.term == n.term && m.source == n.id && m.prevIndex + |m.entries| == |n.log| + 1
  {
    var n2 := AdvanceCommit(Appended(n, c));
    MessagesReachEnd(n2, n2.peers);
    hide CommitScan, AppendMessages;
  }

  /** Opening a joint phase drops everything the tick has queued before: all it sends carries the new entry's index. */
  lemma OpeningDrops(n: Node)
    requires n.membership == Stable && Asked(n)
    ensures forall m :: m in MembershipStep(n).outbox ==>
              m.AppendEntries? && m.term == n.term && m.source == n.id && m.prevIndex + |m.entries| == |n.log| + 1
  {
    hide AppendLocal;
    AppendLocalSends(n.(membership := JointPending, target := Some(n.requested.value), jointIndex := |n.log| + 1, outbox := []),
                     EnterJoint(n.requested.value));
  }

  // ---- What applying the entries does ----

  lemma NormalLists(ids: seq<NodeId>)
    ensures Lists(Normalize(ids), ids) && Lists(Normalize(Normalize(ids)), ids)
  {
    NormalizeSpec(ids);
    NormalizeSpec(Normalize(ids));
    hide Normalize, Ascending;
  }

  lemma {:induction false} WithoutOnce(ids: seq<NodeId>, seen: seq<NodeId>)
    ensures NoRepeats(Without(ids, seen))
    decreases |ids|
  {
    if ids != [] && ids[0] !in seen {
      WithoutOnce(ids[1..], seen + [ids[0]]);
      var rest := Without(ids[1..], seen + [ids[0]]);
      forall k | 0 <= k < |rest| ensures rest[k] != ids[0] {
        WithoutSpec(ids[1..], seen + [ids[0]], rest[k]);
      }
    } else if ids != [] {
      WithoutOnce(ids[1..], seen);
    }
  }

  /** The peers are the other members, each once; known ones keep their indices and new ones start over. */
  ghost predicate Peered(n: Node, n': Node) {
    && (forall p :: p in n'.peers <==> MemberOf(p, n'.config) && p != n.id) && NoRepeats(n'.peers)
    && n'.nextIndex.Keys == n'.matchIndex.Keys == (set p | p in n'.peers)
    && (forall p :: p in n'.peers ==> n'.nextIndex[p] == if p in n.nextIndex then n.nextIndex[p] else 1)
    && (forall p :: p in n'.peers ==> n'.matchIndex[p] == if p in n.matchIndex then n.matchIndex[p] else 0)
  }

  lemma RefreshPeered(n: Node)
    ensures Peered(n, RefreshPeers(n))
  {
    var all := AllMembers(n.config);
    forall p ensures p in PeersOf(n.config, n.id) <==> MemberOf(p, n.config) && p != n.id {
      WithoutSpec(all, [n.id], p);
      if n.config.joint.Some? { WithoutSpec(n.config.joint.value, n.config.current, p); }
    }
    WithoutOnce(all, [n.id]);
    hide Without, NoRepeats;
  }

  /** Nothing but the configuration and what goes with it. */
  predicate OnlyMembership(n: Node, n': Node) {
    && n'.id == n.id && SameDurable(n, n') && n'.applied == n.applied && n'.app == n.app && n'.threshold == n.threshold
    && n'.initial == n.initial && n'.fault == n.fault
  }

  /** An entry that opens a joint phase, at an index the configuration does not cover: the old members stay,
      the new ones are those it names, from its index on. One that is covered does nothing. */
  lemma EnterInstalls(n: Node, members: seq<NodeId>)
    ensures n.applied <= n.config.index ==> ApplyCommand(n, EnterJoint(members)) == n
    ensures n.applied > n.config.index ==>
              var n' := ApplyCommand(n, EnterJoint(members));
              && Lists(n'.config.current, n.config.current) && n'.config.joint.Some? && Lists(n'.config.joint.value, members)
              && n'.config.index == n'.jointIndex == n.applied && n'.membership == Membership.Joint
              && n'.target == n'.requested == n'.config.joint && n'.requestPending && n'.dirty
              && n'.running == n.running && n'.role == n.role && n'.outbox == n.outbox
              && OnlyMembership(n, n') && Peered(n, n')
  {
    NormalLists(members);
    NormalLists(n.config.current);
    NormalizeBySet(members, members);
    RefreshPeered(JointWith(n, Normalize(members)));
    hide Normalize, Lists, PeersOf, Peered;
    PeeredAlike(n, JointWith(n, Normalize(members)), RefreshPeers(JointWith(n, Normalize(members))));
  }

  lemma PeeredAlike(n: Node, n1: Node, n': Node)
    requires Peered(n1, n') && n1.nextIndex == n.nextIndex && n1.matchIndex == n.matchIndex && n1.id == n.id
    ensures Peered(n, n')
  {
  }

  /** An entry that ends a joint phase: the members are those it names. A member that is not among them
      stops, and nobody else does. */
  lemma LeaveInstalls(n: Node, members: seq<NodeId>)
    ensures n.applied <= n.config.index ==> ApplyCommand(n, LeaveJoint(members)) == n
    ensures n.applied > n.config.index ==>
              var n' := ApplyCommand(n, LeaveJoint(members));
              var expelled := MemberOf(n.id, n.config) && n.id !in IdSet(members);
              && Lists(n'.config.current, members) && n'.config.joint == None
              && n'.config.index == n'.finalIndex == n.applied && n'.membership == Stable
              && n'.target == n'.requested == None && !n'.requestPending && n'.dirty
              && n'.running == (n.running && !expelled)
              && (expelled ==> n'.role == Follower && n'.outbox == [] && n'.votes == {} && n'.leader == None)
              && (!expelled ==> n'.role == n.role && n'.outbox == n.outbox)
              && OnlyMembership(n, n') && Peered(n, n')
  {
    NormalLists(members);
    NormalizeBySet(members, members);
    var n1 := StableWith(n, Normalize(members));
    RefreshPeered(n1);
    VotingIs(n);
    VotingIs(RefreshPeers(n1));
    hide Normalize, PeersOf, Peered, IsVoting;
    PeeredAlike(n, n1, RefreshPeers(n1));
    PeeredAlike(n, n1, Halt(RefreshPeers(n1)));
  }

  /** A threshold entry sets the threshold, a client's command goes to the application, and neither
      touches membership nor stops anybody. */
  lemma OthersInstall(n: Node, c: Command)
    requires c.SetMaxLog? || c.AppCommand?
    ensures var n' := ApplyCommand(n, c);
            && n'.threshold == (if c.SetMaxLog? then c.threshold else n.threshold) && n'.dirty == (n.dirty || c.SetMaxLog?)
            && n'.app == (if c.AppCommand? then n.app + [c] else n.app)
            && n'.config == n.config && n'.peers == n.peers && n'.running == n.running && n'.role == n.role
            && n'.membership == n.membership && n'.requested == n.requested && n'.target == n.target && n'.outbox == n.outbox
            && n'.nextIndex == n.nextIndex && n'.matchIndex == n.matchIndex && SameDurable(n, n') && n'.applied == n.applied
  {
  }
}
