/** A cluster of nodes with their disks and a network that may lose, repeat and reorder messages. */
module Cluster {
  import opened RaftTypes
  import opened NodeSpec
  import opened NodeLocal
  import opened Members

  /** Messages sent stay in the network: delivering one any number of times, late or never covers
      repetition, reordering and loss. */
  datatype State = State(nodes: map<NodeId, Node>, disks: map<NodeId, Disk>, net: set<Message>)

  datatype Event =
    | Tick(id: NodeId, inbox: seq<Message>, commands: seq<Command>, clock: Clock)
    | TornTick(id: NodeId, inbox: seq<Message>, commands: seq<Command>, clock: Clock)
    | Crash(id: NodeId)
    | Stop(id: NodeId)
    | Start(id: NodeId)
    | RequestChange(id: NodeId, members: seq<NodeId>)

  const NO_DISK := Disk(None, [])

  function Fresh(id: NodeId, initial: seq<NodeId>): Node {
    Load(Node(id, initial, true, Follower, 0, None, [], 0, 0, None, {}, StableConfig(initial, 0), [], map[], map[],
              [], [], [], [], None, false, None, 0, 0, Stable, DEFAULT_THRESHOLD, [], false, false), NO_DISK)
  }

  /** A new cluster: nothing on disk, nothing sent. */
  predicate Initial(c: State) {
    && c.disks.Keys == c.nodes.Keys && c.net == {}
    && (forall i :: i in c.nodes ==> c.nodes[i] == Fresh(i, c.nodes[i].initial))
    && (forall i :: i in c.disks ==> c.disks[i] == NO_DISK)
  }

  function Latched(n: Node, e: Event): Node
    requires e.Tick? || e.TornTick?
  {
    Latch(n, e.inbox, e.commands)
  }

  /** What a tick has done to the node's memory when its dump begins. */
  function Worked(n: Node, e: Event): Node
    requires e.Tick? || e.TornTick?
    requires Sorted(Latched(n, e))
  {
    MembershipStep(RoleStep(Latched(n, e), e.clock))
  }

  predicate Enabled(c: State, e: Event) {
    && e.id in c.nodes && e.id in c.disks
    && match e
       case Start(_) => !c.nodes[e.id].running
       case RequestChange(_, _) => true
       case Tick(_, inbox, _, _) => Ticks(c, e)
       case TornTick(_, inbox, _, _) => Ticks(c, e) && Worked(c.nodes[e.id], e).dirty
       case _ => c.nodes[e.id].running
  }

  /** A running node takes a tick on messages addressed to it; a tick in which the node raises is no
      tick, it can only crash. */
  predicate Ticks(c: State, e: Event)
    requires (e.Tick? || e.TornTick?) && e.id in c.nodes
  {
    var n := c.nodes[e.id];
    && n.running && (forall m :: m in e.inbox ==> m in c.net && m.target == e.id)
    && Sorted(Latched(n, e)) && InWindow(Worked(n, e)) && !Worked(n, e).fault
  }

  /** The whole tick: the dump saves if anything is dirty, then applies, then sends. */
  function Ticked(c: State, e: Event): State
    requires e.Tick? && Enabled(c, e)
  {
    var i, w := e.id, Worked(c.nodes[e.id], e);
    var a := ApplyAll(w.(dirty := false));
    State(c.nodes[i := a.(outbox := [])], c.disks[i := if w.dirty then Save(w) else c.disks[i]], c.net + set m | m in a.outbox)
  }

  function Step(c: State, e: Event): State
    requires Enabled(c, e)
  {
    var n, disk := c.nodes[e.id], c.disks[e.id];
    match e
    case Tick(_, _, _, _) => Ticked(c, e)
    case TornTick(i, _, _, _) =>
      c.(nodes := c.nodes[i := Lost(n)], disks := c.disks[i := Disk(Save(Worked(n, e)).meta, disk.log)])
    case Crash(i) => c.(nodes := c.nodes[i := Lost(n)])
    case Stop(i) => c.(nodes := c.nodes[i := Halt(n)])
    case Start(i) => c.(nodes := c.nodes[i := Load(n, disk)])
    case RequestChange(i, members) =>
      c.(nodes := c.nodes[i := n.(requested := Some(Normalize(members)), requestPending := true)])
  }

  /** A crashed process: nothing in memory survives. */
  function Lost(n: Node): Node {
    Halt(n).(nextIndex := map[], matchIndex := map[])
  }

  /** A run lists the states passed through; each event was enabled where it happened. */
  datatype Run = Run(states: seq<State>, events: seq<Event>)

  predicate IsRun(r: Run) {
    && |r.states| == |r.events| + 1 && Initial(r.states[0])
    && forall k: nat {:trigger Follows(r, k)} :: k < |r.events| ==> Follows(r, k)
  }

  predicate Follows(r: Run, k: nat)
    requires k < |r.events| && |r.states| == |r.events| + 1
  {
    Enabled(r.states[k], r.events[k]) && r.states[k + 1] == Step(r.states[k], r.events[k])
  }

  /** Every running node is stable in the given members, or joint between them and some others. */
  predicate Based(c: State, members: seq<NodeId>) {
    forall i :: i in c.nodes && c.nodes[i].running ==> c.nodes[i].config.current == members
  }

  predicate AlwaysBased(r: Run, members: seq<NodeId>) {
    forall k: nat {:trigger Based(r.states[k], members)} :: k < |r.states| ==> Based(r.states[k], members)
  }
}
