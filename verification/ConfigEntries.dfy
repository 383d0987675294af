/** What the C engine's configuration entries install, told on the entry's text: the member lists that
    replaying a log leaves are those its entries spell out. */
module ConfigEntries {
  import opened RaftTypes
  import opened Sizes
  import opened Members
  import opened Numerals
  import opened KeyValue
  import opened LogText
  import opened MemberLists
  import opened Restart

  const ENTER := "cluster.enter_joint"
  const LEAVE := "cluster.leave_joint"
  const LIMIT := "cluster.set_maxlog"

  /** A list an entry can carry: some ids, all different, that fit their fields. */
  predicate Carried(ids: seq<NodeId>) {
    0 < |ids| <= MAX_NODES && AllPlain(ids) && NoRepeats(ids)
  }

  lemma {:induction false} DistinctShort(ids: seq<NodeId>)
    ensures |Distinct(ids)| <= |ids|
  {
    if ids != [] { DistinctShort(ids[..|ids| - 1]); }
  }

  lemma NormalLists(ids: seq<NodeId>)
    requires |ids| <= MAX_NODES
    ensures Lists(NormalIds(ids), ids)
  {
    DistinctShort(ids);
    assert Distinct(ids)[..|Distinct(ids)|] == Distinct(ids);
    NormalizeSpec(ids);
    hide Distinct, Sort, Ascending;
  }

  lemma CarriedBack(ids: seq<NodeId>)
    requires Carried(ids)
    ensures Decode(Encode(ids)) == ids
  {
    EncodeDecode(ids);
    hide Decode, Encode;
  }

  lemma OpsDiffer()
    ensures ENTER != LEAVE && ENTER != LIMIT && LEAVE != LIMIT && ENTER != "set" && ENTER != "del" && LEAVE != "set" && LEAVE != "del"
    ensures LIMIT != "set" && LIMIT != "del"
  {
    assert ENTER[8] == 'e' && LEAVE[8] == 'l' && LIMIT[8] == 's';
    assert |ENTER| > 3 && |LEAVE| > 3 && |LIMIT| > 3;
  }

  /** An entry that opens a joint phase: old members as they are, new members as its value spells them,
      from its index on. Nothing else changes. */
  lemma EnterInstalls(core: Core, key: string, ids: seq<NodeId>, index: nat)
    requires Carried(ids) && |core.config.current| <= MAX_NODES && index > core.config.index
    ensures var after := ApplyEntry(core, AppCommand(ENTER, key, Some(Encode(ids))), index);
            && Lists(after.config.current, core.config.current) && Lists(after.config.joining, ids)
            && after.config.index == index && after.threshold == core.threshold && after.app == core.app
  {
    OpsDiffer();
    CarriedBack(ids);
    NormalLists(ids);
    NormalLists(core.config.current);
    hide NormalIds, Encode, Decode, Atoi, Lists, ENTER, LEAVE, LIMIT;
    assert ENTER == "cluster.enter_joint" && LIMIT == "cluster.set_maxlog" && LEAVE == "cluster.leave_joint" by { Ops(); }
  }

  lemma Ops()
    ensures ENTER == "cluster.enter_joint" && LIMIT == "cluster.set_maxlog" && LEAVE == "cluster.leave_joint"
  {
  }

  /** An entry that ends a joint phase: its members are the members, and there are no new ones. */
  lemma LeaveInstalls(core: Core, key: string, ids: seq<NodeId>, index: nat)
    requires Carried(ids) && index > core.config.index
    ensures var after := ApplyEntry(core, AppCommand(LEAVE, key, Some(Encode(ids))), index);
            && Lists(after.config.current, ids) && after.config.joining == []
            && after.config.index == index && after.threshold == core.threshold && after.app == core.app
  {
    OpsDiffer();
    CarriedBack(ids);
    NormalLists(ids);
    hide NormalIds, Encode, Decode, Atoi, Lists, ENTER, LEAVE, LIMIT;
    assert ENTER == "cluster.enter_joint" && LIMIT == "cluster.set_maxlog" && LEAVE == "cluster.leave_joint" by { Ops(); }
  }

  /** A threshold entry sets the threshold its value spells, unless that is zero. */
  lemma LimitInstalls(core: Core, key: string, k: nat, index: nat)
    ensures var after := ApplyEntry(core, AppCommand(LIMIT, key, Some(Digits(k))), index);
            after.threshold == (if k > 0 then k else core.threshold) && after.config == core.config && after.app == core.app
  {
    OpsDiffer();
    DigitsRead(k);
    hide NormalIds, Decode, Digits, Atoi;
  }

  /** Every other entry, and a configuration entry the configuration already covers, leaves configuration
      and threshold alone. */
  lemma OthersKeep(core: Core, c: Command, index: nat)
    requires c.AppCommand?
    ensures c.op != LIMIT ==> ApplyEntry(core, c, index).threshold == core.threshold
    ensures (c.op != ENTER && c.op != LEAVE) || index <= core.config.index ==> ApplyEntry(core, c, index).config == core.config
  {
    hide NormalIds, Decode, Atoi, ApplyTo;
  }

  // ---- Logs ----

  lemma {:induction false} IndexWithin(core: Core, log: Log, from: nat)
    ensures var c := RunCore(core, log, from).config; core.config.index <= c.index <= Max(core.config.index, from + |log|)
    decreases |log|
  {
    if log != [] { IndexWithin(core, log[..|log| - 1], from); }
    hide NormalIds, Decode, Atoi, ApplyTo;
  }

  predicate Configures(c: Command) {
    c.AppCommand? && (c.op == ENTER || c.op == LEAVE)
  }

  /** Entries that are no configuration entries leave what the last one has installed. */
  lemma {:induction false} QuietTail(core: Core, log: Log, from: nat, p: nat)
    requires p <= |log| && Commands(log) && forall q :: p <= q < |log| ==> !Configures(log[q].command)
    ensures RunCore(core, log, from).config == RunCore(core, log[..p], from).config
    decreases |log|
  {
    if p < |log| {
      var front := log[..|log| - 1];
      assert front[..p] == log[..p] && forall q :: p <= q < |front| ==> front[q] == log[q];
      QuietTail(core, front, from, p);
      OthersKeep(RunCore(core, front, from), log[|log| - 1].command, from + |log|);
    } else {
      assert log[..p] == log;
    }
    hide ApplyEntry, Configures;
  }

  /** After replaying a log the configuration is the one its last configuration entry spells, if the
      configuration replay started from did not already cover it. */
  lemma LastEntryDecides(core: Core, log: Log, from: nat, p: nat, op: string, key: string, ids: seq<NodeId>)
    requires p < |log| && Commands(log) && (op == ENTER || op == LEAVE) && log[p].command == AppCommand(op, key, Some(Encode(ids)))
    requires Carried(ids) && from + p + 1 > core.config.index && forall q :: p < q < |log| ==> !Configures(log[q].command)
    requires |RunCore(core, log[..p], from).config.current| <= MAX_NODES
    ensures var before, after := RunCore(core, log[..p], from).config, RunCore(core, log, from).config;
            && after.index == from + p + 1
            && (op == LEAVE ==> Lists(after.current, ids) && after.joining == [])
            && (op == ENTER ==> Lists(after.current, before.current) && Lists(after.joining, ids))
  {
    hide ApplyEntry, Lists, Encode, Carried;
    var core1 := RunCore(core, log[..p], from);
    IndexWithin(core, log[..p], from);
    QuietTail(core, log, from, p + 1);
    assert log[..p + 1][..p] == log[..p] && log[..p + 1][p] == log[p];
    if op == LEAVE {
      LeaveInstalls(core1, key, ids, from + p + 1);
    } else {
      EnterInstalls(core1, key, ids, from + p + 1);
    }
  }
}
