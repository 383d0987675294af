/** The C key-value application: a table of slots in which a deleted pair leaves a tombstone, and its
    snapshot as lines of text. */
module KvTable {
  import opened RaftTypes
  import opened Sizes
  import opened KeyValue

  datatype Slot = Slot(key: string, value: string, used: bool)

  /** The pairs of the live slots. */
  function Contents(slots: seq<Slot>): Kv {
    if slots == [] then map[]
    else
      var s := slots[|slots| - 1];
      var rest := Contents(slots[..|slots| - 1]);
      if s.used then rest[s.key := s.value] else rest
  }

  /** Each key has at most one live slot. */
  predicate Unique(slots: seq<Slot>) {
    forall j, k :: 0 <= j < k < |slots| && slots[j].used && slots[k].used ==> slots[j].key != slots[k].key
  }

  predicate Live(slots: seq<Slot>, k: nat, key: string) {
    k < |slots| && slots[k].used && slots[k].key == key
  }

  lemma {:induction false} ContentsAt(slots: seq<Slot>, key: string)
    requires Unique(slots)
    ensures key in Contents(slots) <==> exists k :: 0 <= k < |slots| && Live(slots, k, key)
    ensures forall k :: 0 <= k < |slots| && Live(slots, k, key) ==> key in Contents(slots) && Contents(slots)[key] == slots[k].value
  {
    if slots != [] {
      var rest := slots[..|slots| - 1];
      ContentsAt(rest, key);
      assert forall k :: 0 <= k < |rest| ==> (Live(rest, k, key) <==> Live(slots, k, key));
      if key in Contents(slots) {
        if Live(slots, |slots| - 1, key) {
        } else {
          var k :| 0 <= k < |rest| && Live(rest, k, key);
          assert Live(slots, k, key);
        }
      }
    }
  }

  /** Two tables with unique live keys hold the same pairs if every key is live alike in both. */
  lemma SameContents(a: seq<Slot>, kv: Kv)
    requires Unique(a)
    requires forall key :: key in kv <==> exists k :: 0 <= k < |a| && Live(a, k, key)
    requires forall key, k :: 0 <= k < |a| && Live(a, k, key) ==> key in kv && kv[key] == a[k].value
    ensures Contents(a) == kv
  {
    forall key ensures (key in Contents(a) <==> key in kv) && (key in kv ==> Contents(a)[key] == kv[key]) {
      ContentsAt(a, key);
    }
  }

  class Table {
    const pairs: array<Slot>
    var count: nat

    ghost predicate Valid()
      reads this, pairs
    {
      pairs.Length == MAX_PAIRS && count <= MAX_PAIRS && Unique(pairs[..count])
    }

    ghost function State(): Kv
      reads this, pairs
      requires count <= pairs.Length
    {
      Contents(pairs[..count])
    }

    constructor ()
      ensures Valid() && count == 0 && State() == map[] && fresh(pairs)
    {
      pairs, count := new Slot[MAX_PAIRS](_ => Slot("", "", false)), 0;
    }

    /** The first live slot of a key, or the count. */
    method Find(key: string) returns (i: nat)
      requires Valid()
      ensures i <= count && (i < count ==> Live(pairs[..count], i, key) && key in State() && State()[key] == pairs[i].value)
      ensures i == count ==> key !in State() && forall k :: 0 <= k < count ==> !Live(pairs[..count], k, key)
    {
      ContentsAt(pairs[..count], key);
      i := 0;
      while i < count
        invariant i <= count && forall k :: 0 <= k < i ==> !Live(pairs[..count], k, key)
      {
        if pairs[i].used && pairs[i].key == key {
          assert Live(pairs[..count], i, key);
          return;
        }
        i := i + 1;
      }
    }

    method Get(key: string) returns (value: string)
      requires Valid()
      ensures value == if key in State() then State()[key] else ""
    {
      var i := Find(key);
      value := if i < count then pairs[i].value else "";
    }

    method Overwrite(i: nat, value: string)
      requires Valid() && i < count && pairs[i].used
      modifies pairs
      ensures Valid() && State() == old(State())[old(pairs[i].key) := value]
    {
      ghost var was, key := pairs[..count], pairs[i].key;
      pairs[i] := pairs[i].(value := value);
      OverwriteContents(was, i, value);
      assert pairs[..count] == was[i := was[i].(value := value)];
    }

    method Add(key: string, value: string)
      requires Valid() && count < MAX_PAIRS && key !in State()
      modifies this, pairs
      ensures Valid() && State() == old(State())[key := value] && count == old(count) + 1
    {
      ghost var was := pairs[..count];
      ContentsAt(was, key);
      pairs[count] := Slot(key, value, true);
      count := count + 1;
      assert pairs[..count] == was + [Slot(key, value, true)];
      assert (was + [Slot(key, value, true)])[..|was|] == was;
      assert forall k :: 0 <= k < |was| && was[k].used ==> was[k].key != key by {
        assert forall k :: 0 <= k < |was| ==> !Live(was, k, key);
      }
    }

    method Bury(i: nat)
      requires Valid() && i < count && pairs[i].used
      modifies pairs
      ensures Valid() && State() == old(State()) - {old(pairs[i].key)}
    {
      ghost var was := pairs[..count];
      pairs[i] := pairs[i].(used := false);
      BuryContents(was, i);
      assert pairs[..count] == was[i := was[i].(used := false)];
    }

    /** Every command does to the map what it says, except that a full table drops a new key. A slot is
        consumed only by a new key, and never given back. */
    method Apply(c: Command)
      requires Valid()
      modifies this, pairs
      ensures Valid() && old(count) <= count <= old(count) + 1
      ensures State() == if old(count) == MAX_PAIRS && c.AppCommand? && c.op == "set" && c.key !in old(State())
                         then old(State()) else ApplyTo(old(State()), c)
    {
      if !c.AppCommand? { return; }
      if c.op == "set" {
        var i := Find(c.key);
        if i < count {
          Overwrite(i, c.value.GetOr(""));
        } else if count < MAX_PAIRS {
          Add(c.key, c.value.GetOr(""));
        }
      } else if c.op == "del" {
        var i := Find(c.key);
        if i < count { Bury(i); }
      }
    }

    /** As long as the table cannot fill up, any sequence of commands leaves what a map would hold. */
    method ApplyAll(log: Log)
      requires Valid() && count + |log| <= MAX_PAIRS
      modifies this, pairs
      ensures Valid() && State() == Run(old(State()), log)
    {
      hide ApplyTo, Contents;
      for i := 0 to |log|
        invariant Valid() && count <= old(count) + i && State() == Run(old(State()), log[..i])
      {
        assert log[..i + 1][..i] == log[..i];
        Apply(log[i].command);
      }
      assert log[..|log|] == log;
    }
  }

  lemma OverwriteContents(slots: seq<Slot>, i: nat, value: string)
    requires Unique(slots) && i < |slots| && slots[i].used
    ensures var b := slots[i := slots[i].(value := value)];
            Unique(b) && Contents(b) == Contents(slots)[slots[i].key := value]
  {
    var b, kv := slots[i := slots[i].(value := value)], Contents(slots)[slots[i].key := value];
    assert forall k, key :: 0 <= k < |slots| ==> (Live(b, k, key) <==> Live(slots, k, key));
    forall key ensures key in kv <==> exists k :: 0 <= k < |b| && Live(b, k, key) {
      ContentsAt(slots, key);
      assert Live(b, i, slots[i].key);
    }
    forall key, k | 0 <= k < |b| && Live(b, k, key) ensures key in kv && kv[key] == b[k].value {
      ContentsAt(slots, key);
    }
    SameContents(b, kv);
  }

  lemma BuryContents(slots: seq<Slot>, i: nat)
    requires Unique(slots) && i < |slots| && slots[i].used
    ensures var b := slots[i := slots[i].(used := false)];
            Unique(b) && Contents(b) == Contents(slots) - {slots[i].key}
  {
    var b, kv := slots[i := slots[i].(used := false)], Contents(slots) - {slots[i].key};
    assert forall k, key :: 0 <= k < |slots| && k != i ==> (Live(b, k, key) <==> Live(slots, k, key));
    forall key ensures key in kv <==> exists k :: 0 <= k < |b| && Live(b, k, key) {
      ContentsAt(slots, key);
      if key in kv {
        var k :| 0 <= k < |slots| && Live(slots, k, key);
        assert Live(b, k, key);
      }
    }
    forall key, k | 0 <= k < |b| && Live(b, k, key) ensures key in kv && kv[key] == b[k].value {
      ContentsAt(slots, key);
    }
    SameContents(b, kv);
  }
}
