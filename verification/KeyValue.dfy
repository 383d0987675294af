/** The key-value application of the C engine: its state is a map, commands set and delete keys. */
module KeyValue {
  import opened RaftTypes

  type Kv = map<string, string>

  /** Other operations, among them the cluster commands, leave the application alone. */
  function ApplyTo(kv: Kv, c: Command): Kv {
    if c.AppCommand? && c.op == "set" then kv[c.key := c.value.GetOr("")]
    else if c.AppCommand? && c.op == "del" then kv - {c.key}
    else kv
  }

  function Run(kv: Kv, log: Log): Kv {
    if log == [] then kv else ApplyTo(Run(kv, log[..|log| - 1]), log[|log| - 1].command)
  }

  predicate Touches(c: Command, key: string) {
    c.AppCommand? && (c.op == "set" || c.op == "del") && c.key == key
  }

  function At(kv: Kv, key: string): Option<string> {
    if key in kv then Some(kv[key]) else None
  }

  lemma {:induction false} RunAppend(kv: Kv, a: Log, b: Log)
    ensures Run(kv, a + b) == Run(Run(kv, a), b)
    decreases |b|
  {
    if b == [] {
      assert a + b == a;
    } else {
      assert (a + b)[..|a + b| - 1] == a + b[..|b| - 1];
      RunAppend(kv, a, b[..|b| - 1]);
    }
  }

  /** The last command that touches a key decides its value, whatever the state before; a key no command
      touches keeps its value. */
  lemma {:induction false} LastWriteWins(s: Kv, t: Kv, log: Log, key: string)
    ensures (exists k :: 0 <= k < |log| && Touches(log[k].command, key)) ==> At(Run(s, log), key) == At(Run(t, log), key)
    ensures !(exists k :: 0 <= k < |log| && Touches(log[k].command, key)) ==> At(Run(s, log), key) == At(s, key)
  {
    if log != [] {
      var rest := log[..|log| - 1];
      LastWriteWins(s, t, rest, key);
      assert forall k :: 0 <= k < |rest| ==> rest[k] == log[k];
      if !Touches(log[|log| - 1].command, key) {
        assert At(Run(s, log), key) == At(Run(s, rest), key) && At(Run(t, log), key) == At(Run(t, rest), key);
        if k :| 0 <= k < |log| && Touches(log[k].command, key) {
          assert Touches(rest[k].command, key);
        }
      }
    }
  }

  /** What that command says: a set gives the key its value, an empty one if it carries none; a deletion
      takes it away. */
  lemma {:induction false} LastWriteIs(s: Kv, log: Log, k: nat, key: string)
    requires k < |log| && Touches(log[k].command, key) && forall j :: k < j < |log| ==> !Touches(log[j].command, key)
    ensures log[k].command.op == "set" || log[k].command.op == "del"
    ensures At(Run(s, log), key) ==
              if log[k].command.op == "set" then Some(if log[k].command.value.Some? then log[k].command.value.value else "") else None
    decreases |log|
  {
    assert "set"[0] != "del"[0];
    if k < |log| - 1 {
      LastWriteIs(s, log[..|log| - 1], k, key);
    }
  }

  /** Replaying a stretch of the log over a state that already has it changes nothing. */
  lemma RunTwice(s: Kv, log: Log)
    ensures Run(Run(s, log), log) == Run(s, log)
  {
    var once, twice := Run(s, log), Run(Run(s, log), log);
    forall key ensures At(once, key) == At(twice, key) {
      LastWriteWins(s, once, log, key);
      LastWriteWins(once, s, log, key);
    }
    SameKv(once, twice);
  }

  lemma SameKv(a: Kv, b: Kv)
    requires forall key :: At(a, key) == At(b, key)
    ensures a == b
  {
    assert forall key :: key in a <==> key in b by {
      forall key ensures key in a <==> key in b { assert At(a, key) == At(b, key); }
    }
    assert forall key :: key in a ==> a[key] == b[key] by {
      forall key | key in a ensures a[key] == b[key] { assert At(a, key) == At(b, key); }
    }
  }
}
