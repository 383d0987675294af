/** The snapshot of the key-value table as text, one "key=value" line for each live pair, and its way back. */
module KvSnapshot {
  import opened Sizes
  import opened KvTable
  import opened Strings

  function Line(s: Slot): string {
    s.key + "=" + s.value + "\n"
  }

  /** Lines are written in slot order until one does not fit with its terminator. */
  function SnapshotText(slots: seq<Slot>, room: nat): string {
    if slots == [] then ""
    else if !slots[0].used then SnapshotText(slots[1..], room)
    else if |Line(slots[0])| >= room then ""
    else Line(slots[0]) + SnapshotText(slots[1..], room - |Line(slots[0])|)
  }

  /** The slot of a parsed pair, if its parts fit their fields. */
  function Pair(key: string, value: string): (r: seq<Slot>)
    ensures |r| <= 1
  {
    if key == "" || |key| >= MAX_KEY || |value| >= MAX_VALUE then [] else [Slot(key, value, true)]
  }

  /** Each line gives a slot; a line with an empty or oversized part is skipped, and a line without a
      separator ends the restore. */
  function ParseSlots(text: string, room: nat): seq<Slot>
    decreases |text|
  {
    if text == "" || room == 0 then []
    else
      var eq, nl := IndexOf(text, '='), IndexOf(text, '\n');
      if eq == |text| || nl == |text| || eq >= nl then []
      else
        var key, value := text[..eq], text[eq + 1..nl];
        Pair(key, value) + ParseSlots(text[nl + 1..], room - |Pair(key, value)|)
  }

  /** A pair that its line gives back. */
  predicate Clean(s: Slot) {
    && 0 < |s.key| < MAX_KEY && |s.value| < MAX_VALUE
    && '=' !in s.key && '\n' !in s.key && '\n' !in s.value
  }

  predicate LiveClean(slots: seq<Slot>) {
    forall k :: 0 <= k < |slots| && slots[k].used ==> Clean(slots[k])
  }

  function Text(slots: seq<Slot>): string {
    if slots == [] then "" else (if slots[0].used then Line(slots[0]) else "") + Text(slots[1..])
  }

  function LiveSlots(slots: seq<Slot>): seq<Slot> {
    if slots == [] then [] else (if slots[0].used then [slots[0]] else []) + LiveSlots(slots[1..])
  }

  lemma ParseOne(text: string, room: nat)
    requires text != "" && room > 0
    ensures var eq, nl := IndexOf(text, '='), IndexOf(text, '\n');
            ParseSlots(text, room) ==
              if eq < nl < |text| then
                Pair(text[..eq], text[eq + 1..nl]) + ParseSlots(text[nl + 1..], room - |Pair(text[..eq], text[eq + 1..nl])|)
              else []
  {
    hide IndexOf, Pair;
  }

  lemma LineParts(s: Slot, rest: string)
    requires Clean(s)
    ensures var text, eq, nl := Line(s) + rest, |s.key|, |s.key| + 1 + |s.value|;
            && IndexOf(text, '=') == eq && IndexOf(text, '\n') == nl && eq < nl < |text|
            && text[..eq] == s.key && text[eq + 1..nl] == s.value && text[nl + 1..] == rest
  {
    var text, eq, nl := Line(s) + rest, |s.key|, |s.key| + 1 + |s.value|;
    assert forall j :: 0 <= j < eq ==> text[j] == s.key[j];
    assert forall j :: eq < j < nl ==> text[j] == s.value[j - eq - 1];
    IndexIs(text, '=', eq);
    IndexIs(text, '\n', nl);
  }

  lemma ParseLine(s: Slot, rest: string, room: nat)
    requires Clean(s) && s.used && room > 0
    ensures ParseSlots(Line(s) + rest, room) == [s] + ParseSlots(rest, room - 1)
  {
    hide *;
    CleanPair(s);
    LineParts(s, rest);
    ParseOne(Line(s) + rest, room);
  }

  lemma CleanPair(s: Slot)
    requires Clean(s) && s.used
    ensures Pair(s.key, s.value) == [s]
  {
  }

  lemma TextStep(slots: seq<Slot>)
    requires slots != [] && LiveClean(slots)
    ensures LiveClean(slots[1..]) && (slots[0].used ==> Clean(slots[0]))
    ensures Text(slots) == if slots[0].used then Line(slots[0]) + Text(slots[1..]) else Text(slots[1..])
    ensures LiveSlots(slots) == if slots[0].used then [slots[0]] + LiveSlots(slots[1..]) else LiveSlots(slots[1..])
  {
    hide Line, Clean;
    assert forall k :: 0 <= k < |slots[1..]| ==> slots[1..][k] == slots[k + 1];
  }

  lemma ParseNothing(room: nat)
    ensures Text([]) == "" && LiveSlots([]) == [] && ParseSlots("", room) == []
  {
  }

  lemma {:induction false} ParseText(slots: seq<Slot>, room: nat)
    requires LiveClean(slots) && |LiveSlots(slots)| <= room
    ensures ParseSlots(Text(slots), room) == LiveSlots(slots)
    decreases |slots|
  {
    hide *;
    if slots == [] {
      ParseNothing(room);
    } else {
      TextStep(slots);
      if slots[0].used {
        ParseLine(slots[0], Text(slots[1..]), room);
        ParseText(slots[1..], room - 1);
      } else {
        ParseText(slots[1..], room);
      }
    }
  }

  /** Whatever the text, every restored pair is clean. */
  lemma {:induction false} ParsedClean(text: string, room: nat)
    ensures forall s :: s in ParseSlots(text, room) ==> s.used && Clean(s)
    decreases |text|
  {
    hide *;
    if text == "" || room == 0 {
      ParseEnds(text, 0, room);
      assert text[0..] == text;
    } else {
      var eq, nl := IndexOf(text, '='), IndexOf(text, '\n');
      ParseOne(text, room);
      if eq < nl < |text| {
        PairClean(text, eq, nl);
        ParsedClean(text[nl + 1..], room - |Pair(text[..eq], text[eq + 1..nl])|);
      }
    }
  }

  lemma PairClean(text: string, eq: nat, nl: nat)
    requires eq == IndexOf(text, '=') && nl == IndexOf(text, '\n') && eq < nl < |text|
    ensures forall s :: s in Pair(text[..eq], text[eq + 1..nl]) ==> s.used && Clean(s)
  {
    hide IndexOf;
  }

  lemma {:induction false} LiveSame(slots: seq<Slot>)
    ensures |LiveSlots(slots)| <= |slots|
    ensures forall s :: s in LiveSlots(slots) <==> s in slots && s.used
    ensures Unique(slots) ==> Unique(LiveSlots(slots))
  {
    if slots != [] {
      assert slots == [slots[0]] + slots[1..];
      LiveSame(slots[1..]);
      if Unique(slots) {
        assert Unique(slots[1..]);
        forall k | 0 <= k < |LiveSlots(slots[1..])| ensures slots[0].used ==> LiveSlots(slots[1..])[k].key != slots[0].key {
          var s := LiveSlots(slots[1..])[k];
          assert s in slots[1..];
          var j :| 0 <= j < |slots[1..]| && slots[1..][j] == s;
          assert slots[j + 1] == s;
        }
      }
    }
  }

  lemma LiveContents(slots: seq<Slot>)
    requires Unique(slots)
    ensures Contents(LiveSlots(slots)) == Contents(slots)
  {
    var live, kv := LiveSlots(slots), Contents(slots);
    LiveSame(slots);
    forall key ensures key in kv <==> exists k :: 0 <= k < |live| && Live(live, k, key) {
      ContentsAt(slots, key);
      if key in kv {
        var k :| 0 <= k < |slots| && Live(slots, k, key);
        assert slots[k] in live;
        var j :| 0 <= j < |live| && live[j] == slots[k];
        assert Live(live, j, key);
      }
      if k :| 0 <= k < |live| && Live(live, k, key) { LiveBack(slots, k, key); }
    }
    forall key, k | 0 <= k < |live| && Live(live, k, key) ensures key in kv && kv[key] == live[k].value {
      LiveBack(slots, k, key);
    }
    SameContents(live, kv);
  }

  lemma LiveBack(slots: seq<Slot>, k: nat, key: string)
    requires Unique(slots) && k < |LiveSlots(slots)| && Live(LiveSlots(slots), k, key)
    ensures key in Contents(slots) && Contents(slots)[key] == LiveSlots(slots)[k].value
  {
    LiveSame(slots);
    var s := LiveSlots(slots)[k];
    assert s in slots;
    var j :| 0 <= j < |slots| && slots[j] == s;
    ContentsAt(slots, key);
    assert Live(slots, j, key);
  }

  /** The slots whose lines are written. */
  function Written(slots: seq<Slot>, room: nat): (n: nat)
    ensures n <= |slots|
  {
    if slots == [] then 0
    else if !slots[0].used then 1 + Written(slots[1..], room)
    else if |Line(slots[0])| >= room then 0
    else 1 + Written(slots[1..], room - |Line(slots[0])|)
  }

  lemma {:induction false} WrittenIs(slots: seq<Slot>, room: nat)
    requires room > 0
    ensures var n := Written(slots, room);
            && SnapshotText(slots, room) == Text(slots[..n])
            && (n == |slots| <==> |Text(slots)| < room) && (n < |slots| ==> slots[n].used)
    decreases |slots|
  {
    if slots != [] {
      var rest := slots[1..];
      var left: nat := if slots[0].used then (if |Line(slots[0])| >= room then 0 else room - |Line(slots[0])|) else room;
      if left > 0 {
        WrittenIs(rest, left);
        var n := Written(rest, left);
        assert slots[..n + 1][0] == slots[0] && slots[..n + 1][1..] == rest[..n];
      }
    }
  }

  /** A pair found in any table's contents stands in one of its live slots. */
  lemma {:induction false} FromSlot(slots: seq<Slot>, key: string)
    requires key in Contents(slots)
    ensures exists k :: 0 <= k < |slots| && Live(slots, k, key) && slots[k].value == Contents(slots)[key]
  {
    var last := |slots| - 1;
    if Live(slots, last, key) {
    } else {
      FromSlot(slots[..last], key);
      var k :| 0 <= k < last && Live(slots[..last], k, key) && slots[..last][k].value == Contents(slots[..last])[key];
      assert Live(slots, k, key);
    }
  }

  function Restored(text: string): seq<Slot> {
    ParseSlots(text, MAX_PAIRS)
  }

  /** With clean pairs, restoring gives back exactly the slots that were written. */
  lemma RestoredPrefix(slots: seq<Slot>)
    requires Unique(slots) && |slots| <= MAX_PAIRS && LiveClean(slots)
    ensures Contents(Restored(SnapshotText(slots, MAX_SNAPSHOT))) == Contents(slots[..Written(slots, MAX_SNAPSHOT)])
  {
    WrittenIs(slots, MAX_SNAPSHOT);
    var kept := slots[..Written(slots, MAX_SNAPSHOT)];
    LiveSame(kept);
    ParseText(kept, MAX_PAIRS);
    LiveContents(kept);
  }

  /** The snapshot round trip, exactly: restoring the snapshot of a table gives back its contents if and
      only if every live key is nonempty, has no '=' and no newline, every live value has no newline,
      both have the lengths of the fields they live in, and all the lines fit into the buffer. */
  lemma SnapshotRoundTrip(slots: seq<Slot>)
    requires Unique(slots) && |slots| <= MAX_PAIRS
    ensures Contents(Restored(SnapshotText(slots, MAX_SNAPSHOT))) == Contents(slots) <==>
              LiveClean(slots) && |Text(slots)| < MAX_SNAPSHOT
  {
    var back := Restored(SnapshotText(slots, MAX_SNAPSHOT));
    if LiveClean(slots) {
      RestoredPrefix(slots);
      WrittenIs(slots, MAX_SNAPSHOT);
      var n := Written(slots, MAX_SNAPSHOT);
      if n == |slots| {
        assert slots[..n] == slots;
      } else {
        ContentsAt(slots, slots[n].key);
        ContentsAt(slots[..n], slots[n].key);
        assert Live(slots, n, slots[n].key);
        assert forall k :: 0 <= k < n ==> !Live(slots[..n], k, slots[n].key);
      }
    } else if Contents(back) == Contents(slots) {
      var k :| 0 <= k < |slots| && slots[k].used && !Clean(slots[k]);
      ContentsAt(slots, slots[k].key);
      assert Live(slots, k, slots[k].key);
      FromSlot(back, slots[k].key);
      ParsedClean(SnapshotText(slots, MAX_SNAPSHOT), MAX_PAIRS);
      assert false;
    }
  }

  // ---- The loops ----

  method Put(buf: array<char>, at: nat, text: string)
    requires at + |text| <= buf.Length
    modifies buf
    ensures buf[..at] == old(buf[..at]) && buf[at..at + |text|] == text
  {
    for i := 0 to |text|
      invariant buf[..at] == old(buf[..at]) && forall k :: 0 <= k < i ==> buf[at + k] == text[k]
    {
      buf[at + i] := text[i];
    }
  }

  /** One pass of the loop. */
  lemma SlotText(slots: seq<Slot>, i: nat, room: nat)
    requires i < |slots|
    ensures SnapshotText(slots[i..], room) ==
              if !slots[i].used then SnapshotText(slots[i + 1..], room)
              else if |Line(slots[i])| >= room then ""
              else Line(slots[i]) + SnapshotText(slots[i + 1..], room - |Line(slots[i])|)
  {
    assert slots[i..][0] == slots[i] && slots[i..][1..] == slots[i + 1..];
    hide Line;
  }

  method Snapshot(t: Table, buf: array<char>) returns (written: nat)
    requires t.Valid() && buf.Length > 0
    modifies buf
    ensures written < buf.Length && buf[..written] == SnapshotText(t.pairs[..t.count], buf.Length)
  {
    hide SnapshotText, Line;
    written := 0;
    ghost var slots := t.pairs[..t.count];
    TextEnds(slots, buf.Length);
    for i := 0 to t.count
      invariant written < buf.Length
      invariant SnapshotText(slots, buf.Length) == buf[..written] + SnapshotText(slots[i..], buf.Length - written)
    {
      var s := t.pairs[i];
      SlotText(slots, i, buf.Length - written);
      if s.used {
        var line := Line(s);
        if |line| >= buf.Length - written {
          assert buf[..written] + "" == buf[..written];
          return;
        }
        Put(buf, written, line);
        assert buf[..written + |line|] == buf[..written] + line;
        written := written + |line|;
      }
    }
    TextEnds(slots, buf.Length - written);
    assert buf[..written] + "" == buf[..written];
  }

  lemma TextEnds(slots: seq<Slot>, room: nat)
    ensures slots[0..] == slots && SnapshotText(slots[|slots|..], room) == ""
  {
  }

  /** Stores one parsed pair, if its parts fit their fields. */
  method Store(t: Table, key: string, value: string)
    requires t.count < t.pairs.Length
    modifies t, t.pairs
    ensures t.count <= t.pairs.Length && t.pairs[..t.count] == old(t.pairs[..t.count]) + Pair(key, value)
  {
    if key == "" || |key| >= MAX_KEY || |value| >= MAX_VALUE { return; }
    t.pairs[t.count] := Slot(key, value, true);
    t.count := t.count + 1;
  }

  lemma ParseStep(text: string, p: nat, eq: nat, nl: nat, room: nat)
    requires p < |text| && room > 0 && eq == p + IndexOf(text[p..], '=') && nl == p + IndexOf(text[p..], '\n')
    ensures eq < nl < |text| ==>
              ParseSlots(text[p..], room)
                == Pair(text[p..eq], text[eq + 1..nl]) + ParseSlots(text[nl + 1..], room - |Pair(text[p..eq], text[eq + 1..nl])|)
    ensures eq == |text| || nl == |text| || eq >= nl ==> ParseSlots(text[p..], room) == []
  {
    hide ParseSlots, IndexOf, Pair;
    ParseOne(text[p..], room);
    if eq < nl < |text| {
      assert text[p..][..eq - p] == text[p..eq];
      assert text[p..][eq - p + 1..nl - p] == text[eq + 1..nl];
      assert text[p..][nl - p + 1..] == text[nl + 1..];
    }
  }

  method Restore(t: Table, buf: array<char>, size: nat)
    requires t.pairs.Length == MAX_PAIRS && size <= buf.Length
    modifies t, t.pairs
    ensures t.count <= MAX_PAIRS && t.pairs[..t.count] == Restored(buf[..size])
  {
    hide ParseSlots, IndexOf, Pair;
    t.count := 0;
    var p := 0;
    ghost var text := buf[..size];
    assert text[0..] == text;
    while p < size && t.count < MAX_PAIRS
      invariant p <= size && t.count <= MAX_PAIRS && text == buf[..size]
      invariant t.pairs[..t.count] + ParseSlots(text[p..], MAX_PAIRS - t.count) == Restored(text)
      decreases size - p
    {
      assert buf[p..size] == text[p..];
      var eq := Scan(buf, p, size, '=');
      var nl := Scan(buf, p, size, '\n');
      ParseStep(text, p, eq, nl, MAX_PAIRS - t.count);
      if eq == size || nl == size || eq >= nl { return; }
      assert text[p..eq] == buf[p..eq] && text[eq + 1..nl] == buf[eq + 1..nl];
      Store(t, buf[p..eq], buf[eq + 1..nl]);
      p := nl + 1;
    }
    ParseEnds(text, p, MAX_PAIRS - t.count);
  }

  lemma ParseEnds(text: string, p: nat, room: nat)
    requires p <= |text| && (p == |text| || room == 0)
    ensures ParseSlots(text[p..], room) == []
  {
  }
}
