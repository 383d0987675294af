/** Member lists in the C engine: normalised in a fixed array, and carried in a command as text. */
module MemberLists {
  import opened RaftTypes
  import opened Sizes
  import opened Members
  import opened Strings

  // ---- Normalisation ----

  lemma DistinctGrows(ids: seq<NodeId>, i: nat)
    requires i < |ids|
    ensures Distinct(ids[..i + 1]) == if ids[i] != "" && ids[i] !in Distinct(ids[..i]) then Distinct(ids[..i]) + [ids[i]] else Distinct(ids[..i])
  {
    assert ids[..i + 1][..i] == ids[..i];
  }

  lemma {:induction false} DistinctPrefix(ids: seq<NodeId>, i: nat, j: nat)
    requires i <= j <= |ids|
    ensures Distinct(ids[..i]) <= Distinct(ids[..j])
    decreases j - i
  {
    hide Distinct;
    if i < j {
      DistinctPrefix(ids, i, j - 1);
      DistinctGrows(ids, j - 1);
    }
  }

  method Contains(out: array<NodeId>, count: nat, id: NodeId) returns (found: bool)
    requires count <= out.Length
    ensures found <==> id in out[..count]
  {
    for j := 0 to count
      invariant id !in out[..j]
    {
      if out[j] == id { return true; }
    }
    found := false;
  }

  method PutAt(out: array<NodeId>, count: nat, id: NodeId)
    requires count < out.Length
    modifies out
    ensures out[..count + 1] == old(out[..count]) + [id]
  {
    out[count] := id;
  }

  /** Copies the distinct nonempty ids, as many as fit. */
  method CopyDistinct(members: seq<NodeId>, out: array<NodeId>) returns (count: nat)
    modifies out
    ensures count == Min(|Distinct(members)|, out.Length) && out[..count] == Distinct(members)[..count]
  {
    count := 0;
    var i := 0;
    assert members[..0] == [] && Distinct([]) == [];
    hide Distinct;
    while i < |members| && count < out.Length
      invariant i <= |members| && count <= out.Length && out[..count] == Distinct(members[..i])
    {
      DistinctGrows(members, i);
      var found := Contains(out, count, members[i]);
      if members[i] != "" && !found {
        PutAt(out, count, members[i]);
        count := count + 1;
      }
      i := i + 1;
    }
    CopyDone(members, i, out[..count], out.Length);
  }

  lemma CopyDone(members: seq<NodeId>, i: nat, copied: seq<NodeId>, capacity: nat)
    requires i <= |members| && copied == Distinct(members[..i]) && |copied| <= capacity && (i == |members| || |copied| == capacity)
    ensures |copied| == Min(|Distinct(members)|, capacity) && copied == Distinct(members)[..|copied|]
  {
    hide Distinct;
    DistinctPrefix(members, i, |members|);
    assert members[..|members|] == members;
  }

  lemma InsertStep(sorted: seq<NodeId>, x: NodeId, j: nat)
    requires 0 < j <= |sorted| && Before(x, sorted[j - 1])
    ensures Insert(sorted[..j], x) + sorted[j..] == Insert(sorted[..j - 1], x) + sorted[j - 1..]
  {
    hide Before;
    assert sorted[..j][..j - 1] == sorted[..j - 1] && sorted[..j][j - 1] == sorted[j - 1];
    assert [sorted[j - 1]] + sorted[j..] == sorted[j - 1..];
  }

  lemma InsertEnd(sorted: seq<NodeId>, x: NodeId, j: nat)
    requires j <= |sorted| && (j == 0 || !Before(x, sorted[j - 1]))
    ensures Insert(sorted[..j], x) + sorted[j..] == sorted[..j] + [x] + sorted[j..]
  {
    hide Before;
  }

  /** x stands at j, what sorted had before it is in place and the rest has moved up by one. */
  predicate Sunk(now: seq<NodeId>, sorted: seq<NodeId>, x: NodeId, j: nat) {
    && j <= |sorted| && |now| == |sorted| + 1 && now[j] == x
    && (forall k :: 0 <= k < j ==> now[k] == sorted[k]) && (forall k :: j < k <= |sorted| ==> now[k] == sorted[k - 1])
  }

  lemma SunkIs(now: seq<NodeId>, sorted: seq<NodeId>, x: NodeId, j: nat)
    requires Sunk(now, sorted, x, j)
    ensures now == sorted[..j] + [x] + sorted[j..]
  {
  }

  method Swap(out: array<NodeId>, j: nat, ghost i: nat, ghost sorted: seq<NodeId>, ghost x: NodeId)
    requires 0 < j <= i < out.Length && Sunk(out[..i + 1], sorted, x, j)
    modifies out
    ensures Sunk(out[..i + 1], sorted, x, j - 1) && forall k :: i < k < out.Length ==> out[k] == old(out[k])
  {
    out[j - 1], out[j] := out[j], out[j - 1];
  }

  /** Sinks out[i] into the sorted ids before it, by neighbouring swaps. */
  method Sink(out: array<NodeId>, i: nat)
    requires i < out.Length
    modifies out
    ensures out[..i + 1] == Insert(old(out[..i]), old(out[i]))
    ensures forall k :: i < k < out.Length ==> out[k] == old(out[k])
  {
    var j: nat := i;
    ghost var sorted, x := out[..i], out[i];
    assert sorted[..i] == sorted && sorted[i..] == [] && Sunk(out[..i + 1], sorted, x, i);
    hide Before, Insert;
    while j > 0 && Before(out[j], out[j - 1])
      invariant j <= i && Sunk(out[..i + 1], sorted, x, j) && forall k :: i < k < out.Length ==> out[k] == old(out[k])
      invariant Insert(sorted, x) == Insert(sorted[..j], x) + sorted[j..]
    {
      assert out[..i + 1][j] == x && out[..i + 1][j - 1] == sorted[j - 1];
      InsertStep(sorted, x, j);
      Swap(out, j, i, sorted, x);
      j := j - 1;
    }
    assert out[..i + 1][j] == x && (j > 0 ==> out[..i + 1][j - 1] == sorted[j - 1]);
    InsertEnd(sorted, x, j);
    SunkIs(out[..i + 1], sorted, x, j);
  }

  method SortInPlace(out: array<NodeId>, count: nat)
    requires count <= out.Length
    modifies out
    ensures out[..count] == Sort(old(out[..count]))
  {
    ghost var kept := out[..count];
    hide Insert;
    for i := 0 to count
      invariant out[..i] == Sort(kept[..i]) && forall k :: i <= k < count ==> out[k] == kept[k]
    {
      assert kept[..i + 1][..i] == kept[..i];
      Sink(out, i);
    }
    assert kept[..count] == kept;
  }

  /** The C normalisation: the distinct ids, as many as fit, in order. Within capacity this is the normal
      form, which depends only on which ids there are. */
  method NormalizeMembers(members: seq<NodeId>, out: array<NodeId>) returns (count: nat)
    modifies out
    ensures count == Min(|Distinct(members)|, out.Length) && out[..count] == Sort(Distinct(members)[..count])
    ensures |Distinct(members)| <= out.Length ==> out[..count] == Normalize(members)
  {
    hide Sort, Distinct;
    count := CopyDistinct(members, out);
    assert count == |Distinct(members)| ==> Distinct(members)[..count] == Distinct(members);
    SortInPlace(out, count);
  }

  // ---- Encoding ----

  function Join(ids: seq<NodeId>): string {
    if ids == [] then "" else if |ids| == 1 then ids[0] else ids[0] + "," + Join(ids[1..])
  }

  /** The list as a command value: joined by commas and cut to the field. */
  function Encode(ids: seq<NodeId>): string {
    Clip(Join(ids), MAX_VALUE - 1)
  }

  /** The nonempty runs between commas. */
  function Tokens(text: string): seq<string>
    decreases |text|
  {
    if text == "" then []
    else if text[0] == ',' then Tokens(text[1..])
    else
      var k := IndexOf(text, ',');
      [text[..k]] + if k == |text| then [] else Tokens(text[k + 1..])
  }

  /** Tokens not yet listed, each cut to an id field, until the list is full. */
  function Collect(tokens: seq<string>, out: seq<NodeId>): seq<NodeId>
    decreases |tokens|
  {
    if tokens == [] || |out| >= MAX_NODES then out
    else Collect(tokens[1..], if tokens[0] in out then out else out + [Clip(tokens[0], MAX_ID - 1)])
  }

  function Decode(value: string): seq<NodeId> {
    Collect(Tokens(Clip(value, MAX_VALUE - 1)), [])
  }

  /** What an id field can hold, and a list can separate. */
  predicate Plain(id: NodeId) {
    0 < |id| < MAX_ID && ',' !in id
  }

  predicate AllPlain(ids: seq<NodeId>) {
    forall k :: 0 <= k < |ids| ==> Plain(ids[k])
  }

  lemma {:induction false} JoinLength(ids: seq<NodeId>)
    requires AllPlain(ids)
    ensures |Join(ids)| + 1 <= MAX_ID * |ids| || ids == []
    decreases |ids|
  {
    if |ids| > 1 { JoinLength(ids[1..]); }
  }

  /** The largest list exactly fills the value field: eight ids of fifteen characters take 127. */
  lemma {:induction false} JoinFills(ids: seq<NodeId>)
    requires ids != [] && forall k :: 0 <= k < |ids| ==> |ids[k]| == MAX_ID - 1
    ensures |Join(ids)| == MAX_ID * |ids| - 1 && (|ids| == MAX_NODES ==> |Join(ids)| == MAX_VALUE - 1)
    decreases |ids|
  {
    if |ids| > 1 { JoinFills(ids[1..]); }
  }

  lemma TokenFirst(id: NodeId, rest: string)
    requires Plain(id)
    ensures Tokens(id + "," + rest) == [id] + Tokens(rest)
    ensures Tokens(id) == [id]
  {
    var text := id + "," + rest;
    assert forall j :: 0 <= j < |id| ==> text[j] == id[j];
    IndexIs(text, ',', |id|);
    assert text[..|id|] == id && text[|id| + 1..] == rest;
    assert IndexOf(id, ',') == |id| && id[..|id|] == id;
  }

  lemma {:induction false} TokensOfJoin(ids: seq<NodeId>)
    requires AllPlain(ids)
    ensures Tokens(Join(ids)) == ids
    decreases |ids|
  {
    if ids != [] {
      assert AllPlain(ids[1..]);
      hide Tokens;
      TokenFirst(ids[0], Join(ids[1..]));
      TokensOfJoin(ids[1..]);
      assert ids == [ids[0]] + ids[1..];
      if |ids| == 1 { assert ids[1..] == []; }
    }
  }

  lemma {:induction false} CollectPlain(tokens: seq<string>, out: seq<NodeId>)
    requires AllPlain(tokens) && |out| + |tokens| <= MAX_NODES && NoRepeats(out)
    ensures NoRepeats(Collect(tokens, out))
    ensures NoRepeats(out + tokens) ==> Collect(tokens, out) == out + tokens
    decreases |tokens|
  {
    if tokens == [] {
      assert out + tokens == out;
    } else {
      assert Plain(tokens[0]) && AllPlain(tokens[1..]);
      assert Clip(tokens[0], MAX_ID - 1) == tokens[0];
      var out' := if tokens[0] in out then out else out + [tokens[0]];
      assert Collect(tokens, out) == Collect(tokens[1..], out');
      hide Collect, Plain, AllPlain;
      CollectPlain(tokens[1..], out');
      if NoRepeats(out + tokens) { NewToken(tokens, out); }
    }
  }

  lemma NewToken(tokens: seq<string>, out: seq<NodeId>)
    requires tokens != [] && NoRepeats(out + tokens)
    ensures tokens[0] !in out && out + tokens == out + [tokens[0]] + tokens[1..]
  {
    forall k | 0 <= k < |out| ensures out[k] != tokens[0] {
      assert (out + tokens)[k] != (out + tokens)[|out|];
    }
  }

  lemma {:induction false} TokensPlain(text: string)
    ensures forall t :: t in Tokens(text) ==> t != "" && ',' !in t
    decreases |text|
  {
    if text != "" {
      if text[0] == ',' {
        TokensPlain(text[1..]);
      } else {
        var k := IndexOf(text, ',');
        if k < |text| { TokensPlain(text[k + 1..]); }
      }
    }
  }

  lemma {:induction false} CollectedPlain(tokens: seq<string>, out: seq<NodeId>)
    requires (forall t :: t in tokens ==> t != "" && ',' !in t) && AllPlain(out) && |out| <= MAX_NODES
    ensures AllPlain(Collect(tokens, out)) && |Collect(tokens, out)| <= MAX_NODES
    decreases |tokens|
  {
    if tokens != [] && |out| < MAX_NODES {
      var id := Clip(tokens[0], MAX_ID - 1);
      assert tokens[0] in tokens && forall j :: 0 <= j < |id| ==> id[j] == tokens[0][j];
      assert Plain(id) && forall t :: t in tokens[1..] ==> t in tokens;
      CollectedPlain(tokens[1..], if tokens[0] in out then out else out + [id]);
    }
  }

  /** Decoding inverts encoding exactly for lists of at most eight different ids that are nonempty, have
      no comma and fit their field. Such a list always fits the value. */
  lemma EncodeDecode(ids: seq<NodeId>)
    ensures Decode(Encode(ids)) == ids <==> |ids| <= MAX_NODES && AllPlain(ids) && NoRepeats(ids)
  {
    if |ids| <= MAX_NODES && AllPlain(ids) {
      JoinLength(ids);
      TokensOfJoin(ids);
      CollectPlain(ids, []);
      assert [] + ids == ids;
    } else {
      var text := Clip(Encode(ids), MAX_VALUE - 1);
      TokensPlain(text);
      CollectedPlain(Tokens(text), []);
    }
  }

  // ---- The loops ----

  lemma {:induction false} JoinSplit(ids: seq<NodeId>, i: nat)
    requires 0 < i < |ids|
    ensures Join(ids) == Join(ids[..i]) + "," + Join(ids[i..])
    decreases |ids|
  {
    if i == 1 {
      assert ids[..1] == [ids[0]];
    } else {
      assert ids[..i][0] == ids[0] && ids[..i][1..] == ids[1..][..i - 1] && ids[1..][i - 1..] == ids[i..];
      JoinSplit(ids[1..], i - 1);
      assert Join(ids) == ids[0] + "," + (Join(ids[1..][..i - 1]) + "," + Join(ids[i..]));
    }
  }

  lemma JoinOne(id: NodeId)
    ensures Join([id]) == id && Join([]) == ""
  {
  }

  lemma JoinGrows(ids: seq<NodeId>, i: nat)
    requires i < |ids|
    ensures Join(ids[..i + 1]) == Join(ids[..i]) + (if i == 0 then "" else ",") + ids[i]
  {
    hide *;
    JoinOne(ids[i]);
    var front := ids[..i + 1];
    assert front[i..] == [ids[i]] && front[..i] == ids[..i];
    if i == 0 {
      assert front == [ids[0]] && ids[..0] == [];
    } else {
      JoinSplit(front, i);
    }
  }

  lemma JoinPrefix(ids: seq<NodeId>, i: nat)
    requires i <= |ids|
    ensures Join(ids[..i]) <= Join(ids)
  {
    hide *;
    if i == 0 {
      JoinOne("");
      assert ids[..0] == [];
    } else if i < |ids| {
      JoinSplit(ids, i);
    } else {
      assert ids[..i] == ids;
    }
  }

  method EncodeMembers(ids: seq<NodeId>) returns (out: string)
    ensures out == Encode(ids)
  {
    out := "";
    assert ids[..0] == [];
    for i := 0 to |ids|
      invariant out == Join(ids[..i]) && |out| < MAX_VALUE
    {
      hide Join;
      var piece := (if i == 0 then "" else ",") + ids[i];
      JoinGrows(ids, i);
      JoinPrefix(ids, i + 1);
      assert Join(ids[..i + 1]) == out + piece;
      if |piece| >= MAX_VALUE - |out| {
        out := (out + piece)[..MAX_VALUE - 1];
        return;
      }
      out := out + piece;
    }
    assert ids[..|ids|] == ids;
  }

  lemma TokenStep(text: string)
    requires text != ""
    ensures Tokens(text) ==
              if text[0] == ',' then Tokens(text[1..])
              else [text[..IndexOf(text, ',')]] +
                   if IndexOf(text, ',') == |text| then [] else Tokens(text[IndexOf(text, ',') + 1..])
  {
    hide IndexOf;
  }

  lemma TokensSkip(text: string, p: nat)
    requires p < |text|
    ensures text[p] == ',' ==> Tokens(text[p..]) == Tokens(text[p + 1..])
    ensures text[p] != ',' ==>
              var k := p + IndexOf(text[p..], ',');
              p < k <= |text| && Tokens(text[p..]) == [text[p..k]] + if k == |text| then [] else Tokens(text[k + 1..])
  {
    hide *;
    TokenStep(text[p..]);
    assert text[p..][1..] == text[p + 1..] && text[p..][0] == text[p];
    if text[p] != ',' {
      var k := p + IndexOf(text[p..], ',');
      assert text[p..][..k - p] == text[p..k];
      if k < |text| { assert text[p..][k - p + 1..] == text[k + 1..]; }
    }
  }

  method DecodeMembers(value: string) returns (out: seq<NodeId>)
    ensures out == Decode(value)
  {
    hide Tokens, IndexOf;
    var buffer := Clip(value, MAX_VALUE - 1);
    var p := 0;
    out := [];
    assert buffer[0..] == buffer;
    while p < |buffer| && |out| < MAX_NODES
      invariant p <= |buffer| && |out| <= MAX_NODES && Collect(Tokens(buffer[p..]), out) == Decode(value)
      decreases |buffer| - p
    {
      TokensSkip(buffer, p);
      if buffer[p] == ',' {
        p := p + 1;
      } else {
        var k := p + IndexOf(buffer[p..], ',');
        var token := buffer[p..k];
        assert Tokens(buffer[p..])[0] == token;
        TokensEnd(buffer, |buffer|);
        assert Tokens(buffer[p..])[1..] == Tokens(buffer[if k == |buffer| then k else k + 1..]);
        if token !in out { out := out + [Clip(token, MAX_ID - 1)]; }
        p := if k == |buffer| then k else k + 1;
      }
    }
    if p == |buffer| { TokensEnd(buffer, p); }
  }

  lemma TokensEnd(text: string, p: nat)
    requires p == |text|
    ensures Tokens(text[p..]) == []
  {
  }
}
