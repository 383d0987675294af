/** The loops of the C storage that print the log and read it back through a line buffer. */
module LogFile {
  import opened RaftTypes
  import opened Strings
  import opened LogText

  const NUL := '\0'

  /** The C string that starts at a position of a buffer. */
  function StringAt(buffer: seq<char>, start: nat): string
    requires start <= |buffer|
  {
    buffer[start..][..IndexOf(buffer[start..], NUL)]
  }

  lemma StringIs(buffer: seq<char>, start: nat, end: nat)
    requires start <= end < |buffer| && buffer[end] == NUL && NUL !in buffer[start..end]
    ensures StringAt(buffer, start) == buffer[start..end]
  {
    assert forall j :: 0 <= j < end - start ==> buffer[start..][j] == buffer[start..end][j];
    IndexIs(buffer[start..], NUL, end - start);
    assert buffer[start..][..end - start] == buffer[start..end];
  }

  /** Field k of the line starts at starts[k] and is closed by a NUL at ends[k]. */
  ghost predicate FieldsCut(buffer: seq<char>, starts: seq<nat>, ends: seq<nat>, fields: seq<string>, limit: nat) {
    && |starts| == |ends| == |fields|
    && forall k :: 0 <= k < |starts| ==>
         && starts[k] <= ends[k] < limit <= |buffer| && buffer[ends[k]] == NUL
         && buffer[starts[k]..ends[k]] == fields[k] && NUL !in fields[k]
  }

  function Prepend(fields: seq<string>, more: Option<seq<string>>): Option<seq<string>> {
    match more case None => None case Some(rest) => Some(fields + rest)
  }

  lemma SplitOnce(line: string, n: nat)
    requires n > 1
    ensures var k := IndexOf(line, '|');
            SplitFields(line, n) == if k == |line| then None else Prepend([line[..k]], SplitFields(line[k + 1..], n - 1))
  {
    hide IndexOf;
  }

  lemma SplitAtBar(line: string, p: nat, bar: nat, n: nat)
    requires p <= |line| && bar == p + IndexOf(line[p..], '|') && n > 1
    ensures bar == |line| ==> SplitFields(line[p..], n) == None
    ensures bar < |line| ==> SplitFields(line[p..], n) == Prepend([line[p..bar]], SplitFields(line[bar + 1..], n - 1))
  {
    hide *;
    SplitOnce(line[p..], n);
    assert line[p..][..bar - p] == line[p..bar];
    if bar < |line| { assert line[p..][bar - p + 1..] == line[bar + 1..]; }
  }

  lemma SplitAtEnd(line: string, p: nat, nl: nat)
    requires p <= |line| && nl == p + IndexOf(line[p..], '\n')
    ensures SplitFields(line[p..], 1) == Some([line[p..nl]])
  {
    assert line[p..][..nl - p] == line[p..nl];
    hide IndexOf;
  }

  lemma PrependTwice(a: seq<string>, field: string, more: Option<seq<string>>)
    ensures Prepend(a, Prepend([field], more)) == Prepend(a + [field], more)
  {
    if more.Some? { assert a + ([field] + more.value) == (a + [field]) + more.value; }
  }

  lemma FieldsMore(before: seq<char>, starts: seq<nat>, ends: seq<nat>, fields: seq<string>, p: nat, cut: nat)
    requires FieldsCut(before, starts, ends, fields, p) && p <= cut < |before| && NUL !in before[p..cut]
    ensures FieldsCut(before[cut := NUL], starts + [p], ends + [cut], fields + [before[p..cut]], cut + 1)
  {
    var after := before[cut := NUL];
    assert after[p..cut] == before[p..cut];
    forall k | 0 <= k < |starts| ensures after[starts[k]..ends[k]] == before[starts[k]..ends[k]] && after[ends[k]] == before[ends[k]] {
    }
  }

  /** Cuts a line into its fields where it stands, writing NULs over the separators. The line ends at
      length, where the buffer already holds one. */
  method SplitInPlace(buffer: array<char>, length: nat, expected: nat) returns (ok: bool, starts: seq<nat>)
    requires length < buffer.Length && buffer[length] == NUL && NUL !in buffer[..length] && expected > 0
    modifies buffer
    ensures ok <==> SplitFields(old(buffer[..length]), expected).Some?
    ensures ok ==> Cut(buffer[..], starts, SplitFields(old(buffer[..length]), expected).value)
  {
    hide SplitFields, FieldsCut, StringAt, IndexOf;
    starts, ok := [], false;
    ghost var line := buffer[..length];
    ghost var ends: seq<nat>, fields: seq<string> := [], [];
    var p, i: nat := 0, 1;
    assert line[0..] == line;
    NothingCut(buffer[..], line, expected);
    while i < expected
      invariant 0 < i <= expected && p <= length && buffer[p..length] == line[p..] && buffer[length] == NUL
      invariant FieldsCut(buffer[..], starts, ends, fields, p)
      invariant SplitFields(line, expected) == Prepend(fields, SplitFields(line[p..], expected - i + 1))
    {
      var bar := Scan(buffer, p, length, '|');
      SplitAtBar(line, p, bar, expected - i + 1);
      if bar == length { return; }
      OneMore(buffer[..], line, starts, ends, fields, p, bar, length);
      PrependTwice(fields, line[p..bar], SplitFields(line[bar + 1..], expected - i));
      starts, ends, fields := starts + [p], ends + [bar], fields + [line[p..bar]];
      CutOff(buffer, bar, length);
      p, i := bar + 1, i + 1;
    }
    var nl := Scan(buffer, p, length, '\n');
    SplitAtEnd(line, p, nl);
    OneMore(buffer[..], line, starts, ends, fields, p, nl, length);
    starts, ends, fields := starts + [p], ends + [nl], fields + [line[p..nl]];
    CutOff(buffer, nl, length);
    ok := true;
    CutsAll(buffer[..], starts, ends, fields, nl + 1);
  }

  /** Every field is the C string at its start. */
  ghost predicate Cut(buffer: seq<char>, starts: seq<nat>, fields: seq<string>) {
    |starts| == |fields| && forall k :: 0 <= k < |starts| ==> starts[k] <= |buffer| && StringAt(buffer, starts[k]) == fields[k]
  }

  lemma CutsAll(buffer: seq<char>, starts: seq<nat>, ends: seq<nat>, fields: seq<string>, limit: nat)
    requires FieldsCut(buffer, starts, ends, fields, limit)
    ensures Cut(buffer, starts, fields)
  {
    hide StringAt;
    forall k | 0 <= k < |starts| ensures starts[k] <= |buffer| && StringAt(buffer, starts[k]) == fields[k] {
      StringIs(buffer, starts[k], ends[k]);
    }
  }

  lemma NothingCut(buffer: seq<char>, line: string, expected: nat)
    requires expected > 0
    ensures FieldsCut(buffer, [], [], [], 0) && SplitFields(line, expected) == Prepend([], SplitFields(line, expected))
  {
    hide SplitFields;
    var o := SplitFields(line, expected);
    if o.Some? { assert [] + o.value == o.value; }
  }

  lemma OneMore(buffer: seq<char>, line: string, starts: seq<nat>, ends: seq<nat>, fields: seq<string>, p: nat, cut: nat, length: nat)
    requires FieldsCut(buffer, starts, ends, fields, p) && p <= cut <= length < |buffer| && length == |line|
    requires buffer[p..length] == line[p..] && NUL !in line
    ensures FieldsCut(buffer[cut := NUL], starts + [p], ends + [cut], fields + [line[p..cut]], cut + 1)
  {
    hide FieldsCut;
    assert buffer[p..cut] == line[p..cut] by {
      forall j | p <= j < cut ensures buffer[j] == line[j] {
        assert buffer[p..length][j - p] == line[p..][j - p];
      }
    }
    FieldsMore(buffer, starts, ends, fields, p, cut);
  }

  /** At the end of the line the terminator is already there. */
  method CutOff(buffer: array<char>, at: nat, length: nat)
    requires at <= length < buffer.Length && buffer[length] == NUL
    modifies buffer
    ensures buffer[..] == old(buffer[..])[at := NUL]
  {
    if at < length { buffer[at] := NUL; }
  }

  // ---- Lines and files ----

  lemma PrintFrom(log: Log, i: nat)
    requires i < |log| && Commands(log)
    ensures Commands(log[i..]) && Commands(log[i + 1..]) && PrintLog(log[i..]) == PrintLine(log[i]) + PrintLog(log[i + 1..])
  {
    hide PrintLine;
    assert log[i..][0] == log[i] && log[i..][1..] == log[i + 1..];
  }

  method WriteLog(log: array<Entry>, count: nat) returns (text: string)
    requires count <= log.Length && Commands(log[..count])
    ensures text == PrintLog(log[..count])
  {
    text := "";
    ghost var all := log[..count];
    assert all[0..] == all && PrintLog(all[count..]) == "";
    hide PrintLine, PrintLog;
    for i := 0 to count
      invariant text + PrintLog(all[i..]) == PrintLog(all)
    {
      PrintFrom(all, i);
      text := text + PrintLine(log[i]);
    }
  }

  /** Copies a line into the buffer, with its terminator. */
  method Fill(buffer: array<char>, line: string)
    requires |line| < buffer.Length
    modifies buffer
    ensures buffer[..|line|] == line && buffer[|line|] == NUL
  {
    for i := 0 to |line|
      invariant forall k :: 0 <= k < i ==> buffer[k] == line[k]
    {
      buffer[i] := line[i];
    }
    buffer[|line|] := NUL;
  }

  method ParseInPlace(line: string) returns (r: Option<Entry>)
    requires NUL !in line && |line| < LINE_BUFFER
    ensures r == ParseLine(line)
  {
    hide SplitFields, StringAt, EntryOf;
    var buffer := new char[LINE_BUFFER](_ => NUL);
    Fill(buffer, line);
    SplitCount(line, 6);
    SplitCount(line, 5);
    var ok, at := SplitInPlace(buffer, |line|, 6);
    var b := buffer[..];
    if ok {
      return Some(EntryOf(StringAt(b, at[0]), StringAt(b, at[1]), StringAt(b, at[2]), StringAt(b, at[3]), StringAt(b, at[4]), StringAt(b, at[5])));
    }
    Fill(buffer, line);
    ok, at := SplitInPlace(buffer, |line|, 5);
    b := buffer[..];
    if ok {
      return Some(EntryOf(StringAt(b, at[0]), StringAt(b, at[1]), "", StringAt(b, at[2]), StringAt(b, at[3]), StringAt(b, at[4])));
    }
    r := None;
  }

  /** Reads the file line by line into the log array, skipping what the snapshot covers. */
  method ReadLog(text: string, snap: nat, log: array<Entry>) returns (count: nat)
    requires NUL !in text
    modifies log
    ensures count <= log.Length && log[..count] == LoadLog(text, snap, log.Length)
  {
    hide ParseLine, FirstLine, LoadLog;
    count := 0;
    var rest := text;
    while rest != "" && count < log.Length
      invariant count <= log.Length && NUL !in rest
      invariant log[..count] + LoadLog(rest, snap, log.Length - count) == LoadLog(text, snap, log.Length)
      decreases |rest|
    {
      var line := FirstLine(rest);
      assert forall k :: 0 <= k < |line| ==> line[k] == rest[k];
      assert |line| < LINE_BUFFER by { LineFits(rest); }
      var entry := ParseInPlace(line);
      LoadOne(rest, snap, log.Length - count);
      if entry.Some? && entry.value.index > snap {
        ghost var before := log[..count];
        log[count] := entry.value;
        count := count + 1;
        assert log[..count] == before + [entry.value];
        assert before + ([entry.value] + LoadLog(rest[|line|..], snap, log.Length - count))
            == log[..count] + LoadLog(rest[|line|..], snap, log.Length - count);
      }
      rest := rest[|line|..];
    }
    if rest == "" { LoadNothing(snap, log.Length - count); } else { LoadFull(rest, snap); }
  }

  lemma LineFits(text: string)
    requires text != ""
    ensures |FirstLine(text)| < LINE_BUFFER
  {
  }
}
