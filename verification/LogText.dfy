/** The C log file: one line of '|'-separated fields for each entry, read back line by line. */
module LogText {
  import opened RaftTypes
  import opened Sizes
  import opened Strings
  import opened Numerals

  const LINE_BUFFER := 512

  function PrintLine(e: Entry): string
    requires e.command.AppCommand?
  {
    Digits(e.index) + "|" + Digits(e.term) + "|" + e.creator + "|" + e.command.op + "|" + e.command.key + "|"
    + e.command.value.GetOr("") + "\n"
  }

  predicate Commands(log: Log) {
    forall k :: 0 <= k < |log| ==> log[k].command.AppCommand?
  }

  function PrintLog(log: Log): string
    requires Commands(log)
  {
    if log == [] then "" else PrintLine(log[0]) + PrintLog(log[1..])
  }

  /** Cuts a line at its first n - 1 bars; the last field takes the rest, bars and all, up to the newline. */
  function SplitFields(line: string, n: nat): Option<seq<string>>
    requires n > 0
    decreases n
  {
    if n == 1 then Some([line[..IndexOf(line, '\n')]])
    else
      var k := IndexOf(line, '|');
      if k == |line| then None
      else
        match SplitFields(line[k + 1..], n - 1)
        case None => None
        case Some(fields) => Some([line[..k]] + fields)
  }

  lemma {:induction false} SplitCount(line: string, n: nat)
    requires n > 0
    ensures SplitFields(line, n).Some? ==> |SplitFields(line, n).value| == n
    decreases n
  {
    if n > 1 && IndexOf(line, '|') < |line| { SplitCount(line[IndexOf(line, '|') + 1..], n - 1); }
  }

  /** Six fields, or five in files written before entries named their creator. */
  function ParseLine(line: string): Option<Entry> {
    SplitCount(line, 6);
    SplitCount(line, 5);
    match SplitFields(line, 6)
    case Some(f) => Some(EntryOf(f[0], f[1], f[2], f[3], f[4], f[5]))
    case None =>
      match SplitFields(line, 5)
      case Some(f) => Some(EntryOf(f[0], f[1], "", f[2], f[3], f[4]))
      case None => None
  }

  function EntryOf(index: string, term: string, creator: string, op: string, key: string, value: string): Entry {
    Entry(Atoi(index), Atoi(term), AppCommand(Clip(op, MAX_OP - 1), Clip(key, MAX_KEY - 1), Some(Clip(value, MAX_VALUE - 1))),
          Clip(creator, MAX_ID - 1))
  }

  /** What one read into the line buffer gets: up to a newline, but no more than fits. */
  function FirstLine(text: string): (line: string)
    requires text != ""
    ensures 0 < |line| <= |text| && line <= text
  {
    Clip(if IndexOf(text, '\n') < |text| then text[..IndexOf(text, '\n') + 1] else text, LINE_BUFFER - 1)
  }

  /** The entries after the snapshot, as many as there is room for. */
  function LoadLog(text: string, snap: nat, room: nat): Log
    decreases |text|
  {
    if text == "" || room == 0 then []
    else
      var line := FirstLine(text);
      match ParseLine(line)
      case None => LoadLog(text[|line|..], snap, room)
      case Some(e) =>
        if e.index <= snap then LoadLog(text[|line|..], snap, room)
        else [e] + LoadLog(text[|line|..], snap, room - 1)
  }

  /** What an entry's line gives back: fields of the sizes they are kept in, without the separators. */
  predicate Storable(e: Entry) {
    && e.command.AppCommand? && e.command.value.Some?
    && |e.creator| < MAX_ID && '|' !in e.creator && '\n' !in e.creator
    && |e.command.op| < MAX_OP && '|' !in e.command.op && '\n' !in e.command.op
    && |e.command.key| < MAX_KEY && '|' !in e.command.key && '\n' !in e.command.key
    && |e.command.value.value| < MAX_VALUE && '\n' !in e.command.value.value
  }

  predicate AllStorable(log: Log) {
    forall k :: 0 <= k < |log| ==> Storable(log[k])
  }

  /** Index and term are ints. */
  predicate InRange(log: Log) {
    forall k :: 0 <= k < |log| ==> log[k].index < INT_LIMIT && log[k].term < INT_LIMIT
  }

  /** The entries with an index above the snapshot's. */
  function After(log: Log, snap: nat): Log {
    if log == [] then [] else (if log[0].index > snap then [log[0]] else []) + After(log[1..], snap)
  }

  // ---- One line ----

  lemma SplitStep(field: string, rest: string, n: nat)
    requires n > 1 && '|' !in field
    ensures SplitFields(field + "|" + rest, n) ==
              match SplitFields(rest, n - 1) case None => None case Some(fields) => Some([field] + fields)
  {
    var line := field + "|" + rest;
    assert forall j :: 0 <= j < |field| ==> line[j] == field[j];
    IndexIs(line, '|', |field|);
    assert line[..|field|] == field && line[|field| + 1..] == rest;
    hide IndexOf;
  }

  lemma SplitLast(value: string)
    requires '\n' !in value
    ensures SplitFields(value + "\n", 1) == Some([value])
  {
    var line := value + "\n";
    assert forall j :: 0 <= j < |value| ==> line[j] == value[j];
    IndexIs(line, '\n', |value|);
    assert line[..|value|] == value;
  }

  lemma NoBars(n: nat)
    ensures '|' !in Digits(n) && '\n' !in Digits(n)
  {
    DigitsRead(n);
  }

  lemma LineTail(e: Entry)
    requires e.command.AppCommand?
    ensures PrintLine(e) == Digits(e.index) + "|" + (Digits(e.term) + "|" + (e.creator + "|" + (e.command.op + "|"
                            + (e.command.key + "|" + (e.command.value.GetOr("") + "\n")))))
  {
    hide Digits;
  }

  lemma SplitThree(o: string, k: string, v: string)
    requires '|' !in o && '|' !in k && '\n' !in v
    ensures SplitFields(o + "|" + (k + "|" + (v + "\n")), 3) == Some([o, k, v])
  {
    hide *;
    SplitLast(v);
    SplitStep(k, v + "\n", 2);
    assert [k] + [v] == [k, v];
    SplitStep(o, k + "|" + (v + "\n"), 3);
    assert [o] + [k, v] == [o, k, v];
  }

  lemma SplitSix(i: string, t: string, c: string, rest: string, o: string, k: string, v: string)
    requires '|' !in i && '|' !in t && '|' !in c && SplitFields(rest, 3) == Some([o, k, v])
    ensures SplitFields(i + "|" + (t + "|" + (c + "|" + rest)), 6) == Some([i, t, c, o, k, v])
  {
    hide *;
    SplitStep(c, rest, 4);
    assert [c] + [o, k, v] == [c, o, k, v];
    SplitStep(t, c + "|" + rest, 5);
    assert [t] + [c, o, k, v] == [t, c, o, k, v];
    SplitStep(i, t + "|" + (c + "|" + rest), 6);
    assert [i] + [t, c, o, k, v] == [i, t, c, o, k, v];
  }

  lemma SplitLine(e: Entry)
    requires Storable(e)
    ensures SplitFields(PrintLine(e), 6)
         == Some([Digits(e.index), Digits(e.term), e.creator, e.command.op, e.command.key, e.command.value.value])
  {
    hide SplitFields, Digits, PrintLine;
    LineTail(e);
    NoBars(e.index);
    NoBars(e.term);
    var o, k, v := e.command.op, e.command.key, e.command.value.value;
    SplitThree(o, k, v);
    SplitSix(Digits(e.index), Digits(e.term), e.creator, o + "|" + (k + "|" + (v + "\n")), o, k, v);
  }

  lemma EntryBack(e: Entry)
    requires Storable(e)
    ensures EntryOf(Digits(e.index), Digits(e.term), e.creator, e.command.op, e.command.key, e.command.value.value) == e
  {
    PrintRead(e.index, "");
    PrintRead(e.term, "");
    assert Digits(e.index) + "" == Digits(e.index) && Digits(e.term) + "" == Digits(e.term);
    hide Atoi, Digits;
  }

  /** A storable entry's line is read in one piece and gives the entry back; a value may contain bars. */
  lemma ParsePrinted(e: Entry)
    requires Storable(e)
    ensures ParseLine(PrintLine(e)) == Some(e)
    ensures PrintLine(e) == Digits(e.index) + "|" + Digits(e.term) + "|" + e.creator + "|" + e.command.op + "|" + e.command.key + "|"
                            + e.command.value.value + "\n"
  {
    SplitLine(e);
    EntryBack(e);
    hide SplitFields, EntryOf, Digits;
  }

  /** The line of files written before entries named their creator. */
  function OlderLine(e: Entry): string
    requires e.command.AppCommand?
  {
    Digits(e.index) + "|" + (Digits(e.term) + "|" + (e.command.op + "|" + (e.command.key + "|" + (e.command.value.GetOr("") + "\n"))))
  }

  function OlderLog(log: Log): string
    requires Commands(log)
  {
    if log == [] then "" else OlderLine(log[0]) + OlderLog(log[1..])
  }

  /** Without a bar there is one field. */
  lemma NoSplit(line: string)
    requires '|' !in line
    ensures SplitFields(line, 2) == None
  {
    hide IndexOf;
    assert IndexOf(line, '|') == |line|;
  }

  lemma SplitTwo(value: string)
    requires '\n' !in value
    ensures SplitFields(value + "\n", 2).Some? <==> '|' in value
    ensures '|' in value ==> |SplitFields(value + "\n", 2).value[1]| < |value|
  {
    var line := value + "\n";
    if '|' in value {
      var k := IndexOf(line, '|');
      var j :| 0 <= j < |value| && value[j] == '|';
      assert line[j] == '|' && k <= j;
      assert line[k + 1..] == value[k + 1..] + "\n";
      SplitLast(value[k + 1..]);
    } else {
      assert forall j :: 0 <= j < |line| ==> line[j] != '|';
      NoSplit(line);
    }
    hide SplitFields;
  }

  lemma SplitFive(i: string, t: string, o: string, k: string, v: string, rest: string, n: nat)
    requires '|' !in i && '|' !in t && '|' !in o && '|' !in k && n > 4
    ensures var split := SplitFields(i + "|" + (t + "|" + (o + "|" + (k + "|" + rest))), n);
            match SplitFields(rest, n - 4) case None => split == None case Some(f) => split == Some([i, t, o, k] + f)
  {
    hide *;
    SplitStep(k, rest, n - 3);
    SplitStep(o, k + "|" + rest, n - 2);
    SplitStep(t, o + "|" + (k + "|" + rest), n - 1);
    SplitStep(i, t + "|" + (o + "|" + (k + "|" + rest)), n);
    if SplitFields(rest, n - 4).Some? {
      var f := SplitFields(rest, n - 4).value;
      assert [i] + ([t] + ([o] + ([k] + f))) == [i, t, o, k] + f;
    }
  }

  /** A line of an older file gives back its entry, with no creator, exactly if its value has no bar. With
      one it has six fields and is taken for a line of today's. */
  lemma ParseOlder(e: Entry)
    requires Storable(e) && e.creator == ""
    ensures var v := e.command.value.value;
            var line := Digits(e.index) + "|" + Digits(e.term) + "|" + e.command.op + "|" + e.command.key + "|" + v + "\n";
            ParseLine(line) == Some(e) <==> '|' !in v
  {
    hide SplitFields, EntryOf, Digits;
    var i, t, o, k, v := Digits(e.index), Digits(e.term), e.command.op, e.command.key, e.command.value.value;
    var line := i + "|" + (t + "|" + (o + "|" + (k + "|" + (v + "\n"))));
    assert i + "|" + t + "|" + o + "|" + k + "|" + v + "\n" == line;
    NoBars(e.index);
    NoBars(e.term);
    SplitCount(v + "\n", 2);
    SplitTwo(v);
    SplitFive(i, t, o, k, v, v + "\n", 6);
    SplitFive(i, t, o, k, v, v + "\n", 5);
    SplitLast(v);
    if '|' in v {
      var f := SplitFields(v + "\n", 2).value;
      SixthValue(i, t, o, k, f[0], f[1]);
    } else {
      EntryBack(e);
      assert [i, t, o, k] + [v] == [i, t, o, k, v];
    }
  }

  lemma SixthValue(i: string, t: string, c: string, o: string, k: string, v: string)
    ensures |EntryOf(i, t, c, o, k, v).command.value.value| <= |v|
  {
  }

  lemma LineLength(e: Entry)
    requires Storable(e) && e.index < INT_LIMIT && e.term < INT_LIMIT
    ensures 0 < |PrintLine(e)| < LINE_BUFFER && PrintLine(e)[|PrintLine(e)| - 1] == '\n'
    ensures forall j :: 0 <= j < |PrintLine(e)| - 1 ==> PrintLine(e)[j] != '\n'
  {
    IntDigits(e.index);
    IntDigits(e.term);
    NoBars(e.index);
    NoBars(e.term);
    hide Digits;
  }

  lemma ReadPrinted(e: Entry, rest: string)
    requires Storable(e) && e.index < INT_LIMIT && e.term < INT_LIMIT
    ensures var text := PrintLine(e) + rest;
            text != "" && FirstLine(text) == PrintLine(e) && text[|PrintLine(e)|..] == rest
  {
    LineLength(e);
    hide PrintLine;
    var line := PrintLine(e);
    var text := line + rest;
    assert forall j :: 0 <= j < |line| ==> text[j] == line[j];
    IndexIs(text, '\n', |line| - 1);
    assert text[..|line|] == line;
  }

  // ---- The file ----

  lemma LoadNothing(snap: nat, room: nat)
    ensures LoadLog("", snap, room) == []
  {
  }

  lemma LoadOne(text: string, snap: nat, room: nat)
    requires text != "" && room > 0
    ensures var line := FirstLine(text);
            LoadLog(text, snap, room) ==
              match ParseLine(line)
              case None => LoadLog(text[|line|..], snap, room)
              case Some(e) => if e.index <= snap then LoadLog(text[|line|..], snap, room)
                              else [e] + LoadLog(text[|line|..], snap, room - 1)
  {
    hide FirstLine, ParseLine;
  }

  lemma LogTail(log: Log)
    requires AllStorable(log) && InRange(log) && log != []
    ensures Storable(log[0]) && log[0].index < INT_LIMIT && log[0].term < INT_LIMIT && AllStorable(log[1..]) && InRange(log[1..])
    ensures Commands(log) && Commands(log[1..]) && PrintLog(log) == PrintLine(log[0]) + PrintLog(log[1..])
  {
    hide PrintLine;
  }

  /** A log file printed from any entries loads, behind a snapshot, the entries after it. Old entries the
      snapshot covers do no harm, so a log file older than the meta file loads the same. */
  lemma {:induction false} LoadPrinted(log: Log, snap: nat, room: nat)
    requires AllStorable(log) && InRange(log) && |After(log, snap)| <= room
    ensures Commands(log) && LoadLog(PrintLog(log), snap, room) == After(log, snap)
    decreases |log|
  {
    if log == [] {
      LoadNothing(snap, room);
    } else if room == 0 {
      LoadFull(PrintLog(log), snap);
    } else {
      LogTail(log);
      hide LoadLog, PrintLog, PrintLine, ParseLine, FirstLine, Storable, AllStorable, InRange, Commands;
      ReadPrinted(log[0], PrintLog(log[1..]));
      ParsePrinted(log[0]);
      LoadOne(PrintLog(log), snap, room);
      LoadPrinted(log[1..], snap, if log[0].index > snap then room - 1 else room);
    }
  }

  lemma LoadFull(text: string, snap: nat)
    ensures LoadLog(text, snap, 0) == []
  {
  }

  lemma OlderRead(e: Entry, rest: string)
    requires Storable(e) && e.index < INT_LIMIT && e.term < INT_LIMIT && e.creator == "" && '|' !in e.command.value.value
    ensures var text := OlderLine(e) + rest;
            text != "" && FirstLine(text) == OlderLine(e) && text[|OlderLine(e)|..] == rest && ParseLine(OlderLine(e)) == Some(e)
  {
    ParseOlder(e);
    OlderIs(e);
    OlderLength(e);
    hide OlderLine, ParseLine;
    var line := OlderLine(e);
    var text := line + rest;
    assert forall j :: 0 <= j < |line| ==> text[j] == line[j];
    IndexIs(text, '\n', |line| - 1);
    assert text[..|line|] == line;
  }

  lemma OlderIs(e: Entry)
    requires e.command.AppCommand?
    ensures OlderLine(e) == Digits(e.index) + "|" + Digits(e.term) + "|" + e.command.op + "|" + e.command.key + "|"
                            + e.command.value.GetOr("") + "\n"
  {
    hide Digits;
  }

  lemma OlderLength(e: Entry)
    requires Storable(e) && e.index < INT_LIMIT && e.term < INT_LIMIT
    ensures 0 < |OlderLine(e)| < LINE_BUFFER && OlderLine(e)[|OlderLine(e)| - 1] == '\n'
    ensures forall j :: 0 <= j < |OlderLine(e)| - 1 ==> OlderLine(e)[j] != '\n'
  {
    IntDigits(e.index);
    IntDigits(e.term);
    NoBars(e.index);
    NoBars(e.term);
    hide Digits;
  }

  /** What an older file could hold: entries without creator whose values have no bar. */
  predicate AllOlder(log: Log) {
    forall k :: 0 <= k < |log| ==> Storable(log[k]) && log[k].creator == "" && '|' !in log[k].command.value.value
  }

  lemma OlderTail(log: Log)
    requires AllOlder(log) && InRange(log) && log != []
    ensures Storable(log[0]) && log[0].creator == "" && '|' !in log[0].command.value.value
    ensures log[0].index < INT_LIMIT && log[0].term < INT_LIMIT && InRange(log[1..])
    ensures Commands(log) && Commands(log[1..]) && AllOlder(log[1..]) && OlderLog(log) == OlderLine(log[0]) + OlderLog(log[1..])
  {
    hide OlderLine;
  }

  /** A file of such lines loads, behind a snapshot, the entries after it. */
  lemma {:induction false} LoadOlder(log: Log, snap: nat, room: nat)
    requires AllOlder(log) && InRange(log) && |After(log, snap)| <= room
    ensures Commands(log) && LoadLog(OlderLog(log), snap, room) == After(log, snap)
    decreases |log|
  {
    if log == [] {
      LoadNothing(snap, room);
    } else if room == 0 {
      LoadFull(OlderLog(log), snap);
    } else {
      OlderTail(log);
      hide LoadLog, OlderLog, OlderLine, ParseLine, FirstLine, Storable, Commands, AllOlder, InRange;
      OlderRead(log[0], OlderLog(log[1..]));
      LoadOne(OlderLog(log), snap, room);
      LoadOlder(log[1..], snap, if log[0].index > snap then room - 1 else room);
    }
  }

  /** A line with no newline but at its end. */
  predicate OneLine(line: string) {
    forall j :: 0 <= j < |line| - 1 ==> line[j] != '\n'
  }

  lemma {:induction false} SplitClean(line: string, n: nat)
    requires n > 0 && OneLine(line)
    ensures SplitFields(line, n).Some? ==>
              var f := SplitFields(line, n).value;
              |f| == n && (forall i :: 0 <= i < n ==> '\n' !in f[i]) && (forall i :: 0 <= i < n - 1 ==> '|' !in f[i])
    decreases n
  {
    if n > 1 {
      var k := IndexOf(line, '|');
      if k < |line| {
        assert OneLine(line[k + 1..]);
        assert forall j :: 0 <= j < k ==> line[j] != '\n' && line[j] != '|';
        SplitClean(line[k + 1..], n - 1);
      }
    }
  }

  lemma ParsedStorable(line: string)
    requires OneLine(line)
    ensures ParseLine(line).Some? ==> Storable(ParseLine(line).value)
  {
    SplitClean(line, 6);
    SplitClean(line, 5);
    hide SplitFields;
    match SplitFields(line, 6)
    case Some(f) => EntryStorable(f[0], f[1], f[2], f[3], f[4], f[5]);
    case None =>
      match SplitFields(line, 5)
      case Some(f) => EntryStorable(f[0], f[1], "", f[2], f[3], f[4]);
      case None =>
  }

  lemma EntryStorable(index: string, term: string, creator: string, op: string, key: string, value: string)
    requires '|' !in creator && '|' !in op && '|' !in key && '\n' !in creator && '\n' !in op && '\n' !in key && '\n' !in value
    ensures Storable(EntryOf(index, term, creator, op, key, value))
  {
    ClipKeeps(creator, MAX_ID - 1);
    ClipKeeps(op, MAX_OP - 1);
    ClipKeeps(key, MAX_KEY - 1);
    ClipKeeps(value, MAX_VALUE - 1);
    hide Clip, Atoi;
  }

  lemma ClipKeeps(text: string, n: nat)
    ensures forall c :: c in Clip(text, n) ==> c in text
  {
  }

  lemma FirstIsLine(text: string)
    requires text != ""
    ensures OneLine(FirstLine(text))
  {
    var line := FirstLine(text);
    assert forall j :: 0 <= j < |line| ==> line[j] == text[j];
    hide IndexOf;
  }

  /** Whatever the file, what it loads is storable, after the snapshot and no more than there is room for. */
  lemma {:induction false} LoadedStorable(text: string, snap: nat, room: nat)
    ensures var log := LoadLog(text, snap, room);
            |log| <= room && forall e :: e in log ==> Storable(e) && e.index > snap
    decreases |text|
  {
    hide *;
    if text == "" {
      LoadNothing(snap, room);
    } else if room == 0 {
      LoadFull(text, snap);
    } else {
      var line := FirstLine(text);
      LoadOne(text, snap, room);
      FirstIsLine(text);
      ParsedStorable(line);
      LoadedStorable(text[|line|..], snap, room);
      LoadedStorable(text[|line|..], snap, room - 1);
    }
  }

  lemma {:induction false} AfterAll(log: Log, snap: nat)
    ensures (forall k :: 0 <= k < |log| ==> log[k].index > snap) ==> After(log, snap) == log
    ensures |After(log, snap)| <= |log|
  {
    if log != [] {
      AfterAll(log[1..], snap);
      if forall k :: 0 <= k < |log| ==> log[k].index > snap {
        assert forall k :: 0 <= k < |log[1..]| ==> log[1..][k].index == log[k + 1].index;
        assert log == [log[0]] + log[1..];
      }
    }
  }

  /** The log round trip, exactly: a printed log loads back as itself if and only if every entry is
      storable, lies after the snapshot, and the array has room for all of them. */
  lemma LogRoundTrip(log: Log, snap: nat)
    requires Commands(log) && InRange(log)
    ensures LoadLog(PrintLog(log), snap, MAX_LOG) == log <==>
              AllStorable(log) && |log| <= MAX_LOG && forall k :: 0 <= k < |log| ==> log[k].index > snap
  {
    AfterAll(log, snap);
    hide PrintLog, LoadLog, PrintLine, Storable;
    if AllStorable(log) && |log| <= MAX_LOG {
      LoadPrinted(log, snap, MAX_LOG);
    }
    LoadedStorable(PrintLog(log), snap, MAX_LOG);
    if LoadLog(PrintLog(log), snap, MAX_LOG) == log {
      assert forall k :: 0 <= k < |log| ==> log[k] in log;
    }
  }
}
