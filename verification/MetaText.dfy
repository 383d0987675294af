/** The C meta file: named lines, read back in any order. */
module MetaText {
  import opened RaftTypes
  import opened Sizes
  import opened Strings
  import opened Numerals
  import opened LogText

  datatype Config = Config(current: seq<NodeId>, joining: seq<NodeId>, index: nat)

  datatype Meta = Meta(term: nat, vote: NodeId, threshold: nat, commit: nat, snapIndex: nat, snapTerm: nat, config: Config)

  datatype Field = CurrentTerm | VotedFor | Threshold | CommitIndex | SnapIndex | SnapTerm
                 | ConfigIndex | OldCount | OldMember | NewCount | NewMember

  function Name(f: Field): string {
    match f
    case CurrentTerm => "current_term"
    case VotedFor => "voted_for"
    case Threshold => "compaction_threshold"
    case CommitIndex => "commit_index"
    case SnapIndex => "snapshot_last_included_index"
    case SnapTerm => "snapshot_last_included_term"
    case ConfigIndex => "configuration_index"
    case OldCount => "old_count"
    case OldMember => "old_member"
    case NewCount => "new_count"
    case NewMember => "new_member"
  }

  function FieldOf(name: string): Option<Field> {
    if name == "current_term" then Some(CurrentTerm)
    else if name == "voted_for" then Some(VotedFor)
    else if name == "compaction_threshold" then Some(Threshold)
    else if name == "commit_index" then Some(CommitIndex)
    else if name == "snapshot_last_included_index" then Some(SnapIndex)
    else if name == "snapshot_last_included_term" then Some(SnapTerm)
    else if name == "configuration_index" then Some(ConfigIndex)
    else if name == "old_count" then Some(OldCount)
    else if name == "old_member" then Some(OldMember)
    else if name == "new_count" then Some(NewCount)
    else if name == "new_member" then Some(NewMember)
    else None
  }

  lemma NamesDiffer(f: Field)
    ensures FieldOf(Name(f)) == Some(f)
  {
    match f
    case CurrentTerm =>
    case VotedFor =>
    case Threshold =>
    case CommitIndex => assert "commit_index"[1] != "current_term"[1];
    case SnapIndex =>
    case SnapTerm =>
    case ConfigIndex =>
    case OldCount => assert "old_count"[0] != "voted_for"[0];
    case OldMember =>
    case NewCount => assert "new_count"[0] != "voted_for"[0] && "new_count"[0] != "old_count"[0];
    case NewMember => assert "new_member"[0] != "old_member"[0];
  }

  predicate Blank(c: char) {
    c == ' ' || c == '\n' || c == '\t' || c == '\r' || c == '\U{000B}' || c == '\U{000C}'
  }

  predicate NoBlank(text: string) {
    forall k :: 0 <= k < |text| ==> !Blank(text[k])
  }

  /** Names are small letters and underscores. */
  predicate Lettered(text: string) {
    0 < |text| <= 28 && forall k :: 0 <= k < |text| ==> text[k] >= '_'
  }

  lemma ShortNames(f: Field)
    requires f.CurrentTerm? || f.VotedFor? || f.CommitIndex?
    ensures Lettered(Name(f))
  {
  }

  lemma CountNames(f: Field)
    requires f.OldCount? || f.OldMember? || f.NewCount? || f.NewMember?
    ensures Lettered(Name(f))
  {
  }

  lemma LongNames(f: Field)
    requires f.Threshold? || f.ConfigIndex?
    ensures Lettered(Name(f))
  {
  }

  lemma LongestNames(f: Field)
    requires f.SnapIndex? || f.SnapTerm?
    ensures Lettered(Name(f))
  {
  }

  lemma NamesPlain(f: Field)
    ensures NoBlank(Name(f)) && 0 < |Name(f)| <= 28
  {
    hide Name;
    if f.SnapIndex? || f.SnapTerm? { LongestNames(f); }
    else if f.Threshold? || f.ConfigIndex? { LongNames(f); }
    else if f.CurrentTerm? || f.VotedFor? || f.CommitIndex? { ShortNames(f); }
    else { CountNames(f); }
  }

  // ---- Printing ----

  function FieldLine(f: Field, value: string): string {
    Name(f) + (" " + (value + "\n"))
  }

  function MemberLines(f: Field, ids: seq<NodeId>): string {
    if ids == [] then "" else FieldLine(f, ids[0]) + MemberLines(f, ids[1..])
  }

  /** An empty vote is written as a dash. */
  function VoteWord(vote: NodeId): string {
    if vote == "" then "-" else vote
  }

  function PrintMeta(m: Meta): string {
    FieldLine(CurrentTerm, Digits(m.term)) + (FieldLine(VotedFor, VoteWord(m.vote)) + (FieldLine(Threshold, Digits(m.threshold))
    + (FieldLine(CommitIndex, Digits(m.commit)) + (FieldLine(SnapIndex, Digits(m.snapIndex)) + (FieldLine(SnapTerm, Digits(m.snapTerm))
    + (FieldLine(ConfigIndex, Digits(m.config.index)) + PrintMembers(m.config)))))))
  }

  function PrintMembers(c: Config): string {
    FieldLine(OldCount, Digits(|c.current|)) + (MemberLines(OldMember, c.current)
    + (FieldLine(NewCount, Digits(|c.joining|)) + MemberLines(NewMember, c.joining)))
  }

  function Named(name: string, value: string): string {
    name + " " + value + "\n"
  }

  /** One line for each id. */
  function NamedLines(name: string, ids: seq<NodeId>): string {
    if ids == [] then "" else Named(name, ids[0]) + NamedLines(name, ids[1..])
  }

  lemma {:induction false} MemberLinesAre(ids: seq<NodeId>)
    ensures MemberLines(OldMember, ids) == NamedLines("old_member", ids) && MemberLines(NewMember, ids) == NamedLines("new_member", ids)
    decreases |ids|
  {
    LinesAre();
    if ids != [] { MemberLinesAre(ids[1..]); }
    hide FieldLine, Named;
  }

  lemma LineIs(f: Field, value: string)
    ensures FieldLine(f, value) == Named(Name(f), value)
  {
    hide Name;
  }

  lemma LinesAre()
    ensures forall f, value :: FieldLine(f, value) == Named(Name(f), value)
  {
    forall f, value ensures FieldLine(f, value) == Named(Name(f), value) {
      LineIs(f, value);
    }
  }

  /** The meta file, line by line: a name, a blank, a value. */
  lemma MetaLines(m: Meta)
    ensures PrintMeta(m) ==
              Named("current_term", Digits(m.term)) +
              (Named("voted_for", if m.vote == "" then "-" else m.vote) +
              (Named("compaction_threshold", Digits(m.threshold)) +
              (Named("commit_index", Digits(m.commit)) +
              (Named("snapshot_last_included_index", Digits(m.snapIndex)) +
              (Named("snapshot_last_included_term", Digits(m.snapTerm)) +
              (Named("configuration_index", Digits(m.config.index)) +
              (Named("old_count", Digits(|m.config.current|)) + (NamedLines("old_member", m.config.current) +
              (Named("new_count", Digits(|m.config.joining|)) + NamedLines("new_member", m.config.joining))))))))))
  {
    LinesAre();
    MemberLinesAre(m.config.current);
    MemberLinesAre(m.config.joining);
    hide Digits, MemberLines, NamedLines, FieldLine, Named;
  }

  // ---- Reading ----

  function SkipBlanks(text: string): string {
    if text != "" && Blank(text[0]) then SkipBlanks(text[1..]) else text
  }

  function Take(text: string, n: nat): string {
    if text == "" || n == 0 || Blank(text[0]) then "" else [text[0]] + Take(text[1..], n - 1)
  }

  /** The next run of nonblank characters, as much of it as an id field holds. */
  function Word(text: string): string {
    Take(SkipBlanks(text), MAX_ID - 1)
  }

  /** The first empty slot among those counted, or the count. */
  function FirstFree(slots: seq<NodeId>, count: nat): (k: nat)
    requires count <= |slots|
    ensures k <= count && (forall j :: 0 <= j < k ==> slots[j] != "") && (k < count ==> slots[k] == "")
    decreases count
  {
    if count == 0 then 0
    else
      var k := FirstFree(slots, count - 1);
      if k < count - 1 || slots[count - 1] == "" then k else count
  }

  /** Member lists are read into slots, as many of which count as the file has said. */
  datatype Slots = Slots(ids: seq<NodeId>, count: nat) {
    function Counted(n: nat): Slots {
      this.(count := Min(n, MAX_NODES))
    }

    function Filled(word: string): Slots {
      if count <= |ids| then
        var k := FirstFree(ids, count);
        if k < |ids| && word != "" then this.(ids := ids[k := word]) else this
      else this
    }
  }

  const NO_SLOTS := Slots(["", "", "", "", "", "", "", ""], 0)

  datatype Reading = Reading(term: nat, vote: NodeId, threshold: nat, commit: nat, snapIndex: nat, snapTerm: nat,
                             index: nat, old_: Slots, new_: Slots)

  function ReadField(r: Reading, f: Field, text: string): Reading {
    match f
    case CurrentTerm => r.(term := Atoi(text))
    case VotedFor => r.(vote := if Word(text) == "-" then "" else Word(text))
    case Threshold => r.(threshold := Atoi(text))
    case CommitIndex => r.(commit := Atoi(text))
    case SnapIndex => r.(snapIndex := Atoi(text))
    case SnapTerm => r.(snapTerm := Atoi(text))
    case ConfigIndex => r.(index := Atoi(text))
    case OldCount => r.(old_ := r.old_.Counted(Atoi(text)))
    case OldMember => r.(old_ := r.old_.Filled(Word(text)))
    case NewCount => r.(new_ := r.new_.Counted(Atoi(text)))
    case NewMember => r.(new_ := r.new_.Filled(Word(text)))
  }

  /** A line counts if a known name stands before its first blank. */
  function ReadLine(r: Reading, line: string): Reading {
    var k := IndexOf(line, ' ');
    if k == |line| then r
    else match FieldOf(line[..k]) case None => r case Some(f) => ReadField(r, f, line[k + 1..])
  }

  function ReadLines(r: Reading, text: string): Reading
    decreases |text|
  {
    if text == "" then r else ReadLines(ReadLine(r, FirstLine(text)), text[|FirstLine(text)|..])
  }

  const BLANK := Reading(0, "", MAX_LOG, 0, 0, 0, 0, NO_SLOTS, NO_SLOTS)

  function Listed(s: Slots): seq<NodeId> {
    if s.count <= |s.ids| then s.ids[..s.count] else s.ids
  }

  function MetaOf(r: Reading): Meta {
    Meta(r.term, r.vote, r.threshold, r.commit, r.snapIndex, r.snapTerm, Config(Listed(r.old_), Listed(r.new_), r.index))
  }

  function ReadMeta(text: string): Meta {
    MetaOf(ReadLines(BLANK, text))
  }

  // ---- Words ----

  lemma {:induction false} TakeWord(v: string, rest: string, n: nat)
    requires rest != "" && Blank(rest[0])
    ensures Take(v + rest, n) == v <==> NoBlank(v) && |v| <= n
    ensures |Take(v + rest, n)| <= n && NoBlank(Take(v + rest, n))
    decreases |v|
  {
    if v == "" {
      assert v + rest == rest;
    } else {
      assert (v + rest)[0] == v[0] && (v + rest)[1..] == v[1..] + rest;
      if n > 0 && !Blank(v[0]) {
        TakeWord(v[1..], rest, n - 1);
        assert v == [v[0]] + v[1..];
        var t := Take(v[1..] + rest, n - 1);
        assert ([v[0]] + t)[1..] == t;
      }
    }
  }

  lemma {:induction false} SkippedSuffix(text: string)
    ensures |SkipBlanks(text)| <= |text| && SkipBlanks(text) == text[|text| - |SkipBlanks(text)|..]
    ensures SkipBlanks(text) == "" || !Blank(SkipBlanks(text)[0])
    decreases |text|
  {
    if text != "" && Blank(text[0]) {
      SkippedSuffix(text[1..]);
    }
  }

  lemma {:induction false} TakeNoBlank(text: string, n: nat)
    ensures NoBlank(Take(text, n)) && |Take(text, n)| <= n
    decreases |text|
  {
    if text != "" && n > 0 && !Blank(text[0]) { TakeNoBlank(text[1..], n - 1); }
  }

  /** A written word is read back exactly when it has no blanks and fits its field. */
  lemma WordBack(v: string)
    ensures Word(v + "\n") == v <==> NoBlank(v) && |v| < MAX_ID
  {
    var text := v + "\n";
    TakeNoBlank(SkipBlanks(text), MAX_ID - 1);
    if NoBlank(v) && |v| < MAX_ID {
      if v == "" {
        assert text == "\n" && text[1..] == "";
        assert SkipBlanks(text) == SkipBlanks(text[1..]) == "";
      } else {
        assert text[0] == v[0];
        TakeWord(v, "\n", MAX_ID - 1);
      }
    }
  }

  /** So a vote survives exactly when it is an id without blanks that fits its field and is no dash. */
  lemma VoteBack(vote: NodeId, r: Reading)
    ensures ReadField(r, VotedFor, VoteWord(vote) + "\n").vote == vote <==> NoBlank(vote) && |vote| < MAX_ID && vote != "-"
  {
    WordBack(VoteWord(vote));
    TakeNoBlank(SkipBlanks(VoteWord(vote) + "\n"), MAX_ID - 1);
    assert NoBlank("-");
    hide Take, SkipBlanks;
  }

  // ---- Lines ----

  predicate Printable(value: string) {
    |value| <= 15 && '\n' !in value
  }

  /** A printed line is read as the field it names with the text after the blank. */
  lemma LineBack(r: Reading, f: Field, value: string, rest: string)
    requires Printable(value)
    ensures var text := FieldLine(f, value) + rest;
            ReadLines(r, text) == ReadLines(ReadField(r, f, value + "\n"), rest)
  {
    hide *;
    FirstOfLine(f, value, rest);
    LineRead(r, f, value);
    var text := FieldLine(f, value) + rest;
    LinesStep(r, text);
  }

  lemma LinesStep(r: Reading, text: string)
    requires text != ""
    ensures ReadLines(r, text) == ReadLines(ReadLine(r, FirstLine(text)), text[|FirstLine(text)|..])
  {
    hide ReadLine, FirstLine;
  }

  lemma FirstOfLine(f: Field, value: string, rest: string)
    requires Printable(value)
    ensures var text, line := FieldLine(f, value) + rest, FieldLine(f, value);
            text != "" && FirstLine(text) == line && text[|line|..] == rest
  {
    NamesPlain(f);
    hide Name;
    var line := FieldLine(f, value);
    var text := line + rest;
    assert forall j :: 0 <= j < |line| - 1 ==> line[j] != '\n';
    assert forall j :: 0 <= j < |line| ==> text[j] == line[j];
    IndexIs(text, '\n', |line| - 1);
    assert text[..|line|] == line;
    hide IndexOf;
  }

  lemma LineRead(r: Reading, f: Field, value: string)
    ensures ReadLine(r, FieldLine(f, value)) == ReadField(r, f, value + "\n")
  {
    NamesPlain(f);
    NamesDiffer(f);
    hide Name, FieldOf, ReadField;
    var line := FieldLine(f, value);
    assert forall j :: 0 <= j < |Name(f)| ==> line[j] == Name(f)[j];
    IndexIs(line, ' ', |Name(f)|);
    assert line[..|Name(f)|] == Name(f) && line[|Name(f)| + 1..] == value + "\n";
    hide IndexOf;
  }

  lemma DigitsPrintable(n: nat)
    requires n < INT_LIMIT
    ensures Printable(Digits(n)) && Atoi(Digits(n) + "\n") == n
  {
    IntDigits(n);
    DigitsRead(n);
    PrintRead(n, "\n");
    assert forall k :: 0 <= k < |Digits(n)| ==> IsDigit(Digits(n)[k]);
    hide Digits, Atoi;
  }

  // ---- Members ----

  predicate WordOk(id: NodeId) {
    |id| < MAX_ID && NoBlank(id)
  }

  /** Empty ids stand last. */
  predicate Packed(ids: seq<NodeId>) {
    forall j, k :: 0 <= j < k < |ids| && ids[j] == "" ==> ids[k] == ""
  }

  predicate MembersOk(ids: seq<NodeId>) {
    |ids| <= MAX_NODES && Packed(ids) && forall k :: 0 <= k < |ids| ==> WordOk(ids[k])
  }

  /** The slots once the first k ids of a list have been read. */
  predicate FilledWith(s: Slots, ids: seq<NodeId>, k: nat) {
    && |s.ids| == MAX_NODES && s.count == |ids| && k <= |ids| <= MAX_NODES
    && s.ids[..k] == ids[..k] && forall j :: k <= j < MAX_NODES ==> s.ids[j] == ""
  }

  lemma FillNext(s: Slots, ids: seq<NodeId>, k: nat)
    requires FilledWith(s, ids, k) && MembersOk(ids) && k < |ids|
    ensures FilledWith(s.Filled(ids[k]), ids, k + 1)
  {
    if ids[k] == "" {
      assert s.ids[..k + 1] == s.ids[..k] + [""] && ids[..k + 1] == ids[..k] + [""];
    } else {
      var at := FirstFree(s.ids, s.count);
      forall j | 0 <= j < k ensures s.ids[j] != "" {
        assert s.ids[j] == s.ids[..k][j] && ids[j] == ids[..k][j];
      }
      assert s.ids[k] == "" && at == k;
      assert s.ids[k := ids[k]][..k + 1] == s.ids[..k] + [ids[k]];
    }
    hide FirstFree, NoBlank;
  }

  lemma MemberWord(id: NodeId)
    requires WordOk(id)
    ensures Printable(id) && Word(id + "\n") == id
  {
    WordBack(id);
    assert forall k :: 0 <= k < |id| ==> !Blank(id[k]);
    hide Word;
  }

  /** The member lines of one list fill its slots; the other list's slots are left alone. */
  lemma {:induction false} MembersRead(r: Reading, f: Field, ids: seq<NodeId>, k: nat, rest: string) returns (s: Slots)
    requires MembersOk(ids) && (f.OldMember? || f.NewMember?) && k <= |ids|
    requires FilledWith(if f.OldMember? then r.old_ else r.new_, ids, k)
    ensures FilledWith(s, ids, |ids|)
    ensures ReadLines(r, MemberLines(f, ids[k..]) + rest) == ReadLines(if f.OldMember? then r.(old_ := s) else r.(new_ := s), rest)
    decreases |ids| - k
  {
    hide *;
    s := if f.OldMember? then r.old_ else r.new_;
    MemberTail(f, ids, k, rest);
    if k < |ids| {
      var tail := MemberLines(f, ids[k + 1..]) + rest;
      MemberWord(ids[k]);
      FillNext(s, ids, k);
      LineBack(r, f, ids[k], tail);
      MemberField(r, f, ids[k]);
      var r1 := if f.OldMember? then r.(old_ := s.Filled(ids[k])) else r.(new_ := s.Filled(ids[k]));
      s := MembersRead(r1, f, ids, k + 1, rest);
    }
  }

  lemma MemberField(r: Reading, f: Field, id: NodeId)
    requires f.OldMember? || f.NewMember?
    ensures ReadField(r, f, id + "\n") ==
              if f.OldMember? then r.(old_ := r.old_.Filled(Word(id + "\n"))) else r.(new_ := r.new_.Filled(Word(id + "\n")))
  {
    hide Word;
  }

  lemma MemberTail(f: Field, ids: seq<NodeId>, k: nat, rest: string)
    requires MembersOk(ids) && k <= |ids|
    ensures k == |ids| ==> MemberLines(f, ids[k..]) + rest == rest
    ensures k < |ids| ==> WordOk(ids[k]) && MemberLines(f, ids[k..]) + rest == FieldLine(f, ids[k]) + (MemberLines(f, ids[k + 1..]) + rest)
  {
    hide FieldLine, WordOk, Packed;
    if k < |ids| { assert ids[k..][0] == ids[k] && ids[k..][1..] == ids[k + 1..]; }
  }

  lemma FilledAll(s: Slots, ids: seq<NodeId>)
    requires FilledWith(s, ids, |ids|)
    ensures Listed(s) == ids
  {
    assert ids[..|ids|] == ids;
  }

  lemma Uncounted(n: nat, ids: seq<NodeId>)
    requires n == |ids| <= MAX_NODES
    ensures FilledWith(NO_SLOTS.Counted(n), ids, 0)
  {
  }

  // ---- The whole file ----

  /** Numbers that an int holds. */
  predicate Ints(m: Meta) {
    && m.term < INT_LIMIT && m.threshold < INT_LIMIT && m.commit < INT_LIMIT && m.snapIndex < INT_LIMIT && m.snapTerm < INT_LIMIT
    && m.config.index < INT_LIMIT
  }

  /** The vote and the members are words that fit their fields, the vote is no dash, and of the members at
      most as many as there are slots, empty ones last. */
  predicate NamesOk(m: Meta) {
    WordOk(m.vote) && m.vote != "-" && MembersOk(m.config.current) && MembersOk(m.config.joining)
  }

  predicate MetaOk(m: Meta) {
    Ints(m) && NamesOk(m)
  }

  lemma NumberBack(r: Reading, f: Field, n: nat, rest: string)
    requires n < INT_LIMIT
    ensures ReadLines(r, FieldLine(f, Digits(n)) + rest) == ReadLines(ReadField(r, f, Digits(n) + "\n"), rest)
    ensures Atoi(Digits(n) + "\n") == n
  {
    hide *;
    DigitsPrintable(n);
    LineBack(r, f, Digits(n), rest);
  }

  lemma VotePrintable(vote: NodeId)
    requires NoBlank(vote) && |vote| < MAX_ID
    ensures Printable(VoteWord(vote))
  {
  }

  lemma MembersBack(r: Reading, c: Config)
    requires MembersOk(c.current) && MembersOk(c.joining) && r.old_ == NO_SLOTS && r.new_ == NO_SLOTS
    ensures var r' := ReadLines(r, PrintMembers(c));
            r' == r.(old_ := r'.old_, new_ := r'.new_) && Listed(r'.old_) == c.current && Listed(r'.new_) == c.joining
  {
    hide MemberLines, FieldLine, ReadLines, WordOk, FilledWith, Listed, Digits, Atoi;
    var tail2 := MemberLines(NewMember, c.joining);
    var tail1 := FieldLine(NewCount, Digits(|c.joining|)) + tail2;
    NumberBack(r, OldCount, |c.current|, MemberLines(OldMember, c.current) + tail1);
    var r1 := r.(old_ := NO_SLOTS.Counted(|c.current|));
    Uncounted(|c.current|, c.current);
    assert c.current[0..] == c.current && c.joining[0..] == c.joining;
    var s1 := MembersRead(r1, OldMember, c.current, 0, tail1);
    var r2 := r1.(old_ := s1);
    NumberBack(r2, NewCount, |c.joining|, tail2);
    var r3 := r2.(new_ := NO_SLOTS.Counted(|c.joining|));
    Uncounted(|c.joining|, c.joining);
    assert tail2 + "" == tail2;
    var s2 := MembersRead(r3, NewMember, c.joining, 0, "");
    FilledAll(s1, c.current);
    FilledAll(s2, c.joining);
    NoLines(r3.(new_ := s2));
  }

  lemma NoLines(r: Reading)
    ensures ReadLines(r, "") == r
  {
  }

  lemma MetaBack(m: Meta)
    requires MetaOk(m)
    ensures ReadMeta(PrintMeta(m)) == m
  {
    var t7 := PrintMembers(m.config);
    var t6 := FieldLine(ConfigIndex, Digits(m.config.index)) + t7;
    var t5 := FieldLine(SnapTerm, Digits(m.snapTerm)) + t6;
    var t4 := FieldLine(SnapIndex, Digits(m.snapIndex)) + t5;
    var t3 := FieldLine(CommitIndex, Digits(m.commit)) + t4;
    var t2 := FieldLine(Threshold, Digits(m.threshold)) + t3;
    var t1 := FieldLine(VotedFor, VoteWord(m.vote)) + t2;
    hide FieldLine, ReadLines, PrintMembers, Digits, Atoi, Word, VoteWord, NoBlank, MembersOk, Printable, Packed;
    NumberBack(BLANK, CurrentTerm, m.term, t1);
    var r1 := BLANK.(term := m.term);
    VotePrintable(m.vote);
    LineBack(r1, VotedFor, VoteWord(m.vote), t2);
    VoteBack(m.vote, r1);
    var r2 := r1.(vote := m.vote);
    NumberBack(r2, Threshold, m.threshold, t3);
    var r3 := r2.(threshold := m.threshold);
    NumberBack(r3, CommitIndex, m.commit, t4);
    var r4 := r3.(commit := m.commit);
    NumberBack(r4, SnapIndex, m.snapIndex, t5);
    var r5 := r4.(snapIndex := m.snapIndex);
    NumberBack(r5, SnapTerm, m.snapTerm, t6);
    var r6 := r5.(snapTerm := m.snapTerm);
    NumberBack(r6, ConfigIndex, m.config.index, t7);
    MembersBack(r6.(index := m.config.index), m.config);
  }

  /** Whatever a meta file holds, the names read from it are such words, and filled slots come first. */
  predicate WellRead(r: Reading) {
    WordOk(r.vote) && r.vote != "-" && SlotsOk(r.old_) && SlotsOk(r.new_)
  }

  predicate SlotsOk(s: Slots) {
    |s.ids| == MAX_NODES && MembersOk(s.ids)
  }

  lemma FilledOk(s: Slots, word: string)
    requires SlotsOk(s) && WordOk(word)
    ensures SlotsOk(s.Filled(word))
  {
    hide FirstFree, NoBlank;
  }

  lemma ReadFieldOk(r: Reading, f: Field, text: string)
    requires WellRead(r)
    ensures WellRead(ReadField(r, f, text))
  {
    TakeNoBlank(SkipBlanks(text), MAX_ID - 1);
    hide Take, SkipBlanks, SlotsOk, Atoi;
    CountedOk(r.old_, Atoi(text));
    CountedOk(r.new_, Atoi(text));
    FilledOk(r.old_, Word(text));
    FilledOk(r.new_, Word(text));
  }

  lemma CountedOk(s: Slots, n: nat)
    requires SlotsOk(s)
    ensures SlotsOk(s.Counted(n))
  {
  }

  lemma {:induction false} ReadLinesOk(r: Reading, text: string)
    requires WellRead(r)
    ensures WellRead(ReadLines(r, text))
    decreases |text|
  {
    hide WellRead, ReadField, FieldOf;
    if text != "" {
      var line := FirstLine(text);
      var k := IndexOf(line, ' ');
      if k < |line| && FieldOf(line[..k]).Some? {
        ReadFieldOk(r, FieldOf(line[..k]).value, line[k + 1..]);
      }
      LinesStep(r, text);
      ReadLinesOk(ReadLine(r, line), text[|line|..]);
    }
  }

  lemma ReadOk(text: string)
    ensures NamesOk(ReadMeta(text))
  {
    hide ReadLines;
    ReadLinesOk(BLANK, text);
    ListedOk(ReadLines(BLANK, text).old_);
    ListedOk(ReadLines(BLANK, text).new_);
  }

  lemma ListedOk(s: Slots)
    requires SlotsOk(s)
    ensures MembersOk(Listed(s))
  {
    hide WordOk;
  }

  /** The meta file gives back term, vote, threshold, indices and configuration exactly if its names are
      words that fit and no empty member stands before another. */
  lemma MetaRoundTrip(m: Meta)
    requires Ints(m)
    ensures ReadMeta(PrintMeta(m)) == m <==> NamesOk(m)
  {
    hide ReadMeta, PrintMeta, NamesOk;
    ReadOk(PrintMeta(m));
    if NamesOk(m) { MetaBack(m); }
  }

  // ---- The loops ----

  lemma MemberLinesStep(f: Field, ids: seq<NodeId>, i: nat)
    requires i <= |ids|
    ensures MemberLines(f, ids[i..]) == if i == |ids| then "" else FieldLine(f, ids[i]) + MemberLines(f, ids[i + 1..])
  {
    hide FieldLine;
    if i < |ids| { assert ids[i..][0] == ids[i] && ids[i..][1..] == ids[i + 1..]; }
  }

  method WriteMembers(f: Field, ids: seq<NodeId>) returns (text: string)
    ensures text == MemberLines(f, ids)
  {
    hide FieldLine, MemberLines;
    text := "";
    assert ids[0..] == ids;
    for i := 0 to |ids|
      invariant text + MemberLines(f, ids[i..]) == MemberLines(f, ids)
    {
      MemberLinesStep(f, ids, i);
      text := text + FieldLine(f, ids[i]);
    }
    MemberLinesStep(f, ids, |ids|);
  }

  method LoadMeta(text: string) returns (m: Meta)
    ensures m == ReadMeta(text)
  {
    hide ReadLine, FirstLine, ReadLines;
    var r := BLANK;
    var rest := text;
    while rest != ""
      invariant ReadLines(r, rest) == ReadLines(BLANK, text)
      decreases |rest|
    {
      LinesStep(r, rest);
      var line := FirstLine(rest);
      r := ReadLine(r, line);
      rest := rest[|line|..];
    }
    NoLines(r);
    m := MetaOf(r);
  }
}
