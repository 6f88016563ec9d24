/**
 Messages of the EFP1.1 competition protocol: areas divided by '%', fields closed by '|', a parser
 that fills up what is missing, and a printer.
 */
module Efp1 {

  const GENERAL := 17
  const FENCER := 12
  const MAX_NR_FIELDS := 41
  const EFP1_1 := "EFP1.1"

  const Protocol := 0
  const Command := 1
  const PisteId := 2
  const CompetitionId := 3

  datatype Msg = Msg(general: seq<string>, right: seq<string>, left: seq<string>)

  // ---- Streams ----

  /** Where the first `d` stands, or the length. */
  function IndexOf(s: string, d: char): (i: nat)
    ensures i <= |s| && d !in s[..i] && (i < |s| ==> s[i] == d)
  {
    if s == [] || s[0] == d then 0 else 1 + IndexOf(s[1..], d)
  }

  /** The pieces that reading up to each `d` yields; nothing is read after a closing `d`. */
  function Split(s: string, d: char): seq<string>
    decreases |s|
  {
    if s == [] then []
    else
      var i := IndexOf(s, d);
      [s[..i]] + if i < |s| then Split(s[i + 1..], d) else []
  }

  predicate Blank(c: char) { c in {' ', '\t', '\n', '\r', 0x0b as char, 0x0c as char} }

  /** Reading one character skips the blanks before it. */
  function AfterChar(s: string): string {
    if s == [] then [] else if Blank(s[0]) then AfterChar(s[1..]) else s[1..]
  }

  /** Every piece closed by `d`. */
  function Join(fs: seq<string>, d: char): string {
    if fs == [] then [] else fs[0] + [d] + Join(fs[1..], d)
  }

  function Blanks(n: nat): (b: seq<string>)
    ensures |b| == n && forall i: nat | i < n :: b[i] == ""
  {
    seq(n, _ => "")
  }

  function Padded(fs: seq<string>, n: nat): (p: seq<string>)
    ensures |p| >= n && fs <= p
  {
    fs + if |fs| < n then Blanks(n - |fs|) else []
  }

  // ---- Parsing and printing ----

  function Areas(buffer: string): seq<string> { Split(AfterChar(buffer), '%') }

  function FencerFields(area: string): seq<string> { Padded(Split(AfterChar(area), '|'), FENCER) }

  /** The protocol field always becomes EFP1.1. Fields too many are kept. */
  function Parse(buffer: string): (m: Msg)
    requires Areas(buffer) != []
    ensures |m.general| >= GENERAL && |m.right| >= FENCER && |m.left| >= FENCER && m.general[Protocol] == EFP1_1
  {
    var areas := Areas(buffer);
    var general := Padded(Split(areas[0], '|'), GENERAL)[Protocol := EFP1_1];
    if |areas| > 2 then Msg(general, FencerFields(areas[1]), FencerFields(areas[2]))
    else Msg(general, Blanks(FENCER), Blanks(FENCER))
  }

  /** At least the fields of an EFP1.1 message. */
  predicate Full(m: Msg) { |m.general| >= GENERAL && |m.right| >= FENCER && |m.left| >= FENCER }

  function FencerCount(m: Msg): nat
    requires Full(m)
  {
    if m.general[Protocol] == EFP1_1 then FENCER else FENCER - 1
  }

  function Print(m: Msg): string
    requires Full(m)
  {
    var n := FencerCount(m);
    "|" + Join(m.general[..GENERAL], '|') + "%|" + Join(m.right[..n], '|') + "%|" + Join(m.left[..n], '|') + "%|"
  }

  // ---- Fields by index ----

  /** The access by index reaches past the last left-fencer field. */
  predicate OutOfRange(m: Msg, i: int) {
    var g, f := |m.general|, |m.right|;
    g + f <= i < g + 2 * f && i - g - f >= |m.left|
  }

  /** The field with index i: the general fields, then twice as many as there are right-fencer fields. */
  function Field(m: Msg, i: int): string
    requires !OutOfRange(m, i)
  {
    var g, f := |m.general|, |m.right|;
    if i < 0 || i >= g + 2 * f then ""
    else if i < g then m.general[i]
    else if i - g < f then m.right[i - g]
    else m.left[i - g - f]
  }

  /** The index names a field of the message. */
  predicate InRange(m: Msg, i: int) { 0 <= i < |m.general| + 2 * |m.right| && !OutOfRange(m, i) }

  /** The message with one field replaced; an index that names no field changes none. */
  function WithField(m: Msg, i: int, v: string): (r: Msg)
    requires !OutOfRange(m, i)
    ensures |r.general| == |m.general| && |r.right| == |m.right| && |r.left| == |m.left|
    ensures forall j: int | InRange(m, j) :: Field(r, j) == if j == i then v else Field(m, j)
    ensures !InRange(m, i) ==> r == m
  {
    var g, f := |m.general|, |m.right|;
    if i < 0 || i >= g + 2 * f then m
    else if i < g then m.(general := m.general[i := v])
    else if i - g < f then m.(right := m.right[i - g := v])
    else m.(left := m.left[i - g - f := v])
  }

  datatype MessageType = HELLO | DISP | ACK | NAK | INFO | NEXT | PREV | ERROR

  function TypeOf(m: Msg): MessageType
    requires Full(m)
  {
    var c := Field(m, Command);
    if c == "HELLO" then HELLO else if c == "DISP" then DISP else if c == "ACK" then ACK else if c == "NAK" then NAK
    else if c == "INFO" then INFO else if c == "NEXT" then NEXT else if c == "PREV" then PREV else ERROR
  }

  /** A request for the next or the previous match of this piste and competition. */
  function Request(m: Msg, command: string): string
    requires Full(m)
  {
    "|" + Field(m, Protocol) + "|" + command + "|" + Field(m, PisteId) + "|" + Field(m, CompetitionId) + "|%|"
  }

  // ---- The object ----

  lemma {:induction false} IndexIs(s: string, i: nat, d: char)
    requires i <= |s| && (forall k: nat | k < i :: s[k] != d) && (i < |s| ==> s[i] == d)
    ensures IndexOf(s, d) == i
  {
    if i > 0 {
      IndexIs(s[1..], i - 1, d);
    }
  }

  method FindEnd(s: string, d: char) returns (i: nat)
    ensures i == IndexOf(s, d)
  {
    i := 0;
    while i < |s| && s[i] != d
      invariant i <= |s| && forall k: nat | k < i :: s[k] != d
    {
      i := i + 1;
    }
    IndexIs(s, i, d);
  }

  lemma SplitNext(s: string, d: char)
    requires s != []
    ensures var i := IndexOf(s, d);
            Split(s, d) == [s[..i]] + Split(if i < |s| then s[i + 1..] else [], d)
  {
  }

  lemma PieceMoves(pieces: seq<string>, piece: string, more: seq<string>)
    ensures pieces + ([piece] + more) == (pieces + [piece]) + more
  {
  }

  method ReadPiece(s: string, d: char) returns (piece: string, more: string)
    requires s != []
    ensures Split(s, d) == [piece] + Split(more, d) && |more| < |s|
  {
    var i := FindEnd(s, d);
    SplitNext(s, d);
    piece := s[..i];
    more := if i < |s| then s[i + 1..] else [];
  }

  /** Reading a stream piece by piece. */
  method GetLines(s: string, d: char) returns (pieces: seq<string>)
    ensures pieces == Split(s, d)
  {
    pieces := [];
    var rest := s;
    while rest != []
      invariant Split(s, d) == pieces + Split(rest, d)
      decreases |rest|
    {
      var piece, more := ReadPiece(rest, d);
      PieceMoves(pieces, piece, Split(more, d));
      pieces := pieces + [piece];
      rest := more;
    }
  }

  lemma {:induction false} JoinGrows(fs: seq<string>, f: string, d: char)
    ensures Join(fs + [f], d) == Join(fs, d) + f + [d]
  {
    if fs == [] {
      assert fs + [f] == [f];
      assert Join([f], d) == f + [d] + Join([], d);
    } else {
      assert (fs + [f])[1..] == fs[1..] + [f];
      JoinGrows(fs[1..], f, d);
    }
  }

  class EFP1Message {
    var generalFields: seq<string>
    var leftFencerFields: seq<string>
    var rightFencerFields: seq<string>

    function View(): Msg
      reads this
    {
      Msg(generalFields, rightFencerFields, leftFencerFields)
    }

    constructor ()
      ensures Full(View()) && View() == Msg(Blanks(GENERAL)[Protocol := EFP1_1][Command := "INFO"], Blanks(FENCER), Blanks(FENCER))
    {
      generalFields := Blanks(GENERAL)[Protocol := EFP1_1][Command := "INFO"];
      leftFencerFields, rightFencerFields := Blanks(FENCER), Blanks(FENCER);
    }

    method FillUp(fs: seq<string>, n: nat) returns (p: seq<string>)
      ensures p == Padded(fs, n)
    {
      p := fs;
      while |p| < n
        invariant |fs| <= |p| && (|fs| <= n ==> |p| <= n) && (|fs| >= n ==> p == fs)
        invariant p == fs + Blanks(|p| - |fs|)
      {
        p := p + [""];
      }
    }

    /** A buffer without any area has no first area to read. */
    constructor FromString(buffer: string)
      requires Areas(buffer) != []
      ensures View() == Parse(buffer)
    {
      generalFields, leftFencerFields, rightFencerFields := [], [], [];
      new;
      var areas := GetLines(AfterChar(buffer), '%');
      generalFields := GetLines(areas[0], '|');
      generalFields := FillUp(generalFields, GENERAL);
      generalFields := generalFields[Protocol := EFP1_1];
      if |areas| > 2 {
        leftFencerFields := GetLines(AfterChar(areas[2]), '|');
        leftFencerFields := FillUp(leftFencerFields, FENCER);
        rightFencerFields := GetLines(AfterChar(areas[1]), '|');
        rightFencerFields := FillUp(rightFencerFields, FENCER);
      } else {
        leftFencerFields, rightFencerFields := Blanks(FENCER), Blanks(FENCER);
      }
    }

    method AppendFields(buffer: string, fs: seq<string>, n: nat) returns (longer: string)
      requires n <= |fs|
      ensures longer == buffer + Join(fs[..n], '|')
    {
      longer := buffer;
      for i := 0 to n
        invariant longer == buffer + Join(fs[..i], '|')
      {
        JoinGrows(fs[..i], fs[i], '|');
        assert fs[..i] + [fs[i]] == fs[..i + 1];
        longer := longer + fs[i] + "|";
      }
    }

    method ToString() returns (buffer: string)
      requires Full(View())
      ensures buffer == Print(View())
    {
      var n := if generalFields[Protocol] == EFP1_1 then FENCER else FENCER - 1;
      buffer := AppendFields("|", generalFields, GENERAL);
      buffer := AppendFields(buffer + "%|", rightFencerFields, n);
      buffer := AppendFields(buffer + "%|", leftFencerFields, n);
      buffer := buffer + "%|";
    }

    /** What is written under an index that names no field goes into a string outside the message. */
    method SetField(i: int, v: string)
      requires !OutOfRange(View(), i)
      modifies this
      ensures View() == WithField(old(View()), i, v)
    {
      var g, f := |generalFields|, |rightFencerFields|;
      if i < 0 || i >= g + 2 * f {
        return;
      }
      if i < g {
        generalFields := generalFields[i := v];
      } else if i - g < f {
        rightFencerFields := rightFencerFields[i - g := v];
      } else {
        leftFencerFields := leftFencerFields[i - g - f := v];
      }
    }

    /** Assignment copies the 41 fields of the protocol, by index. */
    method Assign(rhs: EFP1Message)
      requires Full(View()) && Full(rhs.View())
      modifies this
      ensures Full(View()) && forall i: nat | i < MAX_NR_FIELDS :: Field(View(), i) == Field(old(rhs.View()), i)
    {
      if this == rhs {
        return;
      }
      for i := 0 to MAX_NR_FIELDS
        invariant Full(View()) && rhs.View() == old(rhs.View())
        invariant forall j: nat | j < i :: Field(View(), j) == Field(rhs.View(), j)
      {
        SetField(i, Field(rhs.View(), i));
      }
    }

    method SwapFencersInclScoreCardsEtc()
      modifies this
      ensures View() == Msg(old(View()).general, old(View()).left, old(View()).right)
    {
      var temp := rightFencerFields;
      rightFencerFields := leftFencerFields;
      leftFencerFields := temp;
    }
  }

  // ---- Round trips ----

  /** The text holds neither divider. */
  predicate Clean(f: string) { '|' !in f && '%' !in f }

  predicate AllClean(fs: seq<string>) { forall i: nat | i < |fs| :: Clean(fs[i]) }

  /** A message of exactly the 41 fields, none of which holds a divider. */
  predicate Canonical(m: Msg) {
    && |m.general| == GENERAL && |m.right| == FENCER && |m.left| == FENCER && m.general[Protocol] == EFP1_1
    && AllClean(m.general) && AllClean(m.right) && AllClean(m.left)
  }

  lemma {:induction false} IndexAfter(f: string, rest: string, d: char)
    requires d !in f
    ensures IndexOf(f + [d] + rest, d) == |f|
  {
    if f != [] {
      assert (f + [d] + rest)[1..] == f[1..] + [d] + rest;
      IndexAfter(f[1..], rest, d);
    }
  }

  lemma SplitFirst(f: string, rest: string, d: char)
    requires d !in f
    ensures Split(f + [d] + rest, d) == [f] + Split(rest, d)
  {
    var s := f + [d] + rest;
    IndexAfter(f, rest, d);
    assert s[..|f|] == f && s[|f| + 1..] == rest;
  }

  lemma SplitUndivided(s: string, d: char)
    requires d !in s && s != []
    ensures Split(s, d) == [s]
  {
    var i := IndexOf(s, d);
    assert i == |s| && s[..i] == s;
  }

  function WithTail(fs: seq<string>, tail: string): seq<string> {
    fs + if tail == [] then [] else [tail]
  }

  lemma TailAfterFirst(fs: seq<string>, tail: string)
    requires fs != []
    ensures WithTail(fs, tail) == [fs[0]] + WithTail(fs[1..], tail)
  {
    assert fs == [fs[0]] + fs[1..];
  }

  lemma JoinFirst(fs: seq<string>, tail: string, d: char)
    requires fs != []
    ensures Join(fs, d) + tail == fs[0] + [d] + (Join(fs[1..], d) + tail)
  {
  }

  /** Splitting takes apart what joining put together; a rest without divider is one more piece. */
  lemma {:induction false} SplitJoin(fs: seq<string>, tail: string, d: char)
    requires (forall i: nat | i < |fs| :: d !in fs[i]) && d !in tail
    ensures Split(Join(fs, d) + tail, d) == WithTail(fs, tail)
  {
    if fs == [] {
      assert Join(fs, d) + tail == tail;
      if tail != [] {
        SplitUndivided(tail, d);
      }
    } else {
      JoinFirst(fs, tail, d);
      SplitFirst(fs[0], Join(fs[1..], d) + tail, d);
      SplitJoin(fs[1..], tail, d);
      TailAfterFirst(fs, tail);
    }
  }

  lemma {:induction false} JoinHoldsNo(fs: seq<string>, d: char, c: char)
    requires c != d && forall i: nat | i < |fs| :: c !in fs[i]
    ensures c !in Join(fs, d)
  {
    if fs != [] {
      JoinHoldsNo(fs[1..], d, c);
    }
  }

  lemma BarSkipped(s: string)
    ensures AfterChar("|" + s) == s
  {
    assert ("|" + s)[1..] == s;
  }

  lemma PrintRegrouped(g: string, r: string, l: string)
    ensures "|" + g + "%|" + r + "%|" + l + "%|" == "|" + ((g + "%" + ("|" + r) + "%" + ("|" + l) + "%") + "|")
  {
  }

  /** The four areas of a printed message. */
  lemma PrintedAreas(m: Msg)
    requires Canonical(m)
    ensures Areas(Print(m)) == [Join(m.general, '|'), "|" + Join(m.right, '|'), "|" + Join(m.left, '|'), "|"]
  {
    var g, r, l := Join(m.general, '|'), "|" + Join(m.right, '|'), "|" + Join(m.left, '|');
    JoinHoldsNo(m.general, '|', '%');
    JoinHoldsNo(m.right, '|', '%');
    JoinHoldsNo(m.left, '|', '%');
    assert m.general[..GENERAL] == m.general && m.right[..FENCER] == m.right && m.left[..FENCER] == m.left;
    PrintRegrouped(g, Join(m.right, '|'), Join(m.left, '|'));
    BarSkipped((g + "%" + r + "%" + l + "%") + "|");
    ThreeAreas(g, r, l);
  }

  lemma ThreeAreas(g: string, r: string, l: string)
    requires '%' !in g && '%' !in r && '%' !in l
    ensures Split((g + "%" + r + "%" + l + "%") + "|", '%') == [g, r, l, "|"]
  {
    ThreeJoined(g, r, l, '%');
    SplitJoin([g, r, l], "|", '%');
  }

  lemma ThreeJoined(a: string, b: string, c: string, d: char)
    ensures Join([a, b, c], d) == a + [d] + b + [d] + c + [d]
  {
    assert [a, b, c][1..] == [b, c] && [b, c][1..] == [c] && [c][1..] == [];
    assert Join([c], d) == c + [d];
    assert Join([b, c], d) == b + [d] + Join([c], d);
    assert Join([a, b, c], d) == a + [d] + Join([b, c], d);
  }

  lemma FieldsReadBack(fs: seq<string>)
    requires AllClean(fs)
    ensures Split(Join(fs, '|'), '|') == fs
  {
    assert Join(fs, '|') + [] == Join(fs, '|');
    SplitJoin(fs, [], '|');
  }

  lemma FencerReadsBack(fs: seq<string>)
    requires AllClean(fs) && |fs| == FENCER
    ensures FencerFields("|" + Join(fs, '|')) == fs
  {
    FieldsReadBack(fs);
    BarSkipped(Join(fs, '|'));
  }

  /** Parsing what was printed gives back every message whose fields hold no divider. */
  lemma RoundTrip(m: Msg)
    requires Canonical(m)
    ensures Areas(Print(m)) != [] && Parse(Print(m)) == m
  {
    var areas := Areas(Print(m));
    PrintedAreas(m);
    FieldsReadBack(m.general);
    FencerReadsBack(m.right);
    FencerReadsBack(m.left);
    assert Padded(Split(areas[0], '|'), GENERAL)[Protocol := EFP1_1] == m.general;
  }

  lemma {:induction false} PiecesHoldNo(s: string, d: char, c: char)
    requires c == d || c !in s
    ensures forall i: nat | i < |Split(s, d)| :: c !in Split(s, d)[i]
    decreases |s|
  {
    if s != [] {
      var i := IndexOf(s, d);
      assert forall k: nat | k < i :: s[..i][k] == s[k];
      if i < |s| {
        PiecesHoldNo(s[i + 1..], d, c);
      }
    }
  }

  lemma {:induction false} AfterCharHoldsNo(s: string, c: char)
    requires c !in s
    ensures c !in AfterChar(s)
  {
    if s != [] && Blank(s[0]) {
      AfterCharHoldsNo(s[1..], c);
    }
  }

  lemma CleanPieces(area: string)
    requires '%' !in area
    ensures AllClean(Split(area, '|')) && AllClean(FencerFields(area))
  {
    PiecesHoldNo(area, '|', '%');
    PiecesHoldNo(area, '|', '|');
    AfterCharHoldsNo(area, '%');
    PiecesHoldNo(AfterChar(area), '|', '%');
    PiecesHoldNo(AfterChar(area), '|', '|');
  }

  predicate Shaped(m: Msg) {
    |m.general| == GENERAL && |m.right| == FENCER && |m.left| == FENCER && m.general[Protocol] == EFP1_1
  }

  /** Among the messages of 41 fields, exactly those without a divider in a field survive the trip. */
  lemma RoundTripExactly(m: Msg)
    requires Shaped(m)
    ensures Areas(Print(m)) != [] && (Parse(Print(m)) == m <==> Canonical(m))
  {
    assert AfterChar(Print(m)) != [];
    if Canonical(m) {
      RoundTrip(m);
    } else {
      ParsedIsClean(Print(m));
      assert m.general[..GENERAL] == m.general && m.right[..FENCER] == m.right && m.left[..FENCER] == m.left;
    }
  }

  /** The message without the fields too many. */
  function Cut(m: Msg): Msg
    requires Full(m)
  {
    Msg(m.general[..GENERAL], m.right[..FENCER], m.left[..FENCER])
  }

  lemma ParsedIsClean(s: string)
    requires Areas(s) != []
    ensures Canonical(Cut(Parse(s)))
  {
    var areas := Areas(s);
    PiecesHoldNo(AfterChar(s), '%', '%');
    GeneralIsRead(areas[0]);
    if |areas| > 2 {
      CleanPieces(areas[1]);
      CleanPieces(areas[2]);
    }
  }

  lemma GeneralIsRead(area: string)
    requires '%' !in area
    ensures AllClean(Padded(Split(area, '|'), GENERAL)[Protocol := EFP1_1])
  {
    CleanPieces(area);
    assert Clean(EFP1_1);
  }

  predicate AllBlank(s: string) { forall i: nat | i < |s| :: Blank(s[i]) }

  /** No area is read, so that the constructor has no first area, exactly from text that has at most one
      character behind its leading blanks. */
  lemma {:induction false} WhenAreasAreMissing(s: string)
    ensures Areas(s) == [] <==> s == [] || AllBlank(s[..|s| - 1])
  {
    if s != [] && Blank(s[0]) {
      WhenAreasAreMissing(s[1..]);
      if |s| > 1 {
        assert s[..|s| - 1] == [s[0]] + s[1..][..|s| - 2];
        BlankFirst(s[0], s[1..][..|s| - 2]);
      }
    } else if |s| > 1 {
      assert s[..|s| - 1][0] == s[0];
    }
  }

  lemma BlankFirst(c: char, s: string)
    ensures AllBlank([c] + s) <==> Blank(c) && AllBlank(s)
  {
    if AllBlank([c] + s) {
      assert ([c] + s)[0] == c && forall i: nat | i < |s| :: ([c] + s)[i + 1] == s[i];
    }
  }

  /** Printing a parsed message reaches a fixed point at once, for every input with an area. */
  lemma NormalFormIsStable(s: string)
    requires Areas(s) != []
    ensures var printed := Print(Parse(s)); Areas(printed) != [] && Print(Parse(printed)) == printed
  {
    var c := Cut(Parse(s));
    ParsedIsClean(s);
    assert Print(Parse(s)) == Print(c) by {
      assert c.general[..GENERAL] == c.general && c.right[..FENCER] == c.right && c.left[..FENCER] == c.left;
    }
    RoundTrip(c);
  }

  // ---- Indices ----

  /** Indices 0 to 40 of a message are safe; beyond them some index is out of range exactly when
      there are more right-fencer fields than left-fencer fields. */
  lemma WhenIndicesAreSafe(m: Msg)
    requires Full(m)
    ensures forall i: int | i < MAX_NR_FIELDS :: !OutOfRange(m, i)
    ensures (exists i: int :: OutOfRange(m, i)) <==> |m.right| > |m.left|
  {
    if |m.right| > |m.left| {
      assert OutOfRange(m, |m.general| + |m.right| + |m.left|);
    }
  }

  // ---- Requests ----

  /** The request for the next match (and likewise for the previous one) is read as such, and names
      the same piste and competition. */
  lemma RequestReadBack(m: Msg, command: string)
    requires Full(m) && m.general[Protocol] == EFP1_1 && command in {"NEXT", "PREV"}
    requires Clean(m.general[PisteId]) && Clean(m.general[CompetitionId])
    ensures Areas(Request(m, command)) != []
    ensures var r := Parse(Request(m, command));
            && TypeOf(r) == (if command == "NEXT" then NEXT else PREV)
            && Field(r, PisteId) == Field(m, PisteId) && Field(r, CompetitionId) == Field(m, CompetitionId)
  {
    var fs := [EFP1_1, command, m.general[PisteId], m.general[CompetitionId]];
    CommandsAreClean();
    var s := Request(m, command);
    assert s == "|" + fs[0] + "|" + fs[1] + "|" + fs[2] + "|" + fs[3] + "|%|";
    RequestReads(fs, s);
    RequestType(Parse(s), command);
  }

  lemma RequestType(r: Msg, command: string)
    requires Full(r) && Field(r, Command) == command && command in {"NEXT", "PREV"}
    ensures TypeOf(r) == if command == "NEXT" then NEXT else PREV
  {
    assert "NEXT"[0] == 'N' && "PREV"[0] == 'P' && "NAK"[1] == 'A' && "NEXT"[1] == 'E';
  }

  lemma RequestReads(fs: seq<string>, s: string)
    requires |fs| == 4 && AllClean(fs) && fs[Protocol] == EFP1_1
    requires s == "|" + fs[0] + "|" + fs[1] + "|" + fs[2] + "|" + fs[3] + "|%|"
    ensures Areas(s) != [] && forall i: nat | i < 4 :: Field(Parse(s), i) == fs[i]
  {
    RequestAreas(fs, s);
    FieldsReadBack(fs);
    FirstFields(fs, s);
  }

  lemma CommandsAreClean()
    ensures Clean(EFP1_1) && Clean("NEXT") && Clean("PREV")
  {
  }

  lemma FirstFields(fs: seq<string>, s: string)
    requires |fs| == 4 && fs[Protocol] == EFP1_1 && Split(Join(fs, '|'), '|') == fs && Areas(s) == [Join(fs, '|'), "|"]
    ensures forall i: nat | i < 4 :: Field(Parse(s), i) == fs[i]
  {
    assert fs <= Padded(fs, GENERAL);
  }

  lemma RequestRegrouped(a: string, b: string, c: string, d: string)
    ensures "|" + a + "|" + b + "|" + c + "|" + d + "|%|" == "|" + ((a + "|" + b + "|" + c + "|" + d + "|") + "%" + "|")
  {
  }

  lemma OneArea(g: string)
    requires '%' !in g
    ensures Split(g + "%" + "|", '%') == [g, "|"]
  {
    assert Join([g], '%') == g + "%" + Join([], '%');
    assert Join([g], '%') + "|" == g + "%" + "|";
    SplitJoin([g], "|", '%');
  }

  lemma RequestAreas(fs: seq<string>, s: string)
    requires |fs| == 4 && AllClean(fs)
    requires s == "|" + fs[0] + "|" + fs[1] + "|" + fs[2] + "|" + fs[3] + "|%|"
    ensures Areas(s) == [Join(fs, '|'), "|"]
  {
    var g := Join(fs, '|');
    FourJoined(fs, '|');
    JoinHoldsNo(fs, '|', '%');
    RequestRegrouped(fs[0], fs[1], fs[2], fs[3]);
    BarSkipped(g + "%" + "|");
    OneArea(g);
  }

  lemma FourJoined(fs: seq<string>, d: char)
    requires |fs| == 4
    ensures Join(fs, d) == fs[0] + [d] + fs[1] + [d] + fs[2] + [d] + fs[3] + [d]
  {
    assert Join(fs[3..], d) == fs[3] + [d] + Join([], d);
    assert fs[2..][1..] == fs[3..] && fs[1..][1..] == fs[2..];
    assert Join(fs[2..], d) == fs[2] + [d] + Join(fs[3..], d);
    assert Join(fs[1..], d) == fs[1] + [d] + Join(fs[2..], d);
  }
}
