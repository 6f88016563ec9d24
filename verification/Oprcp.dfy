/**
 The remote-control protocol: a checked six-byte packet, burst deduplication, the translation of
 a command frame to a UI event, and what the undo bit of a frame takes back.
 */
module Oprcp {
  import opened Wrappers
  import opened Fencing
  import opened UiEvents
  import opened Passivity
  import opened Match
  import opened Crc

  const UNDO := 0x80_0000

  datatype Fields = Fields(cls: nat, undo: bool, cycle: bool, cmd: nat, side: nat)

  function FieldsOf(frame: nat): Fields {
    Fields(frame / 0x100_0000 % 0x100, frame / 0x80_0000 % 2 == 1, frame / 0x40_0000 % 2 == 1,
           frame / 0x1_0000 % 0x40, frame / 0x100 % 0x100)
  }

  function BySide(side: nat, left: nat, right: nat): nat {
    if side == 1 then EVENT_UI_INPUT + left else if side == 2 then EVENT_UI_INPUT + right else 0
  }

  /** The UI event word for a frame; 0 for what is not implemented or not recognised. */
  function Translate(f: Fields): nat {
    match f.cls
    case 0x01 =>
      if f.cmd != 0 then 0
      else if f.cycle then EVENT_UI_INPUT + UI_INPUT_TOGGLE_TIMER
      else EVENT_UI_INPUT + (if f.undo then UI_INPUT_STOP_TIMER else UI_INPUT_START_TIMER)
    case 0x02 =>
      if f.cmd != 0 then 0
      else if f.undo then BySide(f.side, UI_INPUT_DECR_SCORE_LEFT, UI_INPUT_DECR_SCORE_RIGHT)
      else BySide(f.side, UI_INPUT_INCR_SCORE_LEFT, UI_INPUT_INCR_SCORE_RIGHT)
    case 0x03 => Card(f)
    case 0x04 =>
      (match f.cmd
       case 0x00 => if f.undo then 0 else EVENT_UI_INPUT + UI_NEXT_PERIOD
       case 0x01 => EVENT_UI_INPUT + UI_INPUT_RESET
       case 0x02 => EVENT_UI_INPUT + UI_INPUT_PRIO
       case 0x03 => EVENT_UI_INPUT + UI_INPUT_PRIO
       case 0x04 => EVENT_UI_INPUT + UI_INPUT_PRIO
       case _ => 0)
    case 0x06 =>
      (match f.cmd
       case 0x00 => EVENT_UI_INPUT + UI_INPUT_CYRANO_BEGIN
       case 0x01 => EVENT_UI_INPUT + UI_INPUT_CYRANO_END
       case 0x02 => EVENT_UI_INPUT + (if f.undo then UI_INPUT_CYRANO_PREV else UI_INPUT_CYRANO_NEXT)
       case 0x03 => BySide(f.side, UI_RESERVE_LEFT, UI_RESERVE_RIGHT)
       case 0x04 => EVENT_UI_INPUT + UI_SWAP_FENCERS
       case _ => 0)
    case 0x08 => if f.cmd == 0 && f.cycle then EVENT_UI_INPUT + UI_INPUT_CYCLE_WEAPON else 0
    case _ => 0
  }

  function Card(f: Fields): nat {
    match f.cmd
    case 0x00 =>
      if f.undo then BySide(f.side, UI_INPUT_YELLOW_CARD_LEFT_DECR, UI_INPUT_YELLOW_CARD_RIGHT_DECR)
      else BySide(f.side, UI_INPUT_YELLOW_CARD_LEFT, UI_INPUT_YELLOW_CARD_RIGHT)
    case 0x01 =>
      if f.undo then BySide(f.side, UI_INPUT_RED_CARD_LEFT_DECR, UI_INPUT_RED_CARD_RIGHT_DECR)
      else BySide(f.side, UI_INPUT_RED_CARD_LEFT, UI_INPUT_RED_CARD_RIGHT)
    case 0x02 =>
      if f.undo then BySide(f.side, UI_INPUT_BLACK_CARD_LEFT_DECR, UI_INPUT_BLACK_CARD_RIGHT_DECR)
      else BySide(f.side, UI_INPUT_BLACK_CARD_LEFT, UI_INPUT_BLACK_CARD_RIGHT)
    case 0x04 => EVENT_UI_INPUT + (if f.undo then UI_INPUT_P_CARD_UNDO else UI_INPUT_P_CARD)
    case 0x05 =>
      if f.undo then BySide(f.side, UI_INPUT_BLACK_PCARD_LEFT_DECR, UI_INPUT_BLACK_PCARD_RIGHT_DECR)
      else BySide(f.side, UI_INPUT_BLACK_PCARD_LEFT, UI_INPUT_BLACK_PCARD_RIGHT)
    case 0x06 => EVENT_UI_INPUT + (if f.undo then UI_INPUT_RESTORE_UW2F_TIMER else UI_INPUT_BUZZ)
    case _ => 0
  }

  // ---- Packets ----

  const WINDOW := 500

  datatype Dedup = Dedup(frame: nat, seqNr: nat, at: nat)

  /** The receiver before its first packet. */
  const Boot := Dedup(0, 0xff, 0)

  type Packet = seq<bv8>

  predicate Wellformed(p: Packet) {
    |p| == 6 && Crc8(AllBits(p[..5])) == Bits(p[5])
  }

  function FrameOf(p: Packet): nat
    requires |p| == 6
  {
    p[0] as nat * 0x100_0000 + p[1] as nat * 0x1_0000 + p[2] as nat * 0x100 + p[3] as nat
  }

  /** A copy of the last accepted packet, less than half a second after it on the 32-bit clock. */
  predicate Copy(d: Dedup, p: Packet, now: nat)
    requires |p| == 6
  {
    FrameOf(p) == d.frame && p[4] as nat == d.seqNr && (now - d.at) % WORD < WINDOW
  }

  predicate Accepted(d: Dedup, p: Packet, now: nat) { Wellformed(p) && !Copy(d, p, now) }

  function AfterPacket(d: Dedup, p: Packet, now: nat): Dedup {
    if Accepted(d, p, now) then Dedup(FrameOf(p), p[4] as nat, now % WORD) else d
  }

  /** What the packet makes the receiver send to the match machine. */
  function EventOf(d: Dedup, p: Packet, now: nat): Option<nat> {
    if !Accepted(d, p, now) || FrameOf(p) / 0x100_0000 == 0x07 || Translate(FieldsOf(FrameOf(p))) == 0 then None
    else Some(Translate(FieldsOf(FrameOf(p))))
  }

  class OprcpReceiver {
    var dedupFrame: nat
    var dedupSeq: nat
    var dedupMs: nat

    ghost function View(): Dedup
      reads this
    {
      Dedup(dedupFrame, dedupSeq, dedupMs)
    }

    constructor ()
      ensures View() == Boot
    {
      dedupFrame, dedupSeq, dedupMs := 0, 0xff, 0;
    }

    method ProcessPacket(p: Packet, now: nat) returns (event: Option<nat>)
      modifies this
      ensures View() == AfterPacket(old(View()), p, now) && event == EventOf(old(View()), p, now)
    {
      if |p| != 6 {
        return None;
      }
      var crc := Crc8Smbus(p, 5);
      BitsAreTheByte(crc, p[5]);
      if crc != p[5] {
        return None;
      }
      var frame := FrameOf(p);
      var seqNr := p[4] as nat;
      if frame == dedupFrame && seqNr == dedupSeq && (now - dedupMs) % WORD < WINDOW {
        return None;
      }
      dedupFrame, dedupSeq, dedupMs := frame, seqNr, now % WORD;
      if frame / 0x100_0000 == 0x07 {
        return None;
      }
      var word := Translate(FieldsOf(frame));
      if word == 0 {
        return None;
      }
      return Some(word);
    }
  }

  /** A six-byte packet that left the sender intact and arrives with exactly one wrong byte, or with an
      odd number of wrong bits, is discarded: no event, no change of the receiver. */
  lemma CorruptPacketIsDropped(d: Dedup, sent: Packet, got: Packet, now: nat)
    requires Wellformed(sent) && |got| == 6 && Corrupted(AllBits(sent), AllBits(got))
    ensures EventOf(d, got, now) == None && AfterPacket(d, got, now) == d
  {
    CorruptionShows(AllBits(sent), AllBits(got));
    assert AllBits(sent) == AllBits(sent[..5]) + [Bits(sent[5])];
    assert AllBits(got) == AllBits(got[..5]) + [Bits(got[5])];
    ZeroRemainder(AllBits(sent[..5]), Bits(sent[5]));
    ZeroRemainder(AllBits(got[..5]), Bits(got[5]));
  }

  datatype Arrival = Arrival(packet: Packet, at: nat)

  function DedupAt(d: Dedup, arrivals: seq<Arrival>, n: nat): Dedup
    requires n <= |arrivals|
  {
    if n == 0 then d else AfterPacket(DedupAt(d, arrivals, n - 1), arrivals[n - 1].packet, arrivals[n - 1].at)
  }

  lemma CopyIsDropped(d: Dedup, p: Packet, first: nat, now: nat)
    requires |p| == 6 && d == Dedup(FrameOf(p), p[4] as nat, first % WORD) && first <= now < first + WINDOW
    ensures AfterPacket(d, p, now) == d && EventOf(d, p, now) == None
  {
    WindowOpen(first, now);
    assert Copy(d, p, now);
  }

  /** A burst of copies, all within half a second of the first, fires at most once, on the first copy
      that arrives: later copies neither fire nor extend the window. */
  lemma {:induction false} BurstFiresOnce(d: Dedup, burst: seq<Arrival>, n: nat)
    requires 0 < n < |burst| && Accepted(d, burst[0].packet, burst[0].at)
    requires forall i: nat | i < |burst| :: burst[i].packet == burst[0].packet
    requires forall i: nat | i < |burst| :: burst[0].at <= burst[i].at < burst[0].at + WINDOW
    ensures EventOf(DedupAt(d, burst, n), burst[n].packet, burst[n].at) == None
    ensures DedupAt(d, burst, n + 1) == AfterPacket(d, burst[0].packet, burst[0].at)
  {
    var first := burst[0];
    if n == 1 {
      assert DedupAt(d, burst, 0) == d;
    } else {
      BurstFiresOnce(d, burst, n - 1);
    }
    CopyIsDropped(AfterPacket(d, first.packet, first.at), first.packet, first.at, burst[n].at);
  }

  lemma WindowOpen(start: nat, now: nat)
    requires start <= now < start + WINDOW
    ensures (now - start % WORD) % WORD < WINDOW
  {
    var k := start / WORD;
    assert now - start % WORD == (now - start) + k * WORD;
    ModAdds(now - start, k);
  }

  lemma {:induction false} ModAdds(x: nat, k: nat)
    ensures (x + k * WORD) % WORD == x % WORD
  {
    if k > 0 {
      ModAdds(x, k - 1);
      assert x + k * WORD == (x + (k - 1) * WORD) + WORD;
    }
  }

  // ---- Undo ----

  /** A machine that is told a frame. */
  function Told(m: Match, frame: nat, now: int): Match {
    var word := Translate(FieldsOf(frame));
    if word == 0 then m else Step(m, Timed(UiWord(word), now))
  }

  function UndoOf(k: Key): Key {
    match k
    case IncrScore => DecrScore
    case Yellow => YellowUndo
    case RedCard => RedCardUndo
    case Black => BlackUndo
    case BlackPCard => BlackPCardUndo
    case _ => k
  }

  predicate Forward(k: Key) { k in {IncrScore, Yellow, RedCard, Black, BlackPCard} }

  /** The key of a frame of the classes SCORE and CARD that has an undo twin. */
  function KeyOf(f: Fields): Option<Ui> {
    if f.cls == 0x03 && f.cmd == 0x04 then Some(PCard)
    else if f.side != 1 && f.side != 2 then None
    else
      var s := if f.side == 1 then Left else Right;
      if f.cls == 0x02 && f.cmd == 0 then Some(SideKey(s, IncrScore))
      else if f.cls != 0x03 then None
      else if f.cmd == 0x00 then Some(SideKey(s, Yellow))
      else if f.cmd == 0x01 then Some(SideKey(s, RedCard))
      else if f.cmd == 0x02 then Some(SideKey(s, Black))
      else if f.cmd == 0x05 then Some(SideKey(s, BlackPCard))
      else None
  }

  function UndoUi(u: Ui): Ui {
    match u
    case SideKey(s, k) => SideKey(s, UndoOf(k))
    case PCard => PCardUndo
    case _ => u
  }

  lemma TwinClass(frame: nat)
    requires frame / 0x80_0000 % 2 == 0
    ensures (frame + UNDO) / 0x100_0000 == frame / 0x100_0000 && (frame + UNDO) / 0x80_0000 % 2 == 1
  {
  }

  lemma TwinCycle(frame: nat)
    ensures (frame + UNDO) / 0x40_0000 % 2 == frame / 0x40_0000 % 2
  {
  }

  lemma TwinCommand(frame: nat)
    ensures (frame + UNDO) / 0x1_0000 % 0x40 == frame / 0x1_0000 % 0x40
  {
  }

  lemma TwinSide(frame: nat)
    ensures (frame + UNDO) / 0x100 % 0x100 == frame / 0x100 % 0x100
  {
  }

  /** Setting the undo bit changes no other field. */
  lemma TwinFields(frame: nat)
    requires !FieldsOf(frame).undo
    ensures FieldsOf(frame + UNDO) == FieldsOf(frame).(undo := true)
  {
    TwinClass(frame);
    TwinCycle(frame);
    TwinCommand(frame);
    TwinSide(frame);
  }

  /** The words reach the machine as these keys. */
  predicate Reach(word: nat, twin: nat, ui: Ui) {
    && word / DATA * DATA == EVENT_UI_INPUT == twin / DATA * DATA
    && UiOf(word % DATA) == ui && UiOf(twin % DATA) == UndoUi(ui)
  }

  /** A word below the main type is the data of its event. */
  lemma DataOf(w: nat)
    requires w < DATA
    ensures (EVENT_UI_INPUT + w) / DATA * DATA == EVENT_UI_INPUT && (EVENT_UI_INPUT + w) % DATA == w
  {
  }

  lemma KeysReach(w: nat, twin: nat, ui: Ui)
    requires w < DATA && twin < DATA && UiOf(w) == ui && UiOf(twin) == UndoUi(ui)
    ensures Reach(EVENT_UI_INPUT + w, EVENT_UI_INPUT + twin, ui)
  {
    DataOf(w);
    DataOf(twin);
  }

  lemma ScoreTwins(f: Fields)
    requires f.cls == 0x02 && KeyOf(f).Some? && !f.undo
    ensures Reach(Translate(f), Translate(f.(undo := true)), KeyOf(f).value)
  {
    if f.side == 1 {
      KeysReach(UI_INPUT_INCR_SCORE_LEFT, UI_INPUT_DECR_SCORE_LEFT, SideKey(Left, IncrScore));
    } else {
      KeysReach(UI_INPUT_INCR_SCORE_RIGHT, UI_INPUT_DECR_SCORE_RIGHT, SideKey(Right, IncrScore));
    }
  }

  lemma LeftCardTwins(f: Fields)
    requires f.cls == 0x03 && f.side == 1 && f.cmd != 0x04 && KeyOf(f).Some? && !f.undo
    ensures Reach(Translate(f), Translate(f.(undo := true)), KeyOf(f).value)
  {
    if f.cmd == 0x00 {
      KeysReach(UI_INPUT_YELLOW_CARD_LEFT, UI_INPUT_YELLOW_CARD_LEFT_DECR, SideKey(Left, Yellow));
    } else if f.cmd == 0x01 {
      KeysReach(UI_INPUT_RED_CARD_LEFT, UI_INPUT_RED_CARD_LEFT_DECR, SideKey(Left, RedCard));
    } else if f.cmd == 0x02 {
      KeysReach(UI_INPUT_BLACK_CARD_LEFT, UI_INPUT_BLACK_CARD_LEFT_DECR, SideKey(Left, Black));
    } else {
      KeysReach(UI_INPUT_BLACK_PCARD_LEFT, UI_INPUT_BLACK_PCARD_LEFT_DECR, SideKey(Left, BlackPCard));
    }
  }

  lemma RightCardTwins(f: Fields)
    requires f.cls == 0x03 && f.side == 2 && f.cmd != 0x04 && KeyOf(f).Some? && !f.undo
    ensures Reach(Translate(f), Translate(f.(undo := true)), KeyOf(f).value)
  {
    if f.cmd == 0x00 {
      KeysReach(UI_INPUT_YELLOW_CARD_RIGHT, UI_INPUT_YELLOW_CARD_RIGHT_DECR, SideKey(Right, Yellow));
    } else if f.cmd == 0x01 {
      KeysReach(UI_INPUT_RED_CARD_RIGHT, UI_INPUT_RED_CARD_RIGHT_DECR, SideKey(Right, RedCard));
    } else if f.cmd == 0x02 {
      KeysReach(UI_INPUT_BLACK_CARD_RIGHT, UI_INPUT_BLACK_CARD_RIGHT_DECR, SideKey(Right, Black));
    } else {
      KeysReach(UI_INPUT_BLACK_PCARD_RIGHT, UI_INPUT_BLACK_PCARD_RIGHT_DECR, SideKey(Right, BlackPCard));
    }
  }

  /** The frame reaches the machine as its key, and its twin as the undo key. */
  lemma TwinKeys(f: Fields)
    requires KeyOf(f).Some? && !f.undo
    ensures Reach(Translate(f), Translate(f.(undo := true)), KeyOf(f).value)
  {
    if f.cls == 0x02 {
      ScoreTwins(f);
    } else if f.cmd == 0x04 {
      KeysReach(UI_INPUT_P_CARD, UI_INPUT_P_CARD_UNDO, PCard);
    } else if f.side == 1 {
      LeftCardTwins(f);
    } else {
      RightCardTwins(f);
    }
  }

  predicate Plausible(m: Match) {
    && 0 <= m.left.score < WORD && 0 <= m.right.score < WORD && m.left.red >= 0 && m.right.red >= 0
    && m.left.pCard >= 0 && m.right.pCard >= 0 && m.period.round >= 1
  }

  predicate NoCards(m: Match) {
    && m.left.yellow == 0 && m.left.red == 0 && m.left.black == 0
    && m.right.yellow == 0 && m.right.red == 0 && m.right.black == 0
  }

  /** Once the score has been counted, the sabre rule ends the first round of a team match and
      clears the cards of both sides. */
  predicate CardsGo(m: Match) {
    SabreBreakDue(m) && m.period.state == Fighting && m.period.rounds == 9
  }

  /** When the undo twin of a key restores all scores and cards. */
  predicate Undoable(m: Match, s: Side, k: Key) {
    var f := m.Of(s);
    match k
    case IncrScore => f.score < MaxScore(m.period) && (CardsGo(Point(m, s)) ==> NoCards(m))
    case Yellow => if f.red == 0 then f.yellow == 0 else f.yellow != 1
    case RedCard =>
      if CardsGo(Point(m, Other(s))) then NoCards(m) && m.Of(Other(s)).score >= MaxScore(m.period)
      else m.Of(Other(s)).score < MaxScore(m.period)
    case Black => f.black == 0
    case BlackPCard => f.pCard != 4
    case _ => true
  }

  /** The point for the right fencer takes a sabre team match out of its first round. */
  predicate MaxRises(m: Match) {
    SabreBreakDue(Point(m, Right)) && m.period.rounds == 9 && m.period.state in {Fighting, Break}
  }

  /** The same for the P-card of both sides. */
  predicate PCardsUndoable(m: Match) {
    var l, r, max := m.left.pCard, m.right.pCard, MaxScore(m.period);
    if l == 0 || l == 2 then r == l
    else if l == 1 then
      && r == 1 && m.right.score < max && (m.left.score < max || MaxRises(m))
      && (CardsGo(Point(m, Right)) ==> NoCards(m))
    else r >= 2 && !(l == 4 && r == 4)
  }

  predicate SameTally(a: Match, b: Match) { a.left == b.left && a.right == b.right }

  lemma KeyUndone(m: Match, s: Side, k: Key, t1: int, t2: int)
    requires Plausible(m) && Forward(k)
    ensures SameTally(m, KeyPressed(KeyPressed(m, s, k, t1), s, UndoOf(k), t2)) <==> Undoable(m, s, k)
  {
    match k {
      case IncrScore => IncrUndone(m, s, t1, t2);
      case RedCard => RedUndone(m, s, t1, t2);
      case _ =>
    }
  }

  /** What counting a point does to scores and cards. */
  lemma IncrementTally(m: Match, s: Side, now: int)
    ensures var p, i := Point(m, s), Increment(m, s, now);
            SameTally(i, if CardsGo(p) then ClearRoundCards(p) else p)
  {
  }

  lemma IncrUndone(m: Match, s: Side, t1: int, t2: int)
    requires Plausible(m)
    ensures SameTally(m, KeyPressed(KeyPressed(m, s, IncrScore, t1), s, DecrScore, t2)) <==> Undoable(m, s, IncrScore)
  {
    IncrementTally(m, s, t1);
  }

  /** The card shown and the opponent's point counted. */
  function RedPoint(m: Match, s: Side): Match { Point(m.Put(s, m.Of(s).(red := m.Of(s).red + 1)), Other(s)) }

  /** Points do not look at the stopwatch. */
  lemma PointIgnoresWatch(m: Match, w: Recorder, s: Side)
    ensures var p, q := Point(m, s), Point(m.(uw2f := w), s);
            SameTally(p, q) && (CardsGo(p) <==> CardsGo(q)) && SameTally(ClearRoundCards(p), ClearRoundCards(q))
  {
  }

  /** What a red card does to scores and cards. */
  lemma RedTally(m: Match, s: Side, now: int)
    ensures var p := RedPoint(m, s);
            SameTally(KeyPressed(m, s, RedCard, now), if CardsGo(p) then ClearRoundCards(p) else p)
  {
    var carded := m.Put(s, m.Of(s).(red := m.Of(s).red + 1));
    PointIgnoresWatch(carded, m.uw2f.Cleared(now), Other(s));
    IncrementTally(carded.(uw2f := m.uw2f.Cleared(now)), Other(s), now);
  }

  lemma RedPointCards(m: Match, s: Side)
    ensures CardsGo(RedPoint(m, s)) <==> CardsGo(Point(m, Other(s)))
  {
  }

  /** Taking the card back finds it gone with the round's cards. */
  lemma RedGone(m: Match, told: Match, s: Side, t: int)
    requires Plausible(m) && SameTally(told, ClearRoundCards(RedPoint(m, s)))
    ensures SameTally(m, KeyPressed(told, s, RedCardUndo, t)) <==>
            NoCards(m) && m.Of(Other(s)).score >= MaxScore(m.period)
  {
    assert told.Of(s).red == 0;
  }

  lemma RedTaken(m: Match, told: Match, s: Side, t: int)
    requires Plausible(m) && SameTally(told, RedPoint(m, s))
    ensures SameTally(m, KeyPressed(told, s, RedCardUndo, t)) <==> m.Of(Other(s)).score < MaxScore(m.period)
  {
    assert told.Of(s).red == m.Of(s).red + 1;
  }

  lemma RedUndone(m: Match, s: Side, t1: int, t2: int)
    requires Plausible(m)
    ensures SameTally(m, KeyPressed(KeyPressed(m, s, RedCard, t1), s, RedCardUndo, t2)) <==> Undoable(m, s, RedCard)
  {
    var told := KeyPressed(m, s, RedCard, t1);
    RedTally(m, s, t1);
    RedPointCards(m, s);
    if CardsGo(RedPoint(m, s)) {
      RedGone(m, told, s, t2);
    } else {
      RedTaken(m, told, s, t2);
    }
  }

  lemma AddPCardTally(m: Match, s: Side, now: int)
    ensures var f := m.Of(s);
            var t := m.Put(s, f.(pCard := f.pCard + 1));
            var p := Point(t, Other(s));
            SameTally(AddPCard(m, s, now),
                      if f.pCard >= 2 then m else if f.pCard != 1 then t else if CardsGo(p) then ClearRoundCards(p) else p)
  {
    var f := m.Of(s);
    IncrementTally(m.Put(s, f.(pCard := f.pCard + 1)), Other(s), now);
  }

  /** Whether the second of the two points counts, and that it clears no cards. */
  lemma SecondPoint(m: Match, now: int)
    requires Plausible(m) && m.left.pCard == 1 && m.right.pCard == 1 && m.right.score < MaxScore(m.period)
    ensures var l := AddPCard(m, Left, now);
            && (m.left.score < MaxScore(l.period) <==> m.left.score < MaxScore(m.period) || MaxRises(m))
            && (m.left.score < MaxScore(l.period) ==> !CardsGo(Point(l.Put(Right, l.right.(pCard := 2)), Left)))
  {
    AddPCardTally(m, Left, now);
  }

  datatype Tally = Tally(l: Fencer, r: Fencer)

  function TallyOf(m: Match): Tally { Tally(m.left, m.right) }

  /** Taking P-cards back, as far as scores and cards go. */
  function Taken(t: Tally): Tally {
    var l, r := t.l, t.r;
    if l.pCard == 1 then Tally(l.(pCard := 0), r.(pCard := 0))
    else if l.pCard == 2 && r.pCard == 2 then
      Tally(l.(pCard := 1, score := (l.score - 1) % WORD), r.(pCard := 1, score := (r.score - 1) % WORD))
    else if l.pCard == 4 && r.pCard == 4 then Tally(l.(pCard := 2), r.(pCard := 2))
    else t
  }

  lemma TakenTally(m: Match, t1: int, t2: int)
    ensures TallyOf(TakePCards(Act(m, PCard, t1), t2)) == Taken(TallyOf(GivePCards(m, t1)))
  {
    var g := GivePCards(m, t1);
    TakePCardsTally(g.(uw2f := g.uw2f.Call(Reset, t1)), t2);
  }

  lemma TakePCardsTally(m: Match, now: int)
    ensures TallyOf(TakePCards(m, now)) == Taken(TallyOf(m))
  {
  }

  predicate SameCards(a: Fencer, b: Fencer) { a.yellow == b.yellow && a.red == b.red && a.black == b.black }

  /** Two first cards: both sides get their second one, and with it a point. */
  lemma SecondGiven(m: Match, now: int)
    requires Plausible(m) && m.left.pCard == 1 && m.right.pCard == 1
    ensures var g, l, max := GivePCards(m, now), AddPCard(m, Left, now), MaxScore(m.period);
            && g.left.pCard == 2 && g.right.pCard == 2
            && g.right.score == m.right.score + (if m.right.score < max then 1 else 0)
            && g.left.score == m.left.score + (if m.left.score < MaxScore(l.period) then 1 else 0)
            && (m.right.score < max && m.left.score < MaxScore(l.period) ==>
                  (SameCards(g.left, m.left) && SameCards(g.right, m.right) <==> CardsGo(Point(m, Right)) ==> NoCards(m)))
  {
    var l := AddPCard(m, Left, now);
    AddPCardTally(m, Left, now);
    AddPCardTally(l, Right, now);
    if m.right.score < MaxScore(m.period) {
      SecondPoint(m, now);
    }
  }

  lemma SecondPCardsUndone(m: Match, t1: int, t2: int)
    requires Plausible(m) && m.left.pCard == 1 && m.right.pCard == 1
    ensures Taken(TallyOf(GivePCards(m, t1))) == TallyOf(m) <==> PCardsUndoable(m)
  {
    SecondGiven(m, t1);
    if m.right.score < MaxScore(m.period) {
      SecondPoint(m, t1);
    }
    var g := GivePCards(m, t1);
    SecondTaken(g.left, g.right, m.left, m.right);
  }

  lemma SecondTaken(gl: Fencer, gr: Fencer, l: Fencer, r: Fencer)
    requires gl.pCard == 2 && gr.pCard == 2 && l.pCard == 1 && r.pCard == 1
    requires 0 <= l.score < WORD && 0 <= r.score < WORD
    requires l.score <= gl.score <= l.score + 1 && r.score <= gr.score <= r.score + 1
    ensures Taken(Tally(gl, gr)) == Tally(l, r) <==>
            gl.score == l.score + 1 && gr.score == r.score + 1 && SameCards(gl, l) && SameCards(gr, r)
  {
  }

  lemma OtherPCardsUndone(m: Match, t1: int, t2: int)
    requires Plausible(m) && m.left.pCard != 2 && !(m.left.pCard == 1 && m.right.pCard == 1)
    ensures Taken(TallyOf(GivePCards(m, t1))) == TallyOf(m) <==> PCardsUndoable(m)
  {
    var l := AddPCard(m, Left, t1);
    var g := GivePCards(m, t1);
    AddPCardTally(m, Left, t1);
    AddPCardTally(l, Right, t1);
    assert l.right.pCard == m.right.pCard && g.left.pCard == l.left.pCard;
    assert g.right.pCard == m.right.pCard + if m.right.pCard < 2 then 1 else 0;
    assert g.left.pCard == m.left.pCard + if m.left.pCard < 2 then 1 else 0;
    if m.left.pCard > 2 && m.right.pCard >= 2 {
      assert TallyOf(g) == TallyOf(m);
    } else if m.left.pCard == 0 && m.right.pCard == 0 {
      assert TallyOf(g) == Tally(m.left.(pCard := 1), m.right.(pCard := 1));
    } else {
      assert Taken(TallyOf(g)).l.pCard != m.left.pCard || Taken(TallyOf(g)).r.pCard != m.right.pCard;
    }
  }

  lemma PCardUndone(m: Match, t1: int, t2: int)
    requires Plausible(m)
    ensures SameTally(m, TakePCards(Act(m, PCard, t1), t2)) <==> PCardsUndoable(m)
  {
    TakenTally(m, t1, t2);
    if m.left.pCard == 1 && m.right.pCard == 1 {
      SecondPCardsUndone(m, t1, t2);
    } else if m.left.pCard != 2 {
      OtherPCardsUndone(m, t1, t2);
    }
  }

  /** A stopped, unlocked machine obeys a UI word. */
  lemma TellsUi(m: Match, word: nat, now: int)
    requires !m.clock.running && !m.locked && word / DATA * DATA == EVENT_UI_INPUT && UiOf(word % DATA) != ToggleClock
    ensures Step(m, Timed(UiWord(word), now)) == Act(m, UiOf(word % DATA), now)
  {
  }

  lemma IncrementStops(m: Match, s: Side, now: int)
    requires !m.clock.running && !m.locked
    ensures !Increment(m, s, now).clock.running && !Increment(m, s, now).locked
  {
    var p := Point(m, s);
    EndPeriodFrame(p, now);
    assert EndPeriod(p, now).locked == p.locked;
  }

  lemma AddPCardStops(m: Match, s: Side, now: int)
    requires !m.clock.running && !m.locked
    ensures !AddPCard(m, s, now).clock.running && !AddPCard(m, s, now).locked
  {
    var f := m.Of(s);
    IncrementStops(m.Put(s, f.(pCard := f.pCard + 1)), Other(s), now);
  }

  lemma KeyStops(m: Match, s: Side, key: Key, now: int)
    requires !m.clock.running && !m.locked
    ensures !KeyPressed(m, s, key, now).clock.running && !KeyPressed(m, s, key, now).locked
  {
    IncrementStops(m, s, now);
    IncrementStops(m.Put(s, m.Of(s).(red := m.Of(s).red + 1)).(uw2f := m.uw2f.Cleared(now)), Other(s), now);
  }

  lemma GivePCardsStops(m: Match, now: int)
    requires !m.clock.running && !m.locked
    ensures !GivePCards(m, now).clock.running && !GivePCards(m, now).locked
  {
    AddPCardStops(m, Left, now);
    AddPCardStops(AddPCard(m, Left, now), Right, now);
  }

  lemma StaysStopped(m: Match, ui: Ui, now: int)
    requires !m.clock.running && !m.locked && (ui == PCard || (ui.SideKey? && Forward(ui.key)))
    ensures !Act(m, ui, now).clock.running && !Act(m, ui, now).locked
  {
    match ui {
      case SideKey(s, k) => KeyStops(m, s, k, now);
      case _ => GivePCardsStops(m, now);
    }
  }

  /** For every score and card frame without the undo bit, telling it and then its undo twin to a
      stopped, unlocked machine restores all scores and cards exactly when the frame is undoable. */
  lemma UndoTwin(m: Match, frame: nat, t1: int, t2: int)
    requires Plausible(m) && !m.clock.running && !m.locked
    requires !FieldsOf(frame).undo && KeyOf(FieldsOf(frame)).Some?
    ensures SameTally(m, Told(Told(m, frame, t1), frame + UNDO, t2)) <==>
            match KeyOf(FieldsOf(frame)).value
            case SideKey(s, k) => Undoable(m, s, k)
            case _ => PCardsUndoable(m)
  {
    var ui := KeyOf(FieldsOf(frame)).value;
    TwinFields(frame);
    TwinKeys(FieldsOf(frame));
    TellsUi(m, Translate(FieldsOf(frame)), t1);
    StaysStopped(m, ui, t1);
    var told := Act(m, ui, t1);
    TellsUi(told, Translate(FieldsOf(frame + UNDO)), t2);
    UiUndone(m, ui, t1, t2);
  }

  lemma UiUndone(m: Match, ui: Ui, t1: int, t2: int)
    requires Plausible(m) && (ui == PCard || (ui.SideKey? && Forward(ui.key)))
    ensures SameTally(m, Act(Act(m, ui, t1), UndoUi(ui), t2)) <==>
            match ui case SideKey(s, k) => Undoable(m, s, k) case _ => PCardsUndoable(m)
  {
    match ui {
      case SideKey(s, k) => KeyUndone(m, s, k, t1, t2);
      case _ => PCardUndone(m, t1, t2);
    }
  }
}
