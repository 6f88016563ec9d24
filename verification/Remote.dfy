/**
 What the packets of the remote control make the bout do, from their bytes to the state of the match machine and
 of the piste.
 */
module Remote {
  import opened Wrappers
  import opened Fencing
  import opened BoutClock
  import opened Passivity
  import opened UiEvents
  import opened Match
  import opened MatchLaws
  import opened Oprcp
  import Opp2

  // ---- From bytes to fields ----

  lemma ClassPart(a: nat, b: nat, c: nat, d: nat)
    requires a < 0x100 && b < 0x100 && c < 0x100 && d < 0x100
    ensures (a * 0x100_0000 + b * 0x1_0000 + c * 0x100 + d) / 0x100_0000 == a
  {
  }

  lemma UndoPart(a: nat, b: nat, c: nat, d: nat)
    requires a < 0x100 && b < 0x100 && c < 0x100 && d < 0x100
    ensures (a * 0x100_0000 + b * 0x1_0000 + c * 0x100 + d) / 0x80_0000 % 2 == b / 0x80
  {
    assert (a * 0x100_0000 + b * 0x1_0000 + c * 0x100 + d) / 0x80_0000 == 2 * a + b / 0x80;
  }

  lemma CyclePart(a: nat, b: nat, c: nat, d: nat)
    requires a < 0x100 && b < 0x100 && c < 0x100 && d < 0x100
    ensures (a * 0x100_0000 + b * 0x1_0000 + c * 0x100 + d) / 0x40_0000 % 2 == b / 0x40 % 2
  {
    assert (a * 0x100_0000 + b * 0x1_0000 + c * 0x100 + d) / 0x40_0000 == 4 * a + b / 0x40;
  }

  lemma CommandPart(a: nat, b: nat, c: nat, d: nat)
    requires a < 0x100 && b < 0x100 && c < 0x100 && d < 0x100
    ensures (a * 0x100_0000 + b * 0x1_0000 + c * 0x100 + d) / 0x1_0000 % 0x40 == b % 0x40
  {
    assert (a * 0x100_0000 + b * 0x1_0000 + c * 0x100 + d) / 0x1_0000 == 0x100 * a + b;
  }

  lemma SidePart(a: nat, b: nat, c: nat, d: nat)
    requires a < 0x100 && b < 0x100 && c < 0x100 && d < 0x100
    ensures (a * 0x100_0000 + b * 0x1_0000 + c * 0x100 + d) / 0x100 % 0x100 == c
  {
    assert (a * 0x100_0000 + b * 0x1_0000 + c * 0x100 + d) / 0x100 == 0x100 * (0x100 * a + b) + c;
  }

  /** The fields by the first three bytes of a packet: the class is the first one, the undo and cycle bits and the
      command are in the second, and the side is the third. */
  function Read(a: nat, b: nat, c: nat): Fields { Fields(a, b / 0x80 == 1, b / 0x40 % 2 == 1, b % 0x40, c) }

  lemma FrameRead(frame: nat, a: nat, b: nat, c: nat, d: nat)
    requires a < 0x100 && b < 0x100 && c < 0x100 && d < 0x100 && frame == a * 0x100_0000 + b * 0x1_0000 + c * 0x100 + d
    ensures FieldsOf(frame) == Read(a, b, c) && frame / 0x100_0000 == a
  {
    ClassPart(a, b, c, d);
    UndoPart(a, b, c, d);
    CyclePart(a, b, c, d);
    CommandPart(a, b, c, d);
    SidePart(a, b, c, d);
  }

  lemma ByteBelow(b: bv8)
    ensures b as nat < 0x100
  {
  }

  lemma FrameIs(p: Packet, a: nat, b: nat, c: nat, d: nat)
    requires |p| == 6 && a == p[0] as nat && b == p[1] as nat && c == p[2] as nat && d == p[3] as nat
    ensures FrameOf(p) == a * 0x100_0000 + b * 0x1_0000 + c * 0x100 + d
    ensures a < 0x100 && b < 0x100 && c < 0x100 && d < 0x100
  {
    ByteBelow(p[0]);
    ByteBelow(p[1]);
    ByteBelow(p[2]);
    ByteBelow(p[3]);
  }

  lemma FrameBytes(p: Packet, a: nat, b: nat, c: nat)
    requires |p| == 6 && a == p[0] as nat && b == p[1] as nat && c == p[2] as nat
    ensures FieldsOf(FrameOf(p)) == Read(a, b, c) && FrameOf(p) / 0x100_0000 == a
  {
    var frame, d := FrameOf(p), p[3] as nat;
    FrameIs(p, a, b, c, d);
    FrameRead(frame, a, b, c, d);
  }

  /** The match machine once it is told the word of a frame. */
  function Heard(m: Match, f: Fields, now: int): Match {
    if Translate(f) == 0 then m else Step(m, Timed(UiWord(Translate(f)), now))
  }

  /** The match machine after a packet has arrived. */
  function AfterArrival(m: Match, d: Dedup, p: Packet, ms: nat, now: int): Match {
    match EventOf(d, p, ms)
    case Some(word) => Step(m, Timed(UiWord(word), now))
    case None => m
  }

  /** An accepted packet tells the match machine what its bytes say. */
  lemma PacketIsHeard(m: Match, d: Dedup, p: Packet, ms: nat, now: int)
    requires Accepted(d, p, ms)
    ensures AfterArrival(m, d, p, ms, now) == Heard(m, Read(p[0] as nat, p[1] as nat, p[2] as nat), now)
  {
    FrameBytes(p, p[0] as nat, p[1] as nat, p[2] as nat);
    SystemIsSilent(FieldsOf(FrameOf(p)));
  }

  lemma SystemIsSilent(f: Fields)
    ensures f.cls == 7 ==> Translate(f) == 0
  {
  }

  // ---- Clock and match ----

  lemma WordReaches(data: nat, ui: Ui)
    requires 0 < data < DATA && UiOf(data) == ui
    ensures var word := EVENT_UI_INPUT + data; word / DATA * DATA == EVENT_UI_INPUT && UiOf(word % DATA) == ui
  {
    DataOf(data);
  }

  /** Class 1, command 0: the clock starts, stops with the undo bit, and toggles with the cycle bit. */
  lemma ClockFrames(m: Match, f: Fields, now: int)
    requires f.cls == 1 && f.cmd == 0 && !m.locked
    ensures Heard(m, f, now).clock.running ==
            if f.cycle then !m.clock.running && m.period.state != MatchEnded
            else if f.undo then false
            else m.clock.running || m.period.state != MatchEnded
  {
    if f.cycle {
      WordReaches(UI_INPUT_TOGGLE_TIMER, ToggleClock);
    } else if f.undo {
      WordReaches(UI_INPUT_STOP_TIMER, StopClock);
    } else {
      WordReaches(UI_INPUT_START_TIMER, StartClock);
    }
    ClockKeys(m, Translate(f), now);
  }

  /** Class 4, command 0: the next period, and nothing with the undo bit. */
  lemma NextPeriodFrames(m: Match, f: Fields, now: int)
    requires f.cls == 4 && f.cmd == 0
    requires !m.locked && !m.clock.running && m.period.state in {Fighting, Break, AdditionalMinute}
    ensures var e := Heard(m, f, now);
            if f.undo then e == m else Follows(m.period, e) && e.period != m.period
  {
    if !f.undo {
      WordReaches(UI_NEXT_PERIOD, NextPeriod);
      TellsUi(m, Translate(f), now);
      EndFollows(m, now);
    }
  }

  /** Class 4, command 1: a new match, also of a locked machine. */
  lemma ResetFrames(m: Match, f: Fields, now: int)
    requires f.cls == 4 && f.cmd == 1 && (m.locked || !m.clock.running)
    ensures Renewed(m, Heard(m, f, now), now)
  {
    WordReaches(UI_INPUT_RESET, ResetMatch);
    ResetIsFresh(m, Translate(f), now);
  }

  /** Class 4, commands 2 to 4: a priority, or none if there was one. */
  lemma PriorityFrames(m: Match, f: Fields, now: int)
    requires f.cls == 4 && f.cmd in {2, 3, 4} && !m.locked && !m.clock.running
    ensures var e := Heard(m, f, now);
            (e.priority == NoPrio <==> m.priority != NoPrio) && e == m.(priority := e.priority)
  {
    WordReaches(UI_INPUT_PRIO, Prio);
    TellsUi(m, Translate(f), now);
  }

  // ---- Scores and cards ----

  function SideOf(f: Fields): Side { if f.side == 1 then Left else Right }

  lemma ScoreWord(f: Fields)
    requires f.cls == 2 && f.cmd == 0 && (f.side == 1 || f.side == 2)
    ensures var word := Translate(f);
            && word / DATA * DATA == EVENT_UI_INPUT
            && UiOf(word % DATA) == SideKey(SideOf(f), if f.undo then DecrScore else IncrScore)
  {
    TwinKeys(f.(undo := false));
    assert f == f.(undo := false) || f == f.(undo := false).(undo := true);
  }

  /** Class 2, command 0: a point for the side, and taken back with the undo bit. */
  lemma ScoreFrames(m: Match, f: Fields, now: int)
    requires f.cls == 2 && f.cmd == 0 && (f.side == 1 || f.side == 2)
    requires !m.locked && !m.clock.running
    ensures var e, s := Heard(m, f, now), SideOf(f);
            && e.Of(Other(s)).score == m.Of(Other(s)).score
            && e.Of(s).score == if !f.undo then OneMore(m.Of(s).score, MaxScore(m.period))
                                else if m.Of(s).score == 0 then 0 else OneLess(m.Of(s).score)
  {
    var s := SideOf(f);
    ScoreWord(f);
    TellsUi(m, Translate(f), now);
    KeyScores(m, s, if f.undo then DecrScore else IncrScore, now);
  }

  /** What a card of the command, shown or taken back, makes of the cards of its side. */
  predicate CardShown(cmd: nat, undo: bool, f: Fencer, g: Fencer) {
    match cmd
    case 0 => g == f.(yellow := if undo then (if f.yellow == 1 then 0 else f.yellow) else if f.red == 0 then 1 else f.yellow)
    case 1 => g == f.(red := if !undo then f.red + 1 else if f.red != 0 then f.red - 1 else f.red)
    case 2 => g == f.(black := if undo then 0 else 1)
    case _ => g == f.(pCard := if !undo && f.pCard == 2 then 4 else if undo && f.pCard == 4 then 2 else f.pCard)
  }

  /** The commands of class 3 in the order of the protocol: yellow, red, black, and the black P-card. */
  function KeyOfCard(cmd: nat, undo: bool): Key
    requires cmd in {0, 1, 2, 5}
  {
    match cmd
    case 0 => if undo then YellowUndo else Yellow
    case 1 => if undo then RedCardUndo else RedCard
    case 2 => if undo then BlackUndo else Black
    case _ => if undo then BlackPCardUndo else BlackPCard
  }

  lemma CardWord(f: Fields)
    requires f.cls == 3 && f.cmd in {0, 1, 2, 5} && (f.side == 1 || f.side == 2)
    ensures var word := Translate(f);
            && word / DATA * DATA == EVENT_UI_INPUT
            && UiOf(word % DATA) == SideKey(SideOf(f), KeyOfCard(f.cmd, f.undo))
  {
    TwinKeys(f.(undo := false));
    assert f == f.(undo := false) || f == f.(undo := false).(undo := true);
  }

  /** Class 3, commands 0, 1, 2 and 5: yellow, red, black and black P-card of the side, shown or taken back; the
      point that a red card gives may end a round of a team match and clear the cards instead. */
  lemma CardFrames(m: Match, f: Fields, now: int)
    requires f.cls == 3 && f.cmd in {0, 1, 2, 5} && (f.side == 1 || f.side == 2)
    requires !m.locked && !m.clock.running
    ensures var e, s := Heard(m, f, now), SideOf(f);
            && (e.period == m.period ==> CardShown(f.cmd, f.undo, m.Of(s), e.Of(s)))
            && (e.period != m.period ==> f.cmd == 1 && !f.undo)
  {
    var s := SideOf(f);
    var key := KeyOfCard(f.cmd, f.undo);
    CardWord(f);
    TellsUi(m, Translate(f), now);
    if key == RedCard {
      RedCardCounts(m, s, now);
    } else {
      OtherKeysPeriod(m, s, key, now);
      CardKeys(m, s, key, now);
      OtherKeyScores(m, s, key, now);
    }
  }

  /** Class 3, command 6: the undo bit restores the passivity time; without it the match machine does nothing. */
  lemma PassivityFrames(m: Match, f: Fields, now: int)
    requires f.cls == 3 && f.cmd == 6 && !m.locked && !m.clock.running
    ensures Heard(m, f, now) == if f.undo then m.(uw2f := m.uw2f.Restored(now)) else m
  {
    if f.undo {
      WordReaches(UI_INPUT_RESTORE_UW2F_TIMER, RestorePassivity);
    } else {
      WordReaches(UI_INPUT_BUZZ, NoAction);
    }
    TellsUi(m, Translate(f), now);
  }

  // ---- Buttons of the piste ----

  /** What the piste handler does at a word of the remote control. */
  function ButtonOf(data: nat): Opp2.Button {
    if data == UI_SWAP_FENCERS then Opp2.Swap
    else if data == UI_INPUT_RESET then Opp2.ReleaseLock
    else if data == UI_INPUT_CYRANO_NEXT then Opp2.NextMatch
    else if data == UI_INPUT_CYRANO_PREV then Opp2.PrevMatch
    else if data == UI_INPUT_CYRANO_BEGIN then Opp2.Begin
    else if data == UI_INPUT_CYRANO_END then Opp2.End
    else Opp2.OtherButton
  }

  /** Class 6 presses the buttons of the competition and nothing of the match machine; the reset of class 4 also
      releases the protocol lock; no other frame is a button. */
  lemma CompetitionFrames(f: Fields)
    ensures var data := Translate(f) % DATA;
            && (f.cls == 6 ==> UiOf(data) == NoAction)
            && ButtonOf(data) ==
               if f.cls == 6 && f.cmd == 0 then Opp2.Begin
               else if f.cls == 6 && f.cmd == 1 then Opp2.End
               else if f.cls == 6 && f.cmd == 2 then (if f.undo then Opp2.PrevMatch else Opp2.NextMatch)
               else if f.cls == 6 && f.cmd == 4 then Opp2.Swap
               else if f.cls == 4 && f.cmd == 1 then Opp2.ReleaseLock
               else Opp2.OtherButton
  {
  }

  /** Class 8, command 0 with the cycle bit: the next weapon; four such packets come back to the first. */
  lemma WeaponFrames(m: Match, f: Fields, now: int)
    requires f.cls == 8 && f.cmd == 0 && f.cycle && !m.locked && !m.clock.running
    ensures var e := Heard(m, f, now); e == m.(weapon := e.weapon) && e.weapon != m.weapon
    ensures Heard(Heard(Heard(Heard(m, f, now), f, now), f, now), f, now) == m
  {
    WordReaches(UI_INPUT_CYCLE_WEAPON, CycleWeapon);
    NextWeapon(m, f, now);
    NextWeapon(Heard(m, f, now), f, now);
    NextWeapon(Heard(Heard(m, f, now), f, now), f, now);
    NextWeapon(Heard(Heard(Heard(m, f, now), f, now), f, now), f, now);
  }

  lemma NextWeapon(m: Match, f: Fields, now: int)
    requires f.cls == 8 && f.cmd == 0 && f.cycle && !m.locked && !m.clock.running
    ensures Heard(m, f, now) == Act(m, CycleWeapon, now)
  {
    WordReaches(UI_INPUT_CYCLE_WEAPON, CycleWeapon);
    TellsUi(m, Translate(f), now);
  }
}
