/**
 What each field of an EFP1.1 message stands for, by its index in the protocol: what the status shows of the
 state, what a DISP message sets in it, and which items the other events touch.
 */
module Opp2Items {
  import opened Fencing
  import opened Efp1
  import opened Opp2State
  import opened Opp2

  // ---- Items ----

  datatype Item = Text(t: string) | Number(n: int) | Mark(on: bool) | Arm(weapon: Weapon) | Kind(matchType: MatchType)
                | Advantage(priority: Priority) | Standing(status: FencerStatus) | Bout(state: ApparatusState) | Time(ms: nat)

  /** The items of a fencer, counted from the first field of the side. */
  predicate OfSide(k: nat) { k <= 8 || k == 11 }

  /** The indices of the fields that stand for an item of the state. */
  predicate Stands(i: nat) {
    i == 2 || 4 <= i <= 7 || 9 <= i <= 13 || (17 <= i <= 28 && OfSide(i - 17)) || (29 <= i <= 40 && OfSide(i - 29))
  }

  /** Those that a DISP message sets: all but the piste, the state of the bout and the standings. */
  predicate Sets(i: nat) { Stands(i) && i != 2 && i != 13 && i != 21 && i != 33 }

  function SideItem(p: Person, c: ScoreSide, l: LightSide, pCards: nat, k: nat): Item
    requires OfSide(k)
  {
    match k
    case 0 => Text(p.id)
    case 1 => Text(p.name)
    case 2 => Text(p.nation)
    case 3 => Number(c.score)
    case 4 => Standing(c.status)
    case 5 => Mark(c.yellowCard)
    case 6 => Number(c.redCards)
    case 7 => Mark(l.onTarget)
    case 8 => Mark(l.white)
    case 11 => Number(pCards)
  }

  function GeneralItem(s: SystemState, i: nat): Item
    requires Stands(i) && i < RIGHT_SIDE
  {
    match i
    case 2 => Text(s.pisteId)
    case 4 => Text(s.info.phase)
    case 5 => Text(s.info.poule)
    case 6 => Number(s.info.matchNum)
    case 7 => Number(s.info.round)
    case 9 => Time(s.clock.timeMs)
    case 10 => Kind(s.info.matchType)
    case 11 => Arm(s.info.weapon)
    case 12 => Advantage(s.score.priority)
    case 13 => Bout(s.apparatus.state)
  }

  function RightItem(s: SystemState, k: nat): Item
    requires OfSide(k)
  {
    SideItem(s.fencers.right.fencer, s.score.right, s.lights.right, s.uw2f.right, k)
  }

  function LeftItem(s: SystemState, k: nat): Item
    requires OfSide(k)
  {
    SideItem(s.fencers.left.fencer, s.score.left, s.lights.left, s.uw2f.left, k)
  }

  /** The item of the state that index `i` stands for. */
  function ItemOf(s: SystemState, i: nat): Item
    requires Stands(i)
  {
    if i < RIGHT_SIDE then GeneralItem(s, i)
    else if i < LEFT_SIDE then RightItem(s, i - RIGHT_SIDE)
    else LeftItem(s, i - LEFT_SIDE)
  }

  /** Counts are kept in bytes, the number of the match in two. */
  function Kept(i: nat, n: int): int { if i == 6 then n % 0x1_0000 else n % 0x100 }

  /** What a text stands for where an item of this kind is expected. */
  function Meant(i: nat, v: string, was: Item): Item {
    match was
    case Text(_) => Text(v)
    case Number(_) => Number(Kept(i, Atoi(v)))
    case Mark(_) => Mark(v == "1")
    case Arm(w) => Arm(if v == "F" then Foil else if v == "E" then Epee else if v == "S" then Sabre else w)
    case Kind(_) => Kind(if v == "T" then Team else Individual)
    case Advantage(_) => Advantage(if v == "L" then PrioLeft else if v == "R" then PrioRight else NoPrio)
    case Time(_) => Time(ClockText(v))
    case Standing(_) =>
      Standing(if v == "V" then Victory else if v == "D" then Defeat else if v == "A" then Abandonment
               else if v == "E" then Exclusion else if v == "DNS" then Dns else Undefined)
    case Bout(_) =>
      Bout(if v == "F" then FENCING else if v == "H" then HALT else if v == "P" then PAUSE else if v == "E" then ENDING else WAITING)
  }

  // ---- What a DISP message sets ----

  /** The state without what a DISP message can set. */
  function Rest(s: SystemState): SystemState {
    var nobody, dark := Person(false, "", "", ""), LightSide(false, false);
    s.(fencers := s.fencers.(left := s.fencers.left.(fencer := nobody), right := s.fencers.right.(fencer := nobody)),
       score := s.score.(left := s.score.left.(score := 0, yellowCard := false, redCards := 0),
                         right := s.score.right.(score := 0, yellowCard := false, redCards := 0), priority := NoPrio),
       info := s.info.(weapon := Foil, round := 0, phase := "", poule := "", matchNum := 0, matchType := Individual),
       clock := s.clock.(timeMs := 0), uw2f := s.uw2f.(left := 0, right := 0),
       lights := s.lights.(left := dark, right := dark))
  }

  /** What the text of a field makes of an item. */
  function Given(i: nat, v: string, was: Item): Item { if v == "" then was else Meant(i, v, was) }

  lemma InfoDisplayed(s: SystemState, m: Msg, i: nat)
    requires Full(m) && (4 <= i <= 7 || 10 <= i <= 11)
    ensures GeneralItem(s.(info := InfoFrom(s.info, m)), i) == Given(i, Field(m, i), GeneralItem(s, i))
  {
  }

  lemma ClockDisplayed(s: SystemState, m: Msg)
    requires Full(m)
    ensures GeneralItem(Displayed(s, m), 9) == Given(9, Field(m, 9), GeneralItem(s, 9))
  {
  }

  lemma PriorityDisplayed(s: SystemState, m: Msg)
    requires Full(m)
    ensures GeneralItem(Displayed(s, m), 12) == Given(12, Field(m, 12), GeneralItem(s, 12))
  {
  }

  lemma InfoIsDisplayed(s: SystemState, m: Msg, i: nat)
    requires Full(m) && (4 <= i <= 7 || 10 <= i <= 11)
    ensures GeneralItem(Displayed(s, m), i) == GeneralItem(s.(info := InfoFrom(s.info, m)), i)
  {
  }

  lemma GeneralDisplayed(s: SystemState, m: Msg, i: nat)
    requires Full(m) && Sets(i) && i < RIGHT_SIDE
    ensures GeneralItem(Displayed(s, m), i) == Given(i, Field(m, i), GeneralItem(s, i))
  {
    if i == 9 {
      ClockDisplayed(s, m);
    } else if i == 12 {
      PriorityDisplayed(s, m);
    } else {
      InfoDisplayed(s, m, i);
      InfoIsDisplayed(s, m, i);
    }
  }

  /** The person of a side, from the first field of the side on. */
  function PersonAt(p: Person, m: Msg, at: nat): Person
    requires Full(m) && at + FENCER <= MAX_NR_FIELDS
  {
    PersonFrom(p, Field(m, at), Field(m, at + 1), Field(m, at + 2))
  }

  function ScoreAt(c: ScoreSide, m: Msg, at: nat): ScoreSide
    requires Full(m) && at + FENCER <= MAX_NR_FIELDS
  {
    ScoreFrom(c, Field(m, at + 3), Field(m, at + 5), Field(m, at + 6))
  }

  function LightAt(l: LightSide, m: Msg, at: nat): LightSide
    requires Full(m) && at + FENCER <= MAX_NR_FIELDS
  {
    LightFrom(l, Field(m, at + 7), Field(m, at + 8))
  }

  function CardsAt(n: nat, m: Msg, at: nat): nat
    requires Full(m) && at + FENCER <= MAX_NR_FIELDS
  {
    if Field(m, at + 11) != "" then Count(Atoi(Field(m, at + 11))) else n
  }

  lemma PersonDisplayed(p: Person, c: ScoreSide, l: LightSide, n: nat, m: Msg, at: nat, k: nat)
    requires Full(m) && at + FENCER <= MAX_NR_FIELDS && k < 3 && at > 6
    ensures SideItem(PersonAt(p, m, at), c, l, n, k) == Given(at + k, Field(m, at + k), SideItem(p, c, l, n, k))
  {
  }

  lemma ScoreDisplayed(p: Person, c: ScoreSide, l: LightSide, n: nat, m: Msg, at: nat, k: nat)
    requires Full(m) && at + FENCER <= MAX_NR_FIELDS && k in {3, 5, 6} && at > 6
    ensures SideItem(p, ScoreAt(c, m, at), l, n, k) == Given(at + k, Field(m, at + k), SideItem(p, c, l, n, k))
  {
  }

  lemma LightDisplayed(p: Person, c: ScoreSide, l: LightSide, n: nat, m: Msg, at: nat, k: nat)
    requires Full(m) && at + FENCER <= MAX_NR_FIELDS && k in {7, 8, 11} && at > 6
    ensures SideItem(p, c, LightAt(l, m, at), CardsAt(n, m, at), k) == Given(at + k, Field(m, at + k), SideItem(p, c, l, n, k))
  {
  }

  /** Each item of a side looks at its own part of the state. */
  lemma PartOfSide(p: Person, c: ScoreSide, l: LightSide, n: nat, p': Person, c': ScoreSide, l': LightSide, n': nat, k: nat)
    requires OfSide(k)
    ensures SideItem(p, c, l, n, k) == if k < 3 then SideItem(p, c', l', n', k)
                                       else if k <= 6 then SideItem(p', c, l', n', k) else SideItem(p', c', l, n, k)
  {
  }

  lemma SideDisplayed(p: Person, c: ScoreSide, l: LightSide, n: nat, m: Msg, at: nat, k: nat)
    requires Full(m) && at + FENCER <= MAX_NR_FIELDS && OfSide(k) && k != 4 && at > 6
    ensures SideItem(PersonAt(p, m, at), ScoreAt(c, m, at), LightAt(l, m, at), CardsAt(n, m, at), k) ==
            Given(at + k, Field(m, at + k), SideItem(p, c, l, n, k))
  {
    PartOfSide(PersonAt(p, m, at), ScoreAt(c, m, at), LightAt(l, m, at), CardsAt(n, m, at), p, c, l, n, k);
    if k < 3 {
      PersonDisplayed(p, c, l, n, m, at, k);
    } else if k <= 6 {
      ScoreDisplayed(p, c, l, n, m, at, k);
    } else {
      LightDisplayed(p, c, l, n, m, at, k);
    }
  }

  lemma RightDisplayed(s: SystemState, m: Msg, k: nat)
    requires Full(m) && OfSide(k) && k != 4
    ensures RightItem(Displayed(s, m), k) == Given(RIGHT_SIDE + k, Field(m, RIGHT_SIDE + k), RightItem(s, k))
  {
    SidesDisplayed(s, m);
    SideDisplayed(s.fencers.right.fencer, s.score.right, s.lights.right, s.uw2f.right, m, RIGHT_SIDE, k);
  }

  lemma LeftDisplayed(s: SystemState, m: Msg, k: nat)
    requires Full(m) && OfSide(k) && k != 4
    ensures LeftItem(Displayed(s, m), k) == Given(LEFT_SIDE + k, Field(m, LEFT_SIDE + k), LeftItem(s, k))
  {
    SidesDisplayed(s, m);
    SideDisplayed(s.fencers.left.fencer, s.score.left, s.lights.left, s.uw2f.left, m, LEFT_SIDE, k);
  }

  lemma SidesDisplayed(s: SystemState, m: Msg)
    requires Full(m)
    ensures var d := Displayed(s, m);
            && d.fencers.right.fencer == PersonAt(s.fencers.right.fencer, m, RIGHT_SIDE)
            && d.score.right == ScoreAt(s.score.right, m, RIGHT_SIDE)
            && d.lights.right == LightAt(s.lights.right, m, RIGHT_SIDE) && d.uw2f.right == CardsAt(s.uw2f.right, m, RIGHT_SIDE)
            && d.fencers.left.fencer == PersonAt(s.fencers.left.fencer, m, LEFT_SIDE)
            && d.score.left == ScoreAt(s.score.left, m, LEFT_SIDE)
            && d.lights.left == LightAt(s.lights.left, m, LEFT_SIDE) && d.uw2f.left == CardsAt(s.uw2f.left, m, LEFT_SIDE)
  {
  }

  lemma ItemOfSide(s: SystemState, k: nat)
    requires OfSide(k)
    ensures ItemOf(s, RIGHT_SIDE + k) == RightItem(s, k) && ItemOf(s, LEFT_SIDE + k) == LeftItem(s, k)
  {
  }

  lemma SideItemsDisplayed(s: SystemState, m: Msg, k: nat)
    requires Full(m) && OfSide(k) && k != 4
    ensures ItemOf(Displayed(s, m), RIGHT_SIDE + k) == Given(RIGHT_SIDE + k, Field(m, RIGHT_SIDE + k), ItemOf(s, RIGHT_SIDE + k))
    ensures ItemOf(Displayed(s, m), LEFT_SIDE + k) == Given(LEFT_SIDE + k, Field(m, LEFT_SIDE + k), ItemOf(s, LEFT_SIDE + k))
  {
    RightDisplayed(s, m, k);
    LeftDisplayed(s, m, k);
    ItemOfSide(s, k);
    ItemOfSide(Displayed(s, m), k);
  }

  lemma DisplayedItem(s: SystemState, m: Msg, i: nat)
    requires Full(m) && Sets(i)
    ensures ItemOf(Displayed(s, m), i) == Given(i, Field(m, i), ItemOf(s, i))
  {
    if i < RIGHT_SIDE {
      GeneralDisplayed(s, m, i);
    } else {
      SideItemsDisplayed(s, m, if i < LEFT_SIDE then i - RIGHT_SIDE else i - LEFT_SIDE);
    }
  }

  /** Some of the texts that identify the fencer of a side is given. */
  predicate Named(m: Msg, at: nat)
    requires Full(m) && at + 2 < MAX_NR_FIELDS
  {
    Field(m, at) != "" || Field(m, at + 1) != "" || Field(m, at + 2) != ""
  }

  lemma DisplayedRest(s: SystemState, m: Msg)
    requires Full(m)
    ensures var d := Displayed(s, m);
            && Rest(d) == Rest(s)
            && d.fencers.right.fencer.present == (s.fencers.right.fencer.present || Named(m, RIGHT_SIDE))
            && d.fencers.left.fencer.present == (s.fencers.left.fencer.present || Named(m, LEFT_SIDE))
  {
  }

  lemma DispIsDisplayed(h: Handler, m: Msg, verify: bool)
    requires Full(m) && TypeOf(m) == DISP && Addressed(h.core.state, m, verify)
    ensures Step(h, Cyrano(m, verify)).core.state == Displayed(h.core.state, m)
  {
  }

  /** What the message sets, and what it leaves. */
  ghost predicate FieldsTaken(s: SystemState, d: SystemState, m: Msg)
    requires Full(m)
  {
    && (forall i: nat | Sets(i) :: ItemOf(d, i) == Given(i, Field(m, i), ItemOf(s, i)))
    && Rest(d) == Rest(s)
    && d.fencers.right.fencer.present == (s.fencers.right.fencer.present || Named(m, RIGHT_SIDE))
    && d.fencers.left.fencer.present == (s.fencers.left.fencer.present || Named(m, LEFT_SIDE))
  }

  lemma DisplayedTakesFields(s: SystemState, m: Msg)
    requires Full(m)
    ensures FieldsTaken(s, Displayed(s, m), m)
  {
    DisplayedRest(s, m);
    forall i: nat | Sets(i)
      ensures ItemOf(Displayed(s, m), i) == Given(i, Field(m, i), ItemOf(s, i))
    {
      DisplayedItem(s, m, i);
    }
  }

  /** A DISP message for this piste gives each item the value that the text of its own field stands for, keeps
      the items whose fields are empty, and changes nothing else. */
  lemma DispSetsItsFields(h: Handler, m: Msg, verify: bool)
    requires Full(m) && TypeOf(m) == DISP && Addressed(h.core.state, m, verify)
    ensures FieldsTaken(h.core.state, Step(h, Cyrano(m, verify)).core.state, m)
  {
    DispIsDisplayed(h, m, verify);
    DisplayedTakesFields(h.core.state, m);
  }

  /** One field, one item: with only field `i` given, its item takes the new value and no other changes. */
  lemma OneFieldSetsOneItem(h: Handler, m: Msg, verify: bool, i: nat)
    requires Full(m) && TypeOf(m) == DISP && Addressed(h.core.state, m, verify) && Sets(i) && Field(m, i) != ""
    requires forall j: nat | Sets(j) && j != i :: Field(m, j) == ""
    ensures var s, d := h.core.state, Step(h, Cyrano(m, verify)).core.state;
            && ItemOf(d, i) == Meant(i, Field(m, i), ItemOf(s, i))
            && (forall j: nat | Stands(j) && j != i :: ItemOf(d, j) == ItemOf(s, j))
            && Rest(d) == Rest(s)
  {
    DispSetsItsFields(h, m, verify);
    OthersKept(h.core.state, Step(h, Cyrano(m, verify)).core.state, m, i);
  }

  lemma OthersKept(s: SystemState, d: SystemState, m: Msg, i: nat)
    requires Full(m) && FieldsTaken(s, d, m) && forall j: nat | Sets(j) && j != i :: Field(m, j) == ""
    ensures forall j: nat | Stands(j) && j != i :: ItemOf(d, j) == ItemOf(s, j)
  {
    forall j: nat | Stands(j) && j != i
      ensures ItemOf(d, j) == ItemOf(s, j)
    {
      if !Sets(j) {
        RestHolds(s, d, j);
      }
    }
  }

  lemma RestHolds(s: SystemState, d: SystemState, i: nat)
    requires Rest(d) == Rest(s) && Stands(i) && !Sets(i)
    ensures ItemOf(d, i) == ItemOf(s, i)
  {
    assert Rest(s).score.left.status == s.score.left.status && Rest(s).score.right.status == s.score.right.status;
    assert Rest(d).score.left.status == d.score.left.status && Rest(d).score.right.status == d.score.right.status;
  }

  // ---- Numbers in texts ----

  predicate Digits(s: string) { forall i: nat | i < |s| :: '0' <= s[i] <= '9' }

  lemma {:induction false} DigitsContinue(a: string, b: string, acc: nat)
    requires Digits(a)
    ensures DigitsValue(a + b, acc) == DigitsValue(b, DigitsValue(a, acc)) && AfterDigits(a + b) == AfterDigits(b)
    decreases |a|
  {
    if a == "" {
      assert a + b == b;
    } else {
      assert (a + b)[1..] == a[1..] + b;
      DigitsContinue(a[1..], b, acc * 10 + (a[0] as int - '0' as int));
    }
  }

  lemma NumeralIsDigit(n: nat)
    requires n < 10
    ensures '0' <= Numeral(n) <= '9' && Numeral(n) as int - '0' as int == n
  {
    assert n == 0 || n == 1 || n == 2 || n == 3 || n == 4 || n == 5 || n == 6 || n == 7 || n == 8 || n == 9;
  }

  lemma OneDigit(n: nat, acc: nat)
    requires n < 10
    ensures DigitsValue([Numeral(n)], acc) == acc * 10 + n
  {
    NumeralIsDigit(n);
    assert DigitsValue([Numeral(n)][1..], acc * 10 + n) == acc * 10 + n;
  }

  lemma DigitAppended(before: string, n: nat, value: nat)
    requires Digits(before) && DigitsValue(before, 0) == value && n < 10
    ensures Digits(before + [Numeral(n)]) && DigitsValue(before + [Numeral(n)], 0) == value * 10 + n
  {
    NumeralIsDigit(n);
    DigitsContinue(before, [Numeral(n)], 0);
    OneDigit(n, value);
  }

  /** Reading the digits of a number gives the number. */
  lemma {:induction false} DecimalReads(n: nat)
    ensures Digits(Decimal(n)) && Decimal(n) != "" && DigitsValue(Decimal(n), 0) == n
  {
    if n < 10 {
      DigitAppended("", n, 0);
    } else {
      DecimalReads(n / 10);
      DigitAppended(Decimal(n / 10), n % 10, n / 10);
    }
  }

  lemma AtoiReadsDigits(s: string)
    requires Digits(s) && s != ""
    ensures Atoi(s) == DigitsValue(s, 0)
  {
    assert '0' <= s[0] <= '9';
    assert AfterBlanks(s) == s;
  }

  lemma {:induction false} DecimalFits(n: nat, k: nat)
    requires n < Power(k) && k > 0
    ensures |Decimal(n)| <= k
  {
    if n >= 10 {
      DecimalFits(n / 10, k - 1);
    }
  }

  function Power(k: nat): nat { if k == 0 then 1 else 10 * Power(k - 1) }

  /** Numbers of at most seven digits are printed so that they read back. */
  lemma NumberReadsBack(n: nat)
    requires n < 10000000
    ensures Atoi(Cut7(Decimal(n))) == n && Cut7(Decimal(n)) != ""
  {
    assert Power(7) == 10000000;
    DecimalFits(n, 7);
    DecimalReads(n);
    AtoiReadsDigits(Decimal(n));
  }

  lemma TwoDigitsRead(n: nat)
    requires n < 10000
    ensures Digits(TwoDigits(n)) && TwoDigits(n) != "" && DigitsValue(TwoDigits(n), 0) == n
    ensures |TwoDigits(n)| <= 4 && (n < 100 ==> |TwoDigits(n)| == 2)
  {
    DecimalReads(n);
    assert Power(4) == 10000 && Power(2) == 100;
    DecimalFits(n, 4);
    if n < 10 {
      DigitsContinue("0", Decimal(n), 0);
      OneDigit(0, 0);
      assert "0" == [Numeral(0)];
    } else if n < 100 {
      DecimalFits(n, 2);
    }
  }

  lemma NoBlankFirst(s: string, more: string)
    requires Digits(s) && s != ""
    ensures AfterBlanks(s + more) == s + more
  {
    assert '0' <= (s + more)[0] <= '9';
  }

  lemma ColonStops(s: string, acc: nat)
    ensures AfterDigits(":" + s) == ":" + s && DigitsValue(":" + s, acc) == acc && (":" + s)[1..] == s
  {
  }

  /** Minutes and seconds read back as the time they show. */
  lemma MinutesAndSeconds(m: string, s: string)
    requires Digits(m) && m != "" && Digits(s) && s != ""
    ensures ClockText(m + ":" + s) == (DigitsValue(m, 0) * 60000 + DigitsValue(s, 0) * 1000) % 0x1_0000_0000
  {
    var rest := ":" + s;
    assert m + ":" + s == m + rest && |rest| < |m + rest|;
    NoBlankFirst(m, rest);
    DigitsContinue(m, rest, 0);
    ColonStops(s, DigitsValue(m, 0));
    NoBlankFirst(s, "");
    assert s + "" == s;
  }

  /** Clocks below ten thousand minutes show whole seconds that read back. */
  lemma TimeReadsBack(c: Clock)
    requires c.timeMs < 600000000
    ensures ClockText(TimeText(c)) == c.timeMs / 1000 * 1000 && TimeText(c) != ""
  {
    var seconds := c.timeMs / 1000;
    TwoDigitsRead(seconds / 60);
    TwoDigitsRead(seconds % 60);
    MinutesAndSeconds(TwoDigits(seconds / 60), TwoDigits(seconds % 60));
    assert seconds / 60 * 60000 + seconds % 60 * 1000 == seconds * 1000;
  }

  // ---- What the status shows ----

  /** The numbers fit the bytes and words that the state keeps them in, and the clock its text. */
  predicate Counted(s: SystemState) {
    && s.info.matchNum < 0x1_0000 && s.info.round < 0x100 && s.clock.timeMs < 600000000
    && CountedSide(s.score.left, s.uw2f.left) && CountedSide(s.score.right, s.uw2f.right)
  }

  predicate CountedSide(c: ScoreSide, pCards: nat) { c.score < 0x100 && c.redCards < 0x100 && pCards < 0x100 }

  /** What the status shows of an item: nothing of absent persons, whole seconds, foil for an unknown weapon and
      waiting for an unknown state. */
  function Shown(x: Item, present: bool): Item {
    match x
    case Text(t) => Text(if present then t else "")
    case Time(ms) => Time(ms / 1000 * 1000)
    case Arm(w) => Arm(if w == UnknownWeapon then Foil else w)
    case Bout(a) => Bout(if a == UNKNOWN_STATE then WAITING else a)
    case _ => x
  }

  /** Whether the item is one of a person who is there, or of no person. */
  predicate Present(s: SystemState, i: nat) {
    && (RIGHT_SIDE <= i < RIGHT_SIDE + 3 ==> s.fencers.right.fencer.present)
    && (LEFT_SIDE <= i < LEFT_SIDE + 3 ==> s.fencers.left.fencer.present)
  }

  function ShownItem(s: SystemState, i: nat): Item
    requires Stands(i)
  {
    Shown(ItemOf(s, i), Present(s, i))
  }

  /** The text stands for this item; only an empty text shows as one. */
  predicate Tells(i: nat, v: string, was: Item, x: Item) { Meant(i, v, was) == x && (v == "" ==> x == Text("")) }

  lemma NumberTells(i: nat, n: nat)
    requires n < 0x100 && i != 6
    ensures Tells(i, Cut7(Decimal(n)), Number(n), Number(n))
  {
    NumberReadsBack(n);
    assert n % 0x100 == n;
  }

  lemma MatchNumberTells(n: nat)
    requires n < 0x1_0000
    ensures Tells(6, Cut7(Decimal(n)), Number(n), Number(n))
  {
    NumberReadsBack(n);
    assert n % 0x1_0000 == n;
  }

  lemma MarkTells(i: nat, b: bool)
    ensures Tells(i, Flag(b), Mark(b), Mark(b))
  {
  }

  lemma StandingTells(i: nat, st: FencerStatus)
    ensures Tells(i, StatusText(st), Standing(st), Standing(st))
  {
  }

  lemma SideTextsTell(p: Person, c: ScoreSide, l: LightSide, n: nat, at: nat, k: nat)
    requires OfSide(k) && CountedSide(c, n) && at > 6
    ensures var x := SideItem(p, c, l, n, k);
            Tells(at + k, SideFields(p, c, l, n)[k], x, Shown(x, k < 3 ==> p.present))
  {
    match k {
      case 3 => NumberTells(at + k, c.score);
      case 4 => StandingTells(at + k, c.status);
      case 5 => MarkTells(at + k, c.yellowCard);
      case 6 => NumberTells(at + k, c.redCards);
      case 7 => MarkTells(at + k, l.onTarget);
      case 8 => MarkTells(at + k, l.white);
      case 11 => NumberTells(at + k, n);
      case _ =>
    }
  }

  lemma LettersTell(s: SystemState)
    ensures Tells(10, if s.info.matchType == Team then "T" else "I", Kind(s.info.matchType), Kind(s.info.matchType))
    ensures Tells(11, WeaponText(s.info.weapon), Arm(s.info.weapon), Shown(Arm(s.info.weapon), true))
    ensures Tells(12, PriorityText(s.score.priority), Advantage(s.score.priority), Advantage(s.score.priority))
  {
  }

  lemma StateTells(a: ApparatusState)
    ensures Tells(13, StateText(a), Bout(a), Shown(Bout(a), true))
  {
  }

  lemma TimeTells(c: Clock)
    requires c.timeMs < 600000000
    ensures Tells(9, TimeText(c), Time(c.timeMs), Shown(Time(c.timeMs), true))
  {
    TimeReadsBack(c);
  }

  lemma TextsAndLettersTell(s: SystemState, i: nat)
    requires i in {2, 4, 5, 10, 11, 12}
    ensures Tells(i, GeneralFields(s)[i], GeneralItem(s, i), Shown(GeneralItem(s, i), true))
  {
    if i >= 10 {
      LettersTell(s);
    }
  }

  lemma NumbersTell(s: SystemState, i: nat)
    requires i in {6, 7} && Counted(s)
    ensures Tells(i, GeneralFields(s)[i], GeneralItem(s, i), Shown(GeneralItem(s, i), true))
  {
    if i == 6 {
      MatchNumberTells(s.info.matchNum);
    } else {
      NumberTells(7, s.info.round);
    }
  }

  lemma BoutTells(s: SystemState, i: nat)
    requires i in {9, 13} && Counted(s)
    ensures Tells(i, GeneralFields(s)[i], GeneralItem(s, i), Shown(GeneralItem(s, i), true))
  {
    if i == 9 {
      TimeTells(s.clock);
    } else {
      StateTells(s.apparatus.state);
    }
  }

  lemma GeneralTextsTell(s: SystemState, i: nat)
    requires Stands(i) && i < RIGHT_SIDE && Counted(s)
    ensures Tells(i, GeneralFields(s)[i], GeneralItem(s, i), Shown(GeneralItem(s, i), true))
  {
    if i in {6, 7} {
      NumbersTell(s, i);
    } else if i in {9, 13} {
      BoutTells(s, i);
    } else {
      TextsAndLettersTell(s, i);
    }
  }

  lemma SideFieldsConverted(s: SystemState, k: nat)
    requires k < FENCER
    ensures Field(Converted(s), RIGHT_SIDE + k) == SideFields(s.fencers.right.fencer, s.score.right, s.lights.right, s.uw2f.right)[k]
    ensures Field(Converted(s), LEFT_SIDE + k) == SideFields(s.fencers.left.fencer, s.score.left, s.lights.left, s.uw2f.left)[k]
  {
  }

  lemma SideShown(s: SystemState, k: nat)
    requires OfSide(k)
    ensures ShownItem(s, RIGHT_SIDE + k) == Shown(RightItem(s, k), k < 3 ==> s.fencers.right.fencer.present)
    ensures ShownItem(s, LEFT_SIDE + k) == Shown(LeftItem(s, k), k < 3 ==> s.fencers.left.fencer.present)
  {
    ItemOfSide(s, k);
  }

  lemma SidesTell(s: SystemState, k: nat)
    requires OfSide(k) && Counted(s)
    ensures Tells(RIGHT_SIDE + k, Field(Converted(s), RIGHT_SIDE + k), ItemOf(s, RIGHT_SIDE + k), ShownItem(s, RIGHT_SIDE + k))
    ensures Tells(LEFT_SIDE + k, Field(Converted(s), LEFT_SIDE + k), ItemOf(s, LEFT_SIDE + k), ShownItem(s, LEFT_SIDE + k))
  {
    ItemOfSide(s, k);
    SideFieldsConverted(s, k);
    SideShown(s, k);
    SideTextsTell(s.fencers.right.fencer, s.score.right, s.lights.right, s.uw2f.right, RIGHT_SIDE, k);
    SideTextsTell(s.fencers.left.fencer, s.score.left, s.lights.left, s.uw2f.left, LEFT_SIDE, k);
  }

  /** Every field of the status stands for the item of its own index. */
  lemma StatusTells(s: SystemState, i: nat)
    requires Stands(i) && Counted(s)
    ensures Tells(i, Field(Converted(s), i), ItemOf(s, i), ShownItem(s, i))
  {
    if i < RIGHT_SIDE {
      GeneralTextsTell(s, i);
    } else {
      SidesTell(s, if i < LEFT_SIDE then i - RIGHT_SIDE else i - LEFT_SIDE);
    }
  }

  /** What the competition software reads in the cached INFO string: at every index that stands for an item the
      text of the state's own item, beside the command and the competition. */
  lemma InfoTellsTheState(h: Handler)
    requires Current(h) && CleanState(h.core.state) && Clean(h.cache.competitionId) && Counted(h.core.state)
    ensures Areas(h.cache.info) != []
    ensures var s, m := h.core.state, Parse(h.cache.info);
            && (forall i: nat | Stands(i) :: Tells(i, Field(m, i), ItemOf(s, i), ShownItem(s, i)))
            && TypeOf(m) == INFO && Field(m, CompetitionId) == h.cache.competitionId
  {
    CurrentIsPrinted(h);
    WireTellsTheState(h.core.state, h.cache.competitionId);
    WireIsInfo(h.core.state, h.cache.competitionId);
  }

  lemma WireField(s: SystemState, competitionId: string, i: nat)
    requires Stands(i)
    ensures Field(Wire(Converted(s), competitionId), i) == Field(Converted(s), i)
  {
  }

  lemma WireTellsTheState(s: SystemState, competitionId: string)
    requires Counted(s)
    ensures forall i: nat | Stands(i) :: Tells(i, Field(Wire(Converted(s), competitionId), i), ItemOf(s, i), ShownItem(s, i))
  {
    forall i: nat | Stands(i)
      ensures Tells(i, Field(Wire(Converted(s), competitionId), i), ItemOf(s, i), ShownItem(s, i))
    {
      WireField(s, competitionId, i);
      StatusTells(s, i);
    }
  }

  lemma WireIsInfo(s: SystemState, competitionId: string)
    ensures var m := Wire(Converted(s), competitionId); TypeOf(m) == INFO && Field(m, CompetitionId) == competitionId
  {
    assert "INFO"[0] == 'I' && "HELLO"[0] == 'H' && "DISP"[0] == 'D' && "ACK"[0] == 'A' && "NAK"[0] == 'N';
  }

  /** The DISP message that carries a status. */
  function DispOf(status: Msg): Msg
    requires Full(status)
  {
    WithField(status, Command, "DISP")
  }

  lemma DispOfIsDisp(status: Msg)
    requires Full(status)
    ensures Full(DispOf(status)) && TypeOf(DispOf(status)) == DISP
    ensures forall i: nat | Stands(i) :: Field(DispOf(status), i) == Field(status, i)
  {
    assert "DISP"[0] == 'D' && "HELLO"[0] == 'H';
  }

  /** A text stands for the same whatever item of its kind was there, except for a weapon it does not name. */
  lemma SameKind(s: SystemState, other: SystemState, i: nat, v: string)
    requires Sets(i) && (i == 11 ==> v in {"F", "E", "S"})
    ensures Meant(i, v, ItemOf(s, i)) == Meant(i, v, ItemOf(other, i))
  {
  }

  /** The item as another state shows it; empty texts give nothing. */
  function Copied(s: SystemState, other: SystemState, i: nat): Item
    requires Stands(i)
  {
    if ShownItem(other, i) == Text("") then ItemOf(s, i) else ShownItem(other, i)
  }

  lemma OnlyEmptyText(i: nat, v: string, was: Item)
    requires Meant(i, v, was) == Text("")
    ensures v == ""
  {
  }

  lemma StatusIsCopied(s: SystemState, other: SystemState, i: nat)
    requires Sets(i) && Counted(other)
    ensures Given(i, Field(Converted(other), i), ItemOf(s, i)) == Copied(s, other, i)
  {
    var v := Field(Converted(other), i);
    StatusTells(other, i);
    if v != "" {
      if Meant(i, v, ItemOf(other, i)) == Text("") {
        OnlyEmptyText(i, v, ItemOf(other, i));
      }
      SameKind(s, other, i, v);
    }
  }

  lemma CopiedFields(s: SystemState, d: SystemState, other: SystemState, m: Msg)
    requires Full(m) && Counted(other) && forall i: nat | Stands(i) :: Field(m, i) == Field(Converted(other), i)
    requires FieldsTaken(s, d, m)
    ensures forall i: nat | Sets(i) :: ItemOf(d, i) == Copied(s, other, i)
  {
    forall i: nat | Sets(i)
      ensures ItemOf(d, i) == Copied(s, other, i)
    {
      StatusIsCopied(s, other, i);
    }
  }

  lemma DisplayedCopies(s: SystemState, other: SystemState, m: Msg)
    requires Full(m) && Counted(other) && m == DispOf(Converted(other))
    ensures forall i: nat | Sets(i) :: ItemOf(Displayed(s, m), i) == Copied(s, other, i)
    ensures Rest(Displayed(s, m)) == Rest(s)
  {
    DispOfIsDisp(Converted(other));
    DisplayedTakesFields(s, m);
    CopiedFields(s, Displayed(s, m), other, m);
  }

  lemma DispOfIsAddressed(s: SystemState, other: SystemState, verify: bool)
    requires verify ==> other.pisteId == s.pisteId
    ensures var m := DispOf(Converted(other)); Full(m) && TypeOf(m) == DISP && Addressed(s, m, verify)
  {
    var m := DispOf(Converted(other));
    DispOfIsDisp(Converted(other));
    assert Field(m, PisteId) == Field(Converted(other), PisteId) == other.pisteId;
  }

  /** A DISP message with the status of another state makes every item that it sets the one of that state as the
      status shows it, except that empty texts keep what was there; the rest of the state stays. */
  lemma DispCopiesTheStatus(h: Handler, other: SystemState, verify: bool)
    requires Counted(other) && (verify ==> other.pisteId == h.core.state.pisteId)
    ensures Full(DispOf(Converted(other)))
    ensures var s, d := h.core.state, Step(h, Cyrano(DispOf(Converted(other)), verify)).core.state;
            (forall i: nat | Sets(i) :: ItemOf(d, i) == Copied(s, other, i)) && Rest(d) == Rest(s)
  {
    DispOfIsAddressed(h.core.state, other, verify);
    DispIsDisplayed(h, DispOf(Converted(other)), verify);
    DisplayedCopies(h.core.state, other, DispOf(Converted(other)));
  }

  // ---- What the match machine sets ----

  function At(side: Side, k: nat): nat { if side == Left then LEFT_SIDE + k else RIGHT_SIDE + k }

  function Opponent(side: Side): Side { if side == Left then Right else Left }

  /** The item at index `i` after an event of the match machine, `was` before it. */
  function AfterFsm(e: FsmEvent, i: nat, was: Item, waitsOrEnds: bool): Item
    requires Stands(i)
  {
    match e
    case LightsChanged(m) =>
      if i == At(Left, 7) then Mark(Red in m) else if i == At(Left, 8) then Mark(WhiteL in m)
      else if i == At(Right, 7) then Mark(Green in m) else if i == At(Right, 8) then Mark(WhiteR in m) else was
    case WeaponChanged(w) => if i == 11 && w != UnknownWeapon then Arm(w) else was
    case ScoreChanged(side, v) => if i == At(side, 3) then Number(v % 0x100) else was
    case YellowChanged(side, v) => if i == At(side, 5) then Mark(v > 0) else was
    case RedChanged(side, v) => if i == At(side, 6) then Number(v % 0x100) else was
    case BlackChanged(side, v) =>
      if i == At(Opponent(side), 4) then Standing(if v != 0 then Exclusion else Undefined) else was
    case PCardChanged(l, r) =>
      if i == At(Left, 11) then Number(l % 0x100) else if i == At(Right, 11) then Number(r % 0x100) else was
    case PrioChanged(v) =>
      if i == 12 then Advantage(if v == 1 then PrioLeft else if v == 2 then PrioRight else NoPrio) else was
    case RoundChanged(r, n) =>
      if i == 7 then Number(r % 0x100)
      else if i == 10 && n == 9 then Kind(Team) else if i == 10 && n in {1, 2, 3} then Kind(Individual) else was
    case TimerStateChanged(running) =>
      if i == 13 && !waitsOrEnds then Bout(if running then FENCING else HALT) else was
    case TimerShown(m, sec, c, due) =>
      if i == 9 && due then Time((60 * m + sec) * 1000 + (if c > 99 then 0 else 10 * c)) else was
    case PassivityShown(m, sec, c) => was
    case OtherFsmEvent => was
  }

  predicate WaitsOrEnds(s: SystemState) { s.apparatus.state == WAITING || s.apparatus.state == ENDING }

  /** The items that only the score makes. */
  predicate OfScore(i: nat) { i == 12 || At(Right, 3) <= i <= At(Right, 6) || At(Left, 3) <= i <= At(Left, 6) }

  lemma ScoreEventSides(s: SystemState, e: FsmEvent, k: nat)
    requires ScoreEvent(e) && 3 <= k <= 6
    ensures var d, w := s.(score := ScoreTold(s.score, e)), WaitsOrEnds(s);
            && RightItem(d, k) == AfterFsm(e, At(Right, k), RightItem(s, k), w)
            && LeftItem(d, k) == AfterFsm(e, At(Left, k), LeftItem(s, k), w)
  {
  }

  lemma ScoreEventItems(s: SystemState, e: FsmEvent, i: nat)
    requires ScoreEvent(e) && Stands(i) && OfScore(i)
    ensures ItemOf(s.(score := ScoreTold(s.score, e)), i) == AfterFsm(e, i, ItemOf(s, i), WaitsOrEnds(s))
  {
    if i != 12 {
      var k := if i < LEFT_SIDE then i - RIGHT_SIDE else i - LEFT_SIDE;
      ScoreEventSides(s, e, k);
      ItemOfSide(s, k);
      ItemOfSide(s.(score := ScoreTold(s.score, e)), k);
    }
  }

  lemma ScoreEventTold(h: Core, e: FsmEvent)
    requires ScoreEvent(e)
    ensures var d := FromFsm(h, e).core.state;
            ScoreEqual(d.score, ScoreTold(h.state.score, e)) && d == h.state.(score := d.score)
  {
  }

  lemma OtherItems(s: SystemState, d: SystemState, i: nat)
    requires Stands(i) && d == s.(score := d.score)
    ensures !OfScore(i) ==> ItemOf(d, i) == ItemOf(s, i)
  {
  }

  lemma EqualScoresLookAlike(s: SystemState, c: Score, d: Score, i: nat)
    requires Stands(i) && ScoreEqual(c, d)
    ensures ItemOf(s.(score := c), i) == ItemOf(s.(score := d), i)
  {
  }

  lemma ScoreFsmItem(h: Core, e: FsmEvent, i: nat)
    requires ScoreEvent(e) && Stands(i)
    ensures ItemOf(FromFsm(h, e).core.state, i) == AfterFsm(e, i, ItemOf(h.state, i), WaitsOrEnds(h.state))
  {
    var s, d := h.state, FromFsm(h, e).core.state;
    ScoreEventTold(h, e);
    OtherItems(s, d, i);
    if OfScore(i) {
      EqualScoresLookAlike(s, d.score, ScoreTold(s.score, e), i);
      ScoreEventItems(s, e, i);
    }
  }

  lemma LightsItem(h: Core, e: FsmEvent, i: nat)
    requires e.LightsChanged? && Stands(i)
    ensures ItemOf(FromFsm(h, e).core.state, i) == AfterFsm(e, i, ItemOf(h.state, i), WaitsOrEnds(h.state))
  {
  }

  lemma PCardItem(h: Core, e: FsmEvent, i: nat)
    requires (e.PCardChanged? || e.PassivityShown? || e.OtherFsmEvent?) && Stands(i)
    ensures ItemOf(FromFsm(h, e).core.state, i) == AfterFsm(e, i, ItemOf(h.state, i), WaitsOrEnds(h.state))
  {
  }

  lemma InfoItem(h: Core, e: FsmEvent, i: nat)
    requires (e.WeaponChanged? || e.RoundChanged?) && Stands(i)
    ensures ItemOf(FromFsm(h, e).core.state, i) == AfterFsm(e, i, ItemOf(h.state, i), WaitsOrEnds(h.state))
  {
  }

  lemma RunningState(h: Core, e: FsmEvent)
    requires e.TimerStateChanged?
    ensures var s, d := h.state, FromFsm(h, e).core.state;
            && d.apparatus.state == (if WaitsOrEnds(s) then s.apparatus.state else if e.running then FENCING else HALT)
            && d == s.(clock := s.clock.(running := d.clock.running), apparatus := d.apparatus)
  {
  }

  lemma RunningItem(h: Core, e: FsmEvent, i: nat)
    requires e.TimerStateChanged? && Stands(i)
    ensures ItemOf(FromFsm(h, e).core.state, i) == AfterFsm(e, i, ItemOf(h.state, i), WaitsOrEnds(h.state))
  {
    RunningState(h, e);
    BoutOnly(h.state, FromFsm(h, e).core.state, i);
  }

  lemma BoutOnly(s: SystemState, d: SystemState, i: nat)
    requires Stands(i) && d == s.(clock := s.clock.(running := d.clock.running), apparatus := d.apparatus)
    ensures ItemOf(d, i) == if i == 13 then Bout(d.apparatus.state) else ItemOf(s, i)
  {
  }

  lemma ClockItem(h: Core, e: FsmEvent, i: nat)
    requires e.TimerShown? && Stands(i)
    ensures ItemOf(FromFsm(h, e).core.state, i) == AfterFsm(e, i, ItemOf(h.state, i), WaitsOrEnds(h.state))
  {
  }

  lemma FsmItem(h: Core, e: FsmEvent, i: nat)
    requires Stands(i)
    ensures ItemOf(FromFsm(h, e).core.state, i) == AfterFsm(e, i, ItemOf(h.state, i), WaitsOrEnds(h.state))
  {
    if ScoreEvent(e) {
      ScoreFsmItem(h, e, i);
    } else if e.LightsChanged? {
      LightsItem(h, e, i);
    } else if e.WeaponChanged? || e.RoundChanged? {
      InfoItem(h, e, i);
    } else if e.TimerStateChanged? {
      RunningItem(h, e, i);
    } else if e.TimerShown? {
      ClockItem(h, e, i);
    } else {
      PCardItem(h, e, i);
    }
  }

  lemma FsmStep(h: Handler, e: FsmEvent)
    ensures Step(h, Fsm(e)).core == FromFsm(h.core, e).core
  {
  }

  /** Every event of the match machine gives the items of its own side and kind their new values, and touches no
      other item. */
  lemma FsmSetsItsItems(h: Handler, e: FsmEvent, i: nat)
    requires Stands(i)
    ensures ItemOf(Step(h, Fsm(e)).core.state, i) == AfterFsm(e, i, ItemOf(h.core.state, i), WaitsOrEnds(h.core.state))
  {
    FsmStep(h, e);
    FsmItem(h.core, e, i);
  }

  /** What the events set beside the items of the status. */
  predicate RestTold(s: SystemState, e: FsmEvent, d: SystemState) {
    && d.clock.running == (if e.TimerStateChanged? then e.running else s.clock.running)
    && d.uw2f.timeMs == (if e.PassivityShown? then (60 * e.minutes + e.seconds) * 1000 + 10 * e.centis else s.uw2f.timeMs)
    && d.score.left.blackCard == (if e.BlackChanged? && e.side == Left then e.v != 0 else s.score.left.blackCard)
    && d.score.right.blackCard == (if e.BlackChanged? && e.side == Right then e.v != 0 else s.score.right.blackCard)
    && d.fencers == s.fencers
  }

  lemma BlackCardsTold(c: Score, e: FsmEvent)
    requires ScoreEvent(e)
    ensures var d := ScoreTold(c, e);
            && d.left.blackCard == (if e.BlackChanged? && e.side == Left then e.v != 0 else c.left.blackCard)
            && d.right.blackCard == (if e.BlackChanged? && e.side == Right then e.v != 0 else c.right.blackCard)
  {
  }

  lemma ScoreRestTold(h: Core, e: FsmEvent)
    requires ScoreEvent(e)
    ensures RestTold(h.state, e, FromFsm(h, e).core.state)
  {
    ScoreEventTold(h, e);
    BlackCardsTold(h.state.score, e);
  }

  lemma TimerRestTold(h: Core, e: FsmEvent)
    requires e.TimerStateChanged?
    ensures RestTold(h.state, e, FromFsm(h, e).core.state)
  {
  }

  lemma OtherRestTold(h: Core, e: FsmEvent)
    requires !ScoreEvent(e) && !e.TimerStateChanged?
    ensures RestTold(h.state, e, FromFsm(h, e).core.state)
  {
  }

  lemma FsmSetsTheRest(h: Handler, e: FsmEvent)
    ensures RestTold(h.core.state, e, Step(h, Fsm(e)).core.state)
  {
    FsmStep(h, e);
    if ScoreEvent(e) {
      ScoreRestTold(h.core, e);
    } else if e.TimerStateChanged? {
      TimerRestTold(h.core, e);
    } else {
      OtherRestTold(h.core, e);
    }
  }

  // ---- What OPP2 messages and the buttons set ----

  /** A message that is accepted makes its own part of the state what it carries, up to what no comparison looks
      at, and leaves the other parts alone. */
  lemma MessageSetsItsPart(h: Core, m: Opp2Message)
    ensures var s, d := h.state, Accepted(h, m).core.state;
            match m
            case FencersMsg(f) => d == s.(fencers := d.fencers) && (s.apparatus.state == WAITING ==> FencersEqual(d.fencers, f))
            case InfoMsg(i) => d == s.(info := d.info) && (s.apparatus.state == WAITING ==> InfoEqual(d.info, i))
            case ClockMsg(c) => d == s.(clock := d.clock) && (!s.clock.running ==> ClockEqual(d.clock, c))
            case ScoreMsg(c) => d == s.(score := d.score) && ScoreEqual(d.score, c)
            case LightsMsg(l) => d == s.(lights := d.lights) && LightsEqual(d.lights, l)
            case ApparatusMsg(a) => d == s.(apparatus := d.apparatus) && (a.state == WAITING ==> d.apparatus.state == WAITING)
            case Uw2fMsg(u) => d == s.(uw2f := d.uw2f) && Uw2fEqual(d.uw2f, u)
  {
  }

  /** The index of the same item of the other fencer. */
  function Across(i: nat): nat {
    if RIGHT_SIDE <= i < LEFT_SIDE then i + FENCER else if LEFT_SIDE <= i < MAX_NR_FIELDS then i - FENCER else i
  }

  lemma SwappedSides(s: SystemState, k: nat)
    requires OfSide(k)
    ensures RightItem(Swapped(s), k) == LeftItem(s, k) && LeftItem(Swapped(s), k) == RightItem(s, k)
  {
  }

  lemma SwappedGeneral(s: SystemState, i: nat)
    requires Stands(i) && i < RIGHT_SIDE
    ensures GeneralItem(Swapped(s), i) == if i == 12 then Advantage(FlippedPriority(s.score.priority)) else GeneralItem(s, i)
  {
  }

  lemma SwapStep(h: Handler)
    ensures Step(h, Press(Swap)).core.state == Swapped(h.core.state)
  {
  }

  lemma SwappedItem(s: SystemState, i: nat)
    requires Stands(i)
    ensures Stands(Across(i))
    ensures ItemOf(Swapped(s), i) == if i == 12 then Advantage(FlippedPriority(s.score.priority)) else ItemOf(s, Across(i))
  {
    if i < RIGHT_SIDE {
      SwappedGeneral(s, i);
    } else {
      var k := if i < LEFT_SIDE then i - RIGHT_SIDE else i - LEFT_SIDE;
      SwappedSides(s, k);
      ItemOfSide(s, k);
      ItemOfSide(Swapped(s), k);
    }
  }

  /** The swap button exchanges every item of the two fencers and turns the priority over. */
  lemma SwapCrossesItems(h: Handler, i: nat)
    requires Stands(i)
    ensures Stands(Across(i))
    ensures ItemOf(Step(h, Press(Swap)).core.state, i) ==
            if i == 12 then Advantage(match h.core.state.score.priority
                                      case PrioLeft => PrioRight case PrioRight => PrioLeft case NoPrio => NoPrio)
            else ItemOf(h.core.state, Across(i))
  {
    SwapStep(h);
    SwappedItem(h.core.state, i);
  }

  /** BEGIN halts the bout, END ends it unless it waits; no button but the swap touches another item. */
  lemma ButtonsMoveTheBout(h: Handler, b: Button)
    requires b != Swap
    ensures var s, d := h.core.state, Step(h, Press(b)).core.state;
            && d.apparatus.state == (if b == Begin then HALT else if b == End && s.apparatus.state != WAITING then ENDING
                                     else s.apparatus.state)
            && d == s.(apparatus := d.apparatus)
  {
  }
}
