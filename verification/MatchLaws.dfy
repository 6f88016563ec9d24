/**
 What the steps of the match machine mean: which period follows which and with what time, what the keys do to
 scores and cards, and what starts, stops and resets the bout.
 */
module MatchLaws {
  import opened Fencing
  import opened BoutClock
  import opened Passivity
  import opened UiEvents
  import opened Match

  // ---- Which period follows ----

  /** A full minute count, with the 100 hundredths that setting it leaves. */
  predicate Shows(c: Clock, minutes: nat) { c.minutes == minutes && c.seconds == 0 && c.hundredths == 100 }

  predicate LastRound(p: Period) { p.round >= p.rounds }

  predicate CardsCleared(f: Fencer) { f.yellow == 0 && f.red == 0 && f.black == 0 }

  /** After `a` the machine is in the same period, or in the one that the rules make follow: what must have been
      for each period to be entered, with the scores as they are then, and the time it is entered with. */
  predicate Follows(a: Period, e: Match) {
    var b := e.period;
    b == a ||
    (b.rounds == a.rounds &&
     match b.state
     case Break => a.state == Fighting && !LastRound(a) && a.rounds != 9 && b.round == a.round && Shows(e.clock, 1)
     case Fighting =>
       && Shows(e.clock, 3)
       && (if a.state == Fighting
           then !LastRound(a) && a.rounds == 9 && b.round == a.round + 1 && CardsCleared(e.left) && CardsCleared(e.right)
           else a.state == Break && b.round == if LastRound(a) then a.round else a.round + 1)
     case AdditionalMinute =>
       a.state == Fighting && LastRound(a) && e.left.score == e.right.score && b.round == 255 && Shows(e.clock, 1)
     case MatchEnded =>
       && b.round == a.round
       && (a.state == AdditionalMinute || (a.state == Fighting && LastRound(a) && e.left.score != e.right.score))
     case _ => false)
  }

  lemma FightingFollows(m: Match, now: int)
    requires m.period.state == Fighting
    ensures Follows(m.period, EndPeriod(m, now)) && EndPeriod(m, now).period != m.period
  {
  }

  lemma EndFollows(m: Match, now: int)
    ensures Follows(m.period, EndPeriod(m, now))
    ensures m.period.state in {Fighting, Break, AdditionalMinute} ==> EndPeriod(m, now).period != m.period
  {
    if m.period.state == Fighting {
      FightingFollows(m, now);
    }
  }

  lemma SameFollows(a: Period, e: Match)
    requires e.period == a
    ensures Follows(a, e)
  {
  }

  lemma IncrementFollows(m: Match, s: Side, now: int)
    ensures Follows(m.period, Increment(m, s, now))
  {
    EndFollows(Point(m, s), now);
    SameFollows(m.period, Point(m, s));
  }

  lemma KeyFollows(m: Match, s: Side, key: Key, now: int)
    ensures Follows(m.period, KeyPressed(m, s, key, now))
  {
    if key == IncrScore {
      IncrementFollows(m, s, now);
    } else if key == RedCard {
      RedPeriod(m, s, now);
      IncrementFollows(m.Put(s, m.Of(s).(red := m.Of(s).red + 1)).(uw2f := m.uw2f.Cleared(now)), Other(s), now);
    } else {
      OtherKeysPeriod(m, s, key, now);
      SameFollows(m.period, KeyPressed(m, s, key, now));
    }
  }

  /** The P-card of one side ends at most one period; the P-card of both may end two. */
  lemma PCardsFollow(m: Match, now: int)
    ensures var l := AddPCard(m, Left, now);
            Follows(m.period, l) && Follows(l.period, AddPCard(l, Right, now))
  {
    AddPCardFollows(m, Left, now);
    AddPCardFollows(AddPCard(m, Left, now), Right, now);
  }

  lemma AddPCardFollows(m: Match, s: Side, now: int)
    ensures Follows(m.period, AddPCard(m, s, now))
  {
    var f := m.Of(s);
    var t := m.Put(s, f.(pCard := f.pCard + 1));
    if f.pCard == 1 {
      IncrementFollows(t, Other(s), now);
    } else {
      AddPCardPeriod(m, s, now);
      SameFollows(m.period, AddPCard(m, s, now));
    }
  }

  lemma ActFollows(m: Match, ui: Ui, now: int)
    requires ui != ResetMatch && ui != Round && ui != PCard
    ensures Follows(m.period, Act(m, ui, now))
  {
    match ui {
      case NextPeriod => EndFollows(m, now);
      case SideKey(s, key) => KeyFollows(m, s, key, now);
      case _ => SameFollows(m.period, Act(m, ui, now));
    }
  }

  /** The two states differ at most in stopwatch, lights and whether the clock runs. */
  predicate BoutKept(c: Match, e: Match) {
    e.period == c.period && e.left == c.left && e.right == c.right && e.clock == c.clock.(running := e.clock.running)
  }

  lemma LightsKeepBout(m: Match, now: int)
    ensures BoutKept(m, LightsTick(m, now))
  {
  }

  lemma TickRest(c: Match, now: int)
    ensures BoutKept(c, LightsTick(PassivityTick(c, now), now))
  {
    LightsKeepBout(PassivityTick(c, now), now);
  }

  lemma ClockTickFollows(m: Match, now: int)
    ensures Follows(m.period, ClockTick(m, now))
    ensures m.period.state in {Fighting, Break, AdditionalMinute} ==>
            (ClockTick(m, now).period != m.period <==> SeesZero(m.clock, 1))
  {
    EndFollows(StopBout(m.(clock := Tick(m.clock).clock), now), now);
    assert AfterTicks(m.clock, 0) == m.clock;
  }

  lemma FollowsAlike(a: Period, c: Match, e: Match)
    requires Follows(a, c) && BoutKept(c, e)
    ensures Follows(a, e)
  {
  }

  lemma TickFollows(m: Match, now: int)
    ensures Follows(m.period, MachineTick(m, now))
    ensures m.period.state in {Fighting, Break, AdditionalMinute} ==>
            (MachineTick(m, now).period != m.period <==> SeesZero(m.clock, 1))
  {
    var c := ClockTick(m, now);
    ClockTickFollows(m, now);
    TickRest(c, now);
    FollowsAlike(m.period, c, MachineTick(m, now));
  }

  /** The word asks for `ui`. */
  predicate Asks(i: Input, ui: Ui) { i.UiWord? && UiOf(i.word % DATA) == ui }

  lemma UpdateFollows(m: Match, isUi: bool, ui: Ui, now: int)
    requires ui != ResetMatch && ui != Round && ui != PCard
    ensures Follows(m.period, Update(m, isUi, ui, now))
  {
    SameFollows(m.period, m);
    SameFollows(m.period, StopBout(m, now));
    ActFollows(m, if ui == ToggleClock then StartClock else ui, now);
  }

  lemma StepFollows(m: Match, t: Timed)
    requires !Asks(t.input, ResetMatch) && !Asks(t.input, Round) && !Asks(t.input, PCard)
    ensures Follows(m.period, Step(m, t))
  {
    match t.input {
      case UiWord(w) => UpdateFollows(m, w / DATA * DATA == EVENT_UI_INPUT, UiOf(w % DATA), t.now);
      case TimerTick => TickFollows(m, t.now);
      case _ => SameFollows(m.period, Step(m, t));
    }
  }

  lemma PCardStepFollows(m: Match, t: Timed) returns (mid: Match)
    requires Asks(t.input, PCard)
    ensures Follows(m.period, mid) && Follows(mid.period, Step(m, t))
  {
    mid := m;
    SameFollows(m.period, m);
    if m.locked || m.clock.running || t.input.word / DATA * DATA != EVENT_UI_INPUT || m.left.pCard == 2 {
      SameFollows(m.period, Step(m, t));
    } else {
      mid := AddPCard(m, Left, t.now);
      PCardsFollow(m, t.now);
      FollowsAlike(mid.period, AddPCard(mid, Right, t.now), Step(m, t));
    }
  }

  /** In every run a step leaves the period, or enters the one that follows: the match ends from fighting only in
      the last round and with unequal scores, and goes into the additional minute exactly then with equal ones;
      breaks last one minute, fighting three, the additional minute one. Only a reset and a new format are no such
      step, and the P-card of both sides may take two of them, with the scores between them for the first. */
  lemma PeriodsFollow(m: Match, run: seq<Timed>, k: nat) returns (mid: Match)
    requires k < |run| && !Asks(run[k].input, ResetMatch) && !Asks(run[k].input, Round)
    ensures var a, e := StateAt(m, run, k), StateAt(m, run, k + 1);
            && Follows(a.period, mid) && Follows(mid.period, e)
            && (!Asks(run[k].input, PCard) ==> mid == e)
  {
    var s, e := StateAt(m, run, k), StateAt(m, run, k + 1);
    if Asks(run[k].input, PCard) {
      mid := PCardStepFollows(s, run[k]);
    } else {
      StepFollows(s, run[k]);
      SameFollows(e.period, e);
      mid := e;
    }
  }

  /** From fighting, spelled out. */
  lemma WhatFollowsFighting(a: Period, e: Match)
    requires Follows(a, e) && a.state == Fighting && e.period != a
    ensures LastRound(a) ==> (e.period.state == AdditionalMinute <==> e.left.score == e.right.score)
    ensures LastRound(a) ==> (e.period.state == MatchEnded <==> e.left.score != e.right.score)
    ensures !LastRound(a) ==> e.period.state == if a.rounds == 9 then Fighting else Break
  {
  }

  /** From fighting in the last round a new period is overtime with equal scores and the end with unequal ones; from
      another round it is neither. */
  predicate Settles(a: Period, e: Match) {
    e.period != a ==>
      if LastRound(a) then e.period.state == if e.left.score == e.right.score then AdditionalMinute else MatchEnded
      else e.period.state in {Break, Fighting}
  }

  /** Where the point of the first card has ended the period, that of the second changes no outcome. */
  lemma SecondPointSettles(m: Match, l: Match, now: int)
    requires m.period.state == Fighting && Settles(m.period, l) && Follows(m.period, l)
    requires l.period != m.period ==> l.weapon == Sabre && m.period.round == 1 && (l.left.score == 8 || l.right.score == 8)
    ensures Settles(m.period, AddPCard(l, Right, now))
  {
    var f := l.right;
    var t := l.Put(Right, f.(pCard := f.pCard + 1));
    AddPCardPeriod(l, Right, now);
    if l.period == m.period {
      AddPCardFollows(l, Right, now);
      if AddPCard(l, Right, now).period != m.period {
        WhatFollowsFighting(m.period, AddPCard(l, Right, now));
      }
    } else if f.pCard == 1 {
      IncrementScores(t, Left, now);
      EndFollows(Point(t, Left), now);
    }
  }

  lemma PCardSettles(m: Match, now: int)
    requires m.period.state == Fighting
    ensures Settles(m.period, Act(m, PCard, now))
  {
    var l := AddPCard(m, Left, now);
    if m.left.pCard != 2 {
      AddPCardFollows(m, Left, now);
      AddPCardPeriod(m, Left, now);
      if l.period != m.period {
        WhatFollowsFighting(m.period, l);
        SabreHalfEnds(m.Put(Left, m.left.(pCard := m.left.pCard + 1)), Right, now);
      }
      SecondPointSettles(m, l, now);
    }
  }

  /** In every run the last fighting period is followed by the additional minute if and only if the scores are equal,
      and by the end of the match if and only if they are not, by whatever input it ends; no other fighting period
      is followed by either. */
  lemma OvertimeOrEnd(m: Match, run: seq<Timed>, k: nat)
    requires k < |run| && StateAt(m, run, k).period.state == Fighting
    requires !Asks(run[k].input, ResetMatch) && !Asks(run[k].input, Round)
    ensures Settles(StateAt(m, run, k).period, StateAt(m, run, k + 1))
  {
    StepSettles(StateAt(m, run, k), run[k]);
  }

  lemma StepSettles(s: Match, t: Timed)
    requires s.period.state == Fighting && !Asks(t.input, ResetMatch) && !Asks(t.input, Round)
    ensures Settles(s.period, Step(s, t))
  {
    if !Asks(t.input, PCard) {
      StepFollows(s, t);
      if Step(s, t).period != s.period {
        WhatFollowsFighting(s.period, Step(s, t));
      }
    } else if s.locked || s.clock.running || t.input.word / DATA * DATA != EVENT_UI_INPUT {
      assert Step(s, t).period == s.period;
    } else {
      PCardSettles(s, t.now);
    }
  }

  /** A tick ends the period if and only if it shows zero on the clock. */
  lemma TickEndsAtZero(m: Match, now: int)
    requires m.period.state in {Fighting, Break, AdditionalMinute}
    ensures Step(m, Timed(TimerTick, now)).period != m.period <==> SeesZero(m.clock, 1)
  {
    TickFollows(m, now);
  }

  /** A point ends the period if and only if it is sabre, round 1, and a side stands at 8 after it. */
  lemma SabreHalfEnds(m: Match, s: Side, now: int)
    requires m.period.state in {Fighting, Break, AdditionalMinute}
    ensures var e := Increment(m, s, now);
            e.period != m.period <==> m.weapon == Sabre && m.period.round == 1 && (e.left.score == 8 || e.right.score == 8)
  {
    EndFollows(Point(m, s), now);
    EndKeepsScores(Point(m, s), now);
  }

  /** The P-card of both sides can end the first half of a sabre match and skip the break behind it: the point of
      the right side makes it 8, and the point of the left side finds it there. */
  lemma PCardsSkipBreak(m: Match, now: int)
    requires m.weapon == Sabre && m.period == Period(Fighting, 1, 3) && m.right.score == 7 && 0 <= m.left.score < 7
    requires m.left.pCard == 1 && m.right.pCard == 1
    ensures Act(m, PCard, now).period == Period(Fighting, 2, 3)
    ensures AddPCard(m, Left, now).period == Period(Break, 1, 3)
  {
  }

  // ---- Keys ----

  /** One more, up to the maximum. */
  function OneMore(score: int, max: int): int { if score < max then score + 1 else score }

  /** One less, in unsigned words. */
  function OneLess(score: int): int { (score - 1) % WORD }

  /** The score of the side whose key it is, after the key. */
  function OwnScore(f: Fencer, key: Key, max: int): int {
    if key == IncrScore then OneMore(f.score, max)
    else if key == DecrScore && f.score != 0 then OneLess(f.score)
    else f.score
  }

  /** The score of the opponent: red cards give a point, and take it back. */
  function OpponentScore(f: Fencer, o: Fencer, key: Key, max: int): int {
    if key == RedCard then OneMore(o.score, max) else if key == RedCardUndo && f.red != 0 then OneLess(o.score) else o.score
  }

  /** Five points a round: as many as all rounds give, in a team match those of the rounds so far. */
  lemma FivePointsARound(p: Period)
    requires p.rounds in {1, 2, 3, 9}
    ensures MaxScore(p) == 5 * if p.rounds == 9 then p.round else p.rounds
  {
  }

  lemma IncrementScores(m: Match, s: Side, now: int)
    ensures var e := Increment(m, s, now);
            && e.Of(s).score == OneMore(m.Of(s).score, MaxScore(m.period)) && e.Of(Other(s)).score == m.Of(Other(s)).score
            && e.Of(s).pCard == m.Of(s).pCard && e.Of(Other(s)).pCard == m.Of(Other(s)).pCard
  {
    EndKeepsScores(Point(m, s), now);
  }

  lemma EndKeepsScores(m: Match, now: int)
    ensures var e := EndPeriod(m, now);
            && e.left.score == m.left.score && e.right.score == m.right.score
            && e.left.pCard == m.left.pCard && e.right.pCard == m.right.pCard
  {
  }

  lemma OtherKeyScores(m: Match, s: Side, key: Key, now: int)
    requires key != IncrScore && key != RedCard
    ensures var e, f, o, max := KeyPressed(m, s, key, now), m.Of(s), m.Of(Other(s)), MaxScore(m.period);
            e.Of(s).score == OwnScore(f, key, max) && e.Of(Other(s)).score == OpponentScore(f, o, key, max)
  {
  }

  /** What every key of a side does to the two scores. */
  lemma KeyScores(m: Match, s: Side, key: Key, now: int)
    ensures var e, f, o, max := KeyPressed(m, s, key, now), m.Of(s), m.Of(Other(s)), MaxScore(m.period);
            e.Of(s).score == OwnScore(f, key, max) && e.Of(Other(s)).score == OpponentScore(f, o, key, max)
  {
    if key == IncrScore {
      IncrementScores(m, s, now);
    } else if key == RedCard {
      IncrementScores(m.Put(s, m.Of(s).(red := m.Of(s).red + 1)).(uw2f := m.uw2f.Cleared(now)), Other(s), now);
    } else {
      OtherKeyScores(m, s, key, now);
    }
  }

  /** What the card keys of a side do to its cards, and to no other column; the end of a round of a team match,
      which a point can bring, clears all cards but the P-cards. */
  lemma CardKeys(m: Match, s: Side, key: Key, now: int)
    requires key != IncrScore && key != RedCard
    ensures var f, g := m.Of(s), KeyPressed(m, s, key, now).Of(s);
            && g.yellow == (if key == Yellow && f.red == 0 then 1
                            else if key == YellowUndo && f.yellow == 1 then 0 else f.yellow)
            && g.red == (if key == RedCardUndo && f.red != 0 then f.red - 1 else f.red)
            && g.black == (if key == Black then 1 else if key == BlackUndo then 0 else f.black)
            && g.pCard == (if key == BlackPCard && f.pCard == 2 then 4
                           else if key == BlackPCardUndo && f.pCard == 4 then 2 else f.pCard)
    ensures var o, p := m.Of(Other(s)), KeyPressed(m, s, key, now).Of(Other(s));
            p == o.(score := p.score)
  {
  }

  lemma IncrementKeepsCards(m: Match, s: Side, now: int)
    ensures var e := Increment(m, s, now);
            if e.period.state == Fighting && e.period != m.period && m.period.state == Fighting
            then CardsCleared(e.left) && CardsCleared(e.right)
            else e.Of(Other(s)) == m.Of(Other(s)) && e.Of(s) == m.Of(s).(score := e.Of(s).score)
  {
    EndKeepsCards(Point(m, s), now);
  }

  lemma EndKeepsCards(m: Match, now: int)
    ensures var e := EndPeriod(m, now);
            if e.period.state == Fighting && e.period != m.period && m.period.state == Fighting
            then CardsCleared(e.left) && CardsCleared(e.right)
            else e.left == m.left && e.right == m.right
  {
  }

  /** A red card is counted on its side, unless the point for the opponent ends a round of a team match. */
  lemma RedCardCounts(m: Match, s: Side, now: int)
    ensures var e := KeyPressed(m, s, RedCard, now);
            if e.period.state == Fighting && e.period != m.period && m.period.state == Fighting
            then CardsCleared(e.left) && CardsCleared(e.right)
            else e.Of(s) == m.Of(s).(red := m.Of(s).red + 1)
  {
    IncrementKeepsCards(m.Put(s, m.Of(s).(red := m.Of(s).red + 1)).(uw2f := m.uw2f.Cleared(now)), Other(s), now);
  }

  /** The P-card of both sides: up to the second one each, with a point for the opponent; a second one of the left
      side becomes a black one, and takes the right side with it. */
  lemma PCardsCount(m: Match, now: int)
    requires m.left.pCard in {0, 1, 2, 4} && m.right.pCard in {0, 1, 2, 4}
    ensures var e := Act(m, PCard, now);
            && e.left.pCard == (if m.left.pCard == 2 then 4 else if m.left.pCard < 2 then m.left.pCard + 1 else 4)
            && e.right.pCard == (if m.left.pCard == 2 then m.right.pCard + 2
                                 else if m.right.pCard < 2 then m.right.pCard + 1 else m.right.pCard)
  {
    if m.left.pCard != 2 {
      var l := AddPCard(m, Left, now);
      AddPCardCounts(m, Left, now);
      AddPCardCounts(l, Right, now);
    }
  }

  lemma AddPCardCounts(m: Match, s: Side, now: int)
    ensures var e := AddPCard(m, s, now);
            && e.Of(s).pCard == (if m.Of(s).pCard < 2 then m.Of(s).pCard + 1 else m.Of(s).pCard)
            && e.Of(Other(s)).pCard == m.Of(Other(s)).pCard
  {
    var f := m.Of(s);
    IncrementScores(m.Put(s, f.(pCard := f.pCard + 1)), Other(s), now);
  }

  // ---- Reset, start and stop ----

  predicate ResetObeyed(m: Match, word: nat) {
    UiOf(word % DATA) == ResetMatch && (m.locked || (word / DATA * DATA == EVENT_UI_INPUT && !m.clock.running))
  }

  /** A new match of the same number of rounds: no scores, cards or priority, the first round, three minutes on a
      standing clock, and no passivity time. */
  predicate Renewed(m: Match, e: Match, now: int) {
    && e.left == Fencer(0, 0, 0, 0, 0) == e.right && e.priority == NoPrio
    && e.period == Period(Fighting, 1, m.period.rounds) && Shows(e.clock, 3) && !e.clock.running
    && !e.uw2f.watch.running && e.uw2f.watch.Elapsed(now) == 0
    && e == m.(left := e.left, right := e.right, priority := e.priority, period := e.period, clock := e.clock,
               uw2f := e.uw2f)
  }

  /** A reset that is obeyed leaves a new match, whatever was before. */
  lemma ResetIsFresh(m: Match, word: nat, now: int)
    requires ResetObeyed(m, word)
    ensures Renewed(m, Step(m, Timed(UiWord(word), now)), now)
  {
  }

  /** A locked machine obeys nothing but the reset, and a running one nothing but the stop. */
  lemma OnlyResetOrStopObeyed(m: Match, word: nat, now: int)
    requires UiOf(word % DATA) != ResetMatch
    ensures m.locked ==> Step(m, Timed(UiWord(word), now)) == m
    ensures m.clock.running && UiOf(word % DATA) !in {StopClock, ToggleClock} ==> Step(m, Timed(UiWord(word), now)) == m
  {
  }

  predicate Obeyed(m: Match, word: nat) { !m.locked && word / DATA * DATA == EVENT_UI_INPUT }

  /** Start, stop and toggle: the clock runs unless the match has ended, and stands after a stop. */
  lemma ClockKeys(m: Match, word: nat, now: int)
    requires Obeyed(m, word) && UiOf(word % DATA) in {StartClock, StopClock, ToggleClock}
    ensures var e := Step(m, Timed(UiWord(word), now));
            && e.clock.running == (if UiOf(word % DATA) == StopClock then false
                                   else if m.clock.running then UiOf(word % DATA) == StartClock
                                   else m.period.state != MatchEnded)
            && (!e.clock.running && (m.clock.running || UiOf(word % DATA) == StopClock) ==> !e.uw2f.watch.running)
  {
  }

  // ---- Passivity ----

  /** The stopwatch starts with the clock in a fighting period of a match of several rounds, if more than a minute
      is left or it shows a second already. */
  lemma StartStartsPassivity(m: Match, word: nat, now: int)
    requires Obeyed(m, word) && UiOf(word % DATA) in {StartClock, ToggleClock} && !m.clock.running && !m.uw2f.watch.running
    ensures Step(m, Timed(UiWord(word), now)).uw2f.watch.running <==>
            m.period.state == Fighting && m.period.rounds > 1
            && (60 * m.clock.minutes + m.clock.seconds > 60 || m.uw2f.watch.Seconds(now) > 0)
  {
  }

  /** The stopwatch stands at zero. */
  predicate Blank(r: Recorder, now: int) { !r.watch.running && r.watch.Elapsed(now) == 0 }

  lemma ClearedIsBlank(r: Recorder, now: int)
    ensures Blank(r.Cleared(now), now) && Blank(r.Call(Reset, now), now)
  {
  }

  lemma ClearsTwiceIsBlank(m: Match, e: Match, now: int)
    requires ClearsTwice(m, e, now) && Blank(m.uw2f, now)
    ensures Blank(e.uw2f, now)
  {
    ClearedIsBlank(m.uw2f, now);
    ClearedIsBlank(m.uw2f.Cleared(now), now);
  }

  /** A new period, a red card and a P-card put the stopwatch back to zero, the end of the match does not. */
  lemma PeriodClearsPassivity(m: Match, now: int)
    ensures var e := EndPeriod(m, now);
            if e.period != m.period && e.period.state != MatchEnded then Blank(e.uw2f, now) else e.uw2f == m.uw2f
  {
    ClearedIsBlank(m.uw2f, now);
  }

  lemma CardsClearPassivity(m: Match, ui: Ui, now: int)
    requires ui == PCard || (ui.SideKey? && ui.key == RedCard)
    ensures Blank(Act(m, ui, now).uw2f, now)
  {
    if ui == PCard {
      ClearedIsBlank(GivePCards(m, now).uw2f, now);
    } else {
      var c := m.Put(ui.side, m.Of(ui.side).(red := m.Of(ui.side).red + 1)).(uw2f := m.uw2f.Cleared(now));
      ClearedIsBlank(m.uw2f, now);
      IncrementFrame(c, Other(ui.side), now);
      ClearsTwiceIsBlank(c, KeyPressed(m, ui.side, RedCard, now), now);
    }
  }

  // ---- Hits and formats ----

  predicate HitShown(m: Match) {
    Red in m.lights || Green in m.lights || (m.weapon == Foil && (WhiteL in m.lights || WhiteR in m.lights))
  }

  lemma LightsHalt(m: Match, now: int)
    requires m.lightsChanged && m.period.state in {Fighting, AdditionalMinute} && HitShown(m)
    ensures var e := LightsTick(m, now);
            !e.clock.running && !e.lightsChanged && (m.clock.running ==> !e.uw2f.watch.running)
  {
  }

  lemma QuietTick(m: Match, now: int)
    requires !SeesZero(m.clock, 1)
    ensures var p := PassivityTick(ClockTick(m, now), now);
            p == m.(clock := p.clock, uw2f := p.uw2f) && p.clock.running == m.clock.running
  {
    assert AfterTicks(m.clock, 0) == m.clock;
  }

  /** A hit stops clock and stopwatch in the tick that sees it: a coloured light, in foil a white one too, while
      the bout can be fenced. */
  lemma HitStopsClock(m: Match, now: int)
    requires m.lightsChanged && m.period.state in {Fighting, AdditionalMinute} && HitShown(m) && !SeesZero(m.clock, 1)
    ensures var e := Step(m, Timed(TimerTick, now));
            !e.clock.running && !e.lightsChanged && (m.clock.running ==> !e.uw2f.watch.running)
  {
    QuietTick(m, now);
    LightsHalt(PassivityTick(ClockTick(m, now), now), now);
  }

  /** Every format comes within three presses of the round key. */
  lemma FormatsInTurn(m: Match, n: int) returns (presses: nat)
    requires m.period.rounds in {1, 2, 3, 9} && n in {1, 3, 9}
    ensures presses <= 3 && Pressed(m, presses).period == (if presses == 0 then m.period else Period(m.period.state, 1, n))
    ensures Pressed(m, presses).period.rounds == n
  {
    assert Pressed(m, 1) == NextFormat(m);
    assert Pressed(m, 2) == NextFormat(Pressed(m, 1));
    assert Pressed(m, 3) == NextFormat(Pressed(m, 2));
    presses := if m.period.rounds == n then 0 else if Pressed(m, 1).period.rounds == n then 1
               else if Pressed(m, 2).period.rounds == n then 2 else 3;
  }

  /** The machine after so many presses of the round key. */
  function Pressed(m: Match, presses: nat): Match {
    if presses == 0 then m else Act(Pressed(m, presses - 1), Round, 0)
  }
}
