/**
 The match machine as a function of its state: periods, breaks and overtime, scores, cards and
 P-cards, the countdown and the passivity stopwatch.
 */
module Match {
  import opened Fencing
  import opened BoutClock
  import opened Passivity
  import opened UiEvents

  const WORD := 0x1_0000_0000

  datatype Fencer = Fencer(score: int, yellow: int, red: int, black: int, pCard: int)

  const Clean := Fencer(0, 0, 0, 0, 0)

  datatype Period = Period(state: TimerState, round: int, rounds: int)

  /** The passivity stopwatch, the seconds last shown, and every call made to the stopwatch so far. */
  datatype Recorder = Recorder(watch: Stopwatch, seconds: int, log: seq<TimedOp>) {
    function Call(op: Op, now: int): Recorder {
      Recorder(Apply(watch, TimedOp(now, op)), seconds, log + [TimedOp(now, op)])
    }
    function Cleared(now: int): Recorder { Call(Reset, now).(seconds := 0) }
    function Restored(now: int): Recorder {
      var r := Call(Restore, now);
      r.(seconds := r.watch.Seconds(now))
    }
    predicate Sound() { watch == Run(log) && watch.running == IsRunning(log) && Disciplined(log) }
  }

  datatype Match = Match(left: Fencer, right: Fencer, priority: Priority, period: Period, miniDE: bool,
                         clock: Clock, uw2f: Recorder, weapon: Weapon,
                         lights: Mask, lightsChanged: bool, locked: bool) {
    function Of(s: Side): Fencer { if s == Left then left else right }
    function Put(s: Side, f: Fencer): Match { if s == Left then this.(left := f) else this.(right := f) }
    function Running(on: bool): Match { this.(clock := clock.(running := on)) }
  }

  function Other(s: Side): Side { if s == Left then Right else Left }

  // ---- Transitions ----

  function ClockAt(c: Clock, minutes: Byte, seconds: Byte): Clock { WithSeconds(WithMinutes(c, minutes), seconds) }

  /** P-cards survive the rounds of a team match. */
  function ClearRoundCards(m: Match): Match {
    m.(left := m.left.(yellow := 0, red := 0, black := 0), right := m.right.(yellow := 0, red := 0, black := 0))
  }

  /** The next period, with a new time on the clock and the passivity stopwatch cleared. */
  function NewPeriod(m: Match, p: Period, minutes: Byte, now: int): Match {
    m.(period := p, clock := ClockAt(m.clock, minutes, 0), uw2f := m.uw2f.Cleared(now))
  }

  function EndFighting(m: Match, now: int): Match {
    var p := m.period;
    if p.round < p.rounds then
      if p.rounds != 9 then NewPeriod(m, p.(state := Break), 1, now)
      else ClearRoundCards(NewPeriod(m, p.(round := p.round + 1), 3, now))
    else if m.left.score == m.right.score then NewPeriod(m, p.(state := AdditionalMinute, round := 255), 1, now)
    else m.(period := p.(state := MatchEnded))
  }

  function EndPeriod(m: Match, now: int): Match {
    var p := m.period;
    match p.state
    case Fighting => EndFighting(m, now)
    case Break =>
      NewPeriod(m, p.(state := Fighting, round := if p.round < p.rounds then p.round + 1 else p.round), 3, now)
    case AdditionalMinute => m.(period := p.(state := MatchEnded))
    case _ => m
  }

  function ResetAll(m: Match, now: int): Match {
    m.(clock := ClockAt(m.clock.(running := false), 3, 0), uw2f := m.uw2f.Call(Op.Stop, now).Call(Reset, now),
       period := Period(Fighting, 1, m.period.rounds), priority := NoPrio, left := Clean, right := Clean)
  }

  function MaxScore(p: Period): int {
    match p.rounds
    case 1 => 5
    case 2 => 10
    case 3 => 15
    case 9 => p.round * 5
    case _ => 5
  }

  predicate SabreBreakDue(m: Match) {
    m.weapon == Sabre && m.period.round == 1 && (m.right.score == 8 || m.left.score == 8)
  }

  /** A point, at most up to the maximum. */
  function Point(m: Match, s: Side): Match {
    var f := m.Of(s);
    if f.score < MaxScore(m.period) then m.Put(s, f.(score := f.score + 1)) else m
  }

  /** In sabre the first half ends when a side stands at 8. */
  function Increment(m: Match, s: Side, now: int): Match {
    var p := Point(m, s);
    if SabreBreakDue(p) then EndPeriod(p, now) else p
  }

  /** Scores are unsigned words: taking one from zero wraps. */
  function TakePoint(m: Match, s: Side): Match {
    m.Put(s, m.Of(s).(score := (m.Of(s).score - 1) % WORD))
  }

  function KeyPressed(m: Match, s: Side, key: Key, now: int): Match {
    var f := m.Of(s);
    match key
    case IncrScore => Increment(m, s, now)
    case DecrScore => if f.score != 0 then TakePoint(m, s) else m
    case Yellow => if f.red == 0 then m.Put(s, f.(yellow := 1)) else m
    case YellowUndo => if f.yellow == 1 then m.Put(s, f.(yellow := 0)) else m
    case RedCard => Increment(m.Put(s, f.(red := f.red + 1)).(uw2f := m.uw2f.Cleared(now)), Other(s), now)
    case RedCardUndo => if f.red != 0 then TakePoint(m.Put(s, f.(red := f.red - 1)), Other(s)) else m
    case Black => m.Put(s, f.(black := 1))
    case BlackUndo => m.Put(s, f.(black := 0))
    case BlackPCard => if f.pCard == 2 then m.Put(s, f.(pCard := 4)) else m
    case BlackPCardUndo => if f.pCard == 4 then m.Put(s, f.(pCard := 2)) else m
  }

  function WithPCards(m: Match, l: int, r: int): Match {
    m.(left := m.left.(pCard := l), right := m.right.(pCard := r))
  }

  /** One more P-card for a side below two; the second one gives the opponent a point. */
  function AddPCard(m: Match, s: Side, now: int): Match {
    var f := m.Of(s);
    if f.pCard >= 2 then m
    else
      var t := m.Put(s, f.(pCard := f.pCard + 1));
      if f.pCard == 1 then Increment(t, Other(s), now) else t
  }

  function GivePCards(m: Match, now: int): Match {
    if m.left.pCard == 2 then WithPCards(m, 4, m.right.pCard + 2)
    else AddPCard(AddPCard(m, Left, now), Right, now)
  }

  function TakePCards(m: Match, now: int): Match {
    if m.left.pCard == 0 then m
    else if m.left.pCard == 1 then WithPCards(m, 0, 0).(uw2f := m.uw2f.Restored(now))
    else if m.left.pCard == 2 && m.right.pCard == 2 then
      TakePoint(TakePoint(WithPCards(m, 1, 1), Right), Left).(uw2f := m.uw2f.Restored(now))
    else if m.left.pCard == 4 && m.right.pCard == 4 then WithPCards(m, 2, 2).(uw2f := m.uw2f.Restored(now))
    else m
  }

  /** The passivity stopwatch starts with the clock, unless the format has none or less than a minute
      is left and it has not been running. */
  predicate PassivityStarts(m: Match, now: int) {
    m.period.state == Fighting && m.period.rounds > 1
    && (m.clock.minutes * 60 + m.clock.seconds > 60 || m.uw2f.watch.Seconds(now) > 0)
  }

  function StartBout(m: Match, now: int): Match {
    if m.period.state == MatchEnded then m
    else m.Running(true).(uw2f := if PassivityStarts(m, now) then m.uw2f.Call(Start, now) else m.uw2f)
  }

  function StopBout(m: Match, now: int): Match { m.Running(false).(uw2f := m.uw2f.Call(Op.Stop, now)) }

  function NextFormat(m: Match): Match {
    m.(period := m.period.(
         rounds := match m.period.rounds case 1 => (if m.miniDE then 2 else 3) case 2 => 3 case 3 => 9 case _ => 1,
         round := 1))
  }

  function Act(m: Match, ui: Ui, now: int): Match {
    match ui
    case SetMinutes(v) => m.(clock := WithMinutes(m.clock, v))
    case SetSeconds(v) => m.(clock := WithSeconds(m.clock, v))
    case SetHundredths(v) => m.(clock := m.clock.(hundredths := v))
    case StartClock => StartBout(m, now)
    case StopClock => StopBout(m, now)
    case ToggleClock => m
    case ResetMatch => ResetAll(m, now)
    case NextPeriod => EndPeriod(m, now)
    case Round => NextFormat(m)
    case Prio =>
      m.(priority := if m.priority != NoPrio then NoPrio else if now % 2 == 1 then PrioLeft else PrioRight)
    case SideKey(s, key) => KeyPressed(m, s, key, now)
    case PCard => var p := GivePCards(m, now); p.(uw2f := p.uw2f.Call(Reset, now))
    case PCardUndo => TakePCards(m, now)
    case RestorePassivity => m.(uw2f := m.uw2f.Restored(now))
    case CycleWeapon =>
      m.(weapon := match m.weapon case Sabre => Foil case Foil => Epee case Epee => UnknownWeapon case UnknownWeapon => Sabre)
    case NoAction => m
  }

  /** While the clock runs, only stopping it is obeyed. */
  function Obey(m: Match, ui: Ui, now: int): Match {
    if m.clock.running then
      if ui == StopClock || ui == ToggleClock then StopBout(m, now) else m
    else Act(m, if ui == ToggleClock then StartClock else ui, now)
  }

  /** A locked machine obeys only a reset, whatever the main type of the word. */
  function Update(m: Match, isUi: bool, ui: Ui, now: int): Match {
    if m.locked then (if ui == ResetMatch then ResetAll(m, now) else m)
    else if isUi then Obey(m, ui, now)
    else m
  }

  function HaltOnHit(m: Match, now: int): Match {
    m.Running(false).(uw2f := if m.clock.running then m.uw2f.Call(Reset, now) else m.uw2f)
  }

  function ClockTick(m: Match, now: int): Match {
    var t := Tick(m.clock);
    var s := m.(clock := t.clock);
    if t.changed && t.clock.ReachedZero() then EndPeriod(StopBout(s, now), now) else s
  }

  function PassivityTick(m: Match, now: int): Match {
    if m.uw2f.watch.running then m.(uw2f := m.uw2f.(seconds := m.uw2f.watch.Seconds(now))) else m
  }

  function LightsTick(m: Match, now: int): Match {
    if !m.lightsChanged then m
    else
      var c := m.(lightsChanged := false);
      if m.period.state != Fighting && m.period.state != AdditionalMinute then c
      else
        var h := if Red in m.lights || Green in m.lights then HaltOnHit(c, now) else c;
        if m.weapon == Foil && (WhiteL in m.lights || WhiteR in m.lights) then HaltOnHit(h, now) else h
  }

  /** One 10 ms tick: the countdown, the passivity display, then the lights. */
  function MachineTick(m: Match, now: int): Match {
    LightsTick(PassivityTick(ClockTick(m, now), now), now)
  }

  // ---- Runs ----

  datatype Input = UiWord(word: nat) | TimerTick | SensorLights(lights: Mask) | SetWeapon(w: Weapon) | Lock | Unlock
                 | SyncFencer(side: Side, f: Fencer) | SyncPriority(p: Priority) | SyncClock(ms: nat)

  datatype Timed = Timed(input: Input, now: int)

  function Step(m: Match, t: Timed): Match {
    match t.input
    case UiWord(w) => Update(m, w / DATA * DATA == EVENT_UI_INPUT, UiOf(w % DATA), t.now)
    case TimerTick => MachineTick(m, t.now)
    case SensorLights(l) => if l != m.lights then m.(lights := l, lightsChanged := true) else m
    case SetWeapon(w) => m.(weapon := w)
    case Lock => m.(locked := true)
    case Unlock => m.(locked := false)
    case SyncFencer(s, f) => m.Put(s, f)
    case SyncPriority(p) => m.(priority := p)
    case SyncClock(ms) => m.(clock := ClockAt(m.clock, ms / 60000 % 256, ms % 60000 / 1000))
  }

  function StateAt(m: Match, run: seq<Timed>, n: nat): Match
    requires n <= |run|
  {
    if n == 0 then m else Step(StateAt(m, run, n - 1), run[n - 1])
  }

  // ---- The clock and the stopwatch ----

  /** What every step keeps: the stopwatch runs only while the clock does, and the clock stands still
      once the match has ended. */
  predicate Inv(m: Match) {
    && m.uw2f.Sound()
    && (m.uw2f.watch.running ==> m.clock.running)
    && (m.period.state == MatchEnded ==> !m.clock.running)
  }

  lemma CallKeepsSound(r: Recorder, op: Op, now: int)
    requires r.Sound() && (op.Start? || op.Restore? || op.Seed? ==> !r.watch.running)
    ensures r.Call(op, now).Sound()
    ensures r.Call(op, now).watch.running == (op.Start? || (r.watch.running && !op.Stop? && !op.Reset?))
  {
    var h := r.log + [TimedOp(now, op)];
    assert h[..|h| - 1] == r.log;
  }

  /** The clock runs as it did, and the stopwatch has been cleared at most once. */
  predicate ClearsOnce(m: Match, e: Match, now: int) {
    e.clock.running == m.clock.running && (e.uw2f == m.uw2f || e.uw2f == m.uw2f.Cleared(now))
  }

  lemma EndFightingFrame(m: Match, now: int)
    ensures ClearsOnce(m, EndFighting(m, now), now)
  {
  }

  /** The end of a period leaves the clock as it runs and at most clears the stopwatch. */
  lemma EndPeriodFrame(m: Match, now: int)
    ensures ClearsOnce(m, EndPeriod(m, now), now)
  {
    EndFightingFrame(m, now);
  }

  /** The same, cleared at most twice. */
  predicate ClearsTwice(m: Match, e: Match, now: int) {
    ClearsOnce(m, e, now) || (e.clock.running == m.clock.running && e.uw2f == m.uw2f.Cleared(now).Cleared(now))
  }

  lemma IncrementFrame(m: Match, s: Side, now: int)
    ensures ClearsOnce(m, Increment(m, s, now), now)
  {
    EndPeriodFrame(Point(m, s), now);
  }

  lemma AddPCardFrame(m: Match, s: Side, now: int)
    ensures ClearsOnce(m, AddPCard(m, s, now), now)
  {
    var f := m.Of(s);
    IncrementFrame(m.Put(s, f.(pCard := f.pCard + 1)), Other(s), now);
  }

  lemma GivePCardsFrame(m: Match, now: int)
    ensures ClearsTwice(m, GivePCards(m, now), now)
  {
    AddPCardFrame(m, Left, now);
    AddPCardFrame(AddPCard(m, Left, now), Right, now);
  }

  lemma RedFrame(m: Match, s: Side, now: int)
    ensures ClearsTwice(m, KeyPressed(m, s, RedCard, now), now)
  {
    IncrementFrame(m.Put(s, m.Of(s).(red := m.Of(s).red + 1)).(uw2f := m.uw2f.Cleared(now)), Other(s), now);
  }

  lemma KeyFrame(m: Match, s: Side, key: Key, now: int)
    ensures ClearsTwice(m, KeyPressed(m, s, key, now), now)
  {
    if key == IncrScore {
      IncrementFrame(m, s, now);
    } else if key == RedCard {
      RedFrame(m, s, now);
    }
  }

  lemma ClearedIsSound(r: Recorder, now: int)
    requires r.Sound()
    ensures r.Cleared(now).Sound() && !r.Cleared(now).watch.running
  {
    CallKeepsSound(r, Reset, now);
  }

  lemma ClearsKeeps(m: Match, e: Match, now: int)
    requires Inv(m) && !m.clock.running && ClearsTwice(m, e, now)
    ensures Inv(e) && !e.clock.running
  {
    ClearedIsSound(m.uw2f, now);
    if e.uw2f != m.uw2f && e.uw2f != m.uw2f.Cleared(now) {
      ClearedIsSound(m.uw2f.Cleared(now), now);
    }
  }

  lemma EndPeriodKeeps(m: Match, now: int)
    requires Inv(m) && !m.clock.running
    ensures Inv(EndPeriod(m, now)) && !EndPeriod(m, now).clock.running
  {
    EndPeriodFrame(m, now);
    ClearsKeeps(m, EndPeriod(m, now), now);
  }

  lemma KeyKeeps(m: Match, s: Side, key: Key, now: int)
    requires Inv(m) && !m.clock.running
    ensures Inv(KeyPressed(m, s, key, now))
  {
    KeyFrame(m, s, key, now);
    ClearsKeeps(m, KeyPressed(m, s, key, now), now);
  }

  lemma ResetAllKeeps(m: Match, now: int)
    requires Inv(m)
    ensures Inv(ResetAll(m, now))
  {
    CallKeepsSound(m.uw2f, Op.Stop, now);
    CallKeepsSound(m.uw2f.Call(Op.Stop, now), Reset, now);
  }

  lemma StopKeeps(m: Match, now: int)
    requires m.uw2f.Sound()
    ensures Inv(StopBout(m, now)) && !StopBout(m, now).clock.running
  {
    CallKeepsSound(m.uw2f, Op.Stop, now);
  }

  lemma PCardKeeps(m: Match, now: int)
    requires Inv(m) && !m.clock.running
    ensures Inv(Act(m, PCard, now))
  {
    var p := GivePCards(m, now);
    GivePCardsFrame(m, now);
    ClearsKeeps(m, p, now);
    CallKeepsSound(p.uw2f, Reset, now);
  }

  lemma StartKeeps(m: Match, now: int)
    requires Inv(m) && !m.clock.running
    ensures Inv(StartBout(m, now))
  {
    CallKeepsSound(m.uw2f, Start, now);
  }

  lemma RestoredKeeps(m: Match, now: int)
    requires Inv(m) && !m.clock.running
    ensures Inv(TakePCards(m, now)) && Inv(m.(uw2f := m.uw2f.Restored(now)))
  {
    CallKeepsSound(m.uw2f, Restore, now);
    var t := TakePCards(m, now);
    assert t.uw2f == m.uw2f || t.uw2f == m.uw2f.Restored(now);
  }

  /** The rest touches neither stopwatch nor the running of the clock, and no state of the match. */
  lemma OtherUiFrame(m: Match, ui: Ui, now: int)
    requires !ui.StartClock? && !ui.StopClock? && !ui.ResetMatch? && !ui.NextPeriod? && !ui.SideKey?
    requires !ui.PCard? && !ui.PCardUndo? && !ui.RestorePassivity?
    ensures var e := Act(m, ui, now);
            e.uw2f == m.uw2f && e.clock.running == m.clock.running && e.period.state == m.period.state
  {
  }

  lemma SameWatchKeeps(m: Match, e: Match)
    requires Inv(m) && e.uw2f == m.uw2f && e.clock.running == m.clock.running && e.period.state == m.period.state
    ensures Inv(e)
  {
  }

  lemma WatchUiKeeps(m: Match, ui: Ui, now: int)
    requires Inv(m) && !m.clock.running && (ui.PCard? || ui.PCardUndo? || ui.RestorePassivity?)
    ensures Inv(Act(m, ui, now))
  {
    match ui {
      case PCard => PCardKeeps(m, now);
      case _ => RestoredKeeps(m, now);
    }
  }

  lemma ClockUiIs(m: Match, ui: Ui, now: int)
    ensures ui.StartClock? ==> Act(m, ui, now) == StartBout(m, now)
    ensures ui.StopClock? ==> Act(m, ui, now) == StopBout(m, now)
    ensures ui.ResetMatch? ==> Act(m, ui, now) == ResetAll(m, now)
    ensures ui.NextPeriod? ==> Act(m, ui, now) == EndPeriod(m, now)
  {
  }

  lemma SameKeeps(m: Match, e: Match)
    requires Inv(m) && e == m
    ensures Inv(e)
  {
  }

  lemma ClockUiKeeps(m: Match, ui: Ui, now: int)
    requires Inv(m) && !m.clock.running && (ui.StartClock? || ui.StopClock? || ui.ResetMatch? || ui.NextPeriod?)
    ensures Inv(Act(m, ui, now))
  {
    ClockUiIs(m, ui, now);
    if ui.StartClock? {
      StartKeeps(m, now);
      SameKeeps(StartBout(m, now), Act(m, ui, now));
    } else if ui.StopClock? {
      StopKeeps(m, now);
      SameKeeps(StopBout(m, now), Act(m, ui, now));
    } else if ui.ResetMatch? {
      ResetAllKeeps(m, now);
      SameKeeps(ResetAll(m, now), Act(m, ui, now));
    } else {
      EndPeriodKeeps(m, now);
      SameKeeps(EndPeriod(m, now), Act(m, ui, now));
    }
  }

  lemma ActKeeps(m: Match, ui: Ui, now: int)
    requires Inv(m) && !m.clock.running
    ensures Inv(Act(m, ui, now))
  {
    if ui.SideKey? {
      KeyKeeps(m, ui.side, ui.key, now);
    } else if ui.PCard? || ui.PCardUndo? || ui.RestorePassivity? {
      WatchUiKeeps(m, ui, now);
    } else if ui.StartClock? || ui.StopClock? || ui.ResetMatch? || ui.NextPeriod? {
      ClockUiKeeps(m, ui, now);
    } else {
      OtherUiFrame(m, ui, now);
      SameWatchKeeps(m, Act(m, ui, now));
    }
  }

  lemma ClockTickKeeps(m: Match, now: int)
    requires Inv(m)
    ensures Inv(ClockTick(m, now))
  {
    var t := Tick(m.clock);
    var s := m.(clock := t.clock);
    assert t.clock.running == m.clock.running || (t.changed && t.clock.ReachedZero());
    if t.changed && t.clock.ReachedZero() {
      StopKeeps(s, now);
      EndPeriodKeeps(StopBout(s, now), now);
    }
  }

  lemma HaltKeeps(m: Match, now: int)
    requires Inv(m)
    ensures Inv(HaltOnHit(m, now))
  {
    CallKeepsSound(m.uw2f, Reset, now);
  }

  lemma LightsTickKeeps(m: Match, now: int)
    requires Inv(m)
    ensures Inv(LightsTick(m, now))
  {
    var c := m.(lightsChanged := false);
    assert Inv(c);
    var h := if Red in m.lights || Green in m.lights then HaltOnHit(c, now) else c;
    HaltKeeps(c, now);
    HaltKeeps(h, now);
  }

  lemma UpdateKeeps(m: Match, isUi: bool, ui: Ui, now: int)
    requires Inv(m)
    ensures Inv(Update(m, isUi, ui, now))
  {
    ResetAllKeeps(m, now);
    StopKeeps(m, now);
    if !m.clock.running {
      ActKeeps(m, if ui == ToggleClock then StartClock else ui, now);
    }
  }

  lemma StepKeeps(m: Match, t: Timed)
    requires Inv(m)
    ensures Inv(Step(m, t))
  {
    match t.input {
      case UiWord(w) => UpdateKeeps(m, w / DATA * DATA == EVENT_UI_INPUT, UiOf(w % DATA), t.now);
      case TimerTick =>
        ClockTickKeeps(m, t.now);
        LightsTickKeeps(PassivityTick(ClockTick(m, t.now), t.now), t.now);
      case _ =>
    }
  }

  /** In every run the clock stands still once the match has ended, the passivity stopwatch runs
      only while the clock does, and it shows exactly the sum of its run intervals since the last
      reset: it is never started while running, which would lose time. */
  lemma {:induction false} PassivityIsSumOfIntervals(m: Match, run: seq<Timed>, n: nat, now: int)
    requires n <= |run| && Inv(m)
    ensures var s := StateAt(m, run, n);
            && Inv(s)
            && s.uw2f.watch.Elapsed(now) == RunTime(s.uw2f.log, now)
            && s.uw2f.watch.backup == LastHeld(s.uw2f.log)
  {
    if n > 0 {
      PassivityIsSumOfIntervals(m, run, n - 1, now);
      StepKeeps(StateAt(m, run, n - 1), run[n - 1]);
    }
    ShowsRunTime(StateAt(m, run, n).uw2f.log, now);
  }

  // ---- Periods ----

  /** The input leaves the format of the match alone: no reset and no change of the number of rounds. */
  predicate KeepsFormat(m: Match, i: Input) {
    i.UiWord? ==>
      var ui := UiOf(i.word % DATA);
      ui != ResetMatch && (m.locked || m.clock.running || ui != Round)
  }

  ghost predicate KeepsFormatUpTo(m: Match, run: seq<Timed>, n: nat)
    requires n <= |run|
  {
    forall k: nat | k < n :: KeepsFormat(StateAt(m, run, k), run[k].input)
  }

  /** How many period changes can still come. */
  function Rank(p: Period): nat {
    var left := if p.round < p.rounds then p.rounds - p.round else 0;
    match p.state
    case Fighting => if p.rounds == 9 then left + 2 else 2 * left + 2
    case Break => if left == 0 then 3 else if p.rounds == 9 then left + 2 else 2 * left + 1
    case AdditionalMinute => 1
    case MatchEnded => 0
    case _ => 3
  }

  predicate Played(t: TimerState) { t != Injury && t != UndefinedTimerState }

  /** Within one format, a step keeps the period or moves strictly down. */
  predicate Downward(a: Period, b: Period) {
    && b.rounds == a.rounds && (a == b || Rank(b) < Rank(a))
    && (Played(a.state) ==> Played(b.state)) && (a.state == MatchEnded ==> b == a)
  }

  lemma EndPeriodDown(m: Match, now: int)
    ensures Downward(m.period, EndPeriod(m, now).period)
    ensures m.period.state in {Fighting, Break, AdditionalMinute} ==> Rank(EndPeriod(m, now).period) < Rank(m.period)
  {
  }

  lemma IncrementDown(m: Match, s: Side, now: int)
    ensures Downward(m.period, Increment(m, s, now).period)
  {
    EndPeriodDown(Point(m, s), now);
  }

  lemma DownwardSame(p: Period)
    ensures Downward(p, p)
  {
  }

  lemma DownwardTwice(p: Period, q: Period, r: Period)
    requires Downward(p, q) && Downward(q, r)
    ensures Downward(p, r)
  {
  }

  lemma AddPCardPeriod(m: Match, s: Side, now: int)
    ensures var f := m.Of(s);
            var t := m.Put(s, f.(pCard := f.pCard + 1));
            t.period == m.period && AddPCard(m, s, now).period == if f.pCard == 1 then Increment(t, Other(s), now).period else m.period
  {
  }

  lemma AddPCardDown(m: Match, s: Side, now: int)
    ensures Downward(m.period, AddPCard(m, s, now).period)
  {
    var f := m.Of(s);
    AddPCardPeriod(m, s, now);
    DownwardSame(m.period);
    IncrementDown(m.Put(s, f.(pCard := f.pCard + 1)), Other(s), now);
  }

  lemma GivePCardsDown(m: Match, now: int)
    ensures Downward(m.period, GivePCards(m, now).period)
  {
    var l := AddPCard(m, Left, now);
    if m.left.pCard == 2 {
      DownwardSame(m.period);
    } else {
      AddPCardDown(m, Left, now);
      AddPCardDown(l, Right, now);
      DownwardTwice(m.period, l.period, AddPCard(l, Right, now).period);
    }
  }

  lemma RedPeriod(m: Match, s: Side, now: int)
    ensures var t := m.Put(s, m.Of(s).(red := m.Of(s).red + 1)).(uw2f := m.uw2f.Cleared(now));
            t.period == m.period && KeyPressed(m, s, RedCard, now).period == Increment(t, Other(s), now).period
  {
  }

  lemma OtherKeysPeriod(m: Match, s: Side, key: Key, now: int)
    requires key != IncrScore && key != RedCard
    ensures KeyPressed(m, s, key, now).period == m.period
  {
  }

  lemma KeyDown(m: Match, s: Side, key: Key, now: int)
    ensures Downward(m.period, KeyPressed(m, s, key, now).period)
  {
    if key == IncrScore {
      IncrementDown(m, s, now);
    } else if key == RedCard {
      RedPeriod(m, s, now);
      IncrementDown(m.Put(s, m.Of(s).(red := m.Of(s).red + 1)).(uw2f := m.uw2f.Cleared(now)), Other(s), now);
    } else {
      OtherKeysPeriod(m, s, key, now);
      DownwardSame(m.period);
    }
  }

  lemma ActDown(m: Match, ui: Ui, now: int)
    requires ui != ResetMatch && ui != Round
    ensures Downward(m.period, Act(m, ui, now).period)
  {
    match ui {
      case NextPeriod => EndPeriodDown(m, now);
      case SideKey(s, key) => KeyDown(m, s, key, now);
      case PCard => GivePCardsDown(m, now);
      case _ => DownwardSame(m.period);
    }
  }

  lemma ClockTickDown(m: Match, now: int)
    ensures Downward(m.period, ClockTick(m, now).period)
  {
    EndPeriodDown(StopBout(m.(clock := Tick(m.clock).clock), now), now);
  }

  lemma MachineTickDown(m: Match, now: int)
    ensures Downward(m.period, MachineTick(m, now).period)
  {
    ClockTickDown(m, now);
    LightsKeepPeriod(PassivityTick(ClockTick(m, now), now), now);
  }

  lemma LightsKeepPeriod(m: Match, now: int)
    ensures LightsTick(m, now).period == m.period
  {
  }

  lemma UpdateDown(m: Match, isUi: bool, ui: Ui, now: int)
    requires ui != ResetMatch && (m.locked || m.clock.running || ui != Round)
    ensures Downward(m.period, Update(m, isUi, ui, now).period)
  {
    if ui != Round {
      ActDown(m, if ui == ToggleClock then StartClock else ui, now);
    }
  }

  lemma StepDown(m: Match, t: Timed)
    requires KeepsFormat(m, t.input)
    ensures Downward(m.period, Step(m, t).period)
  {
    match t.input {
      case UiWord(w) => UpdateDown(m, w / DATA * DATA == EVENT_UI_INPUT, UiOf(w % DATA), t.now);
      case TimerTick => MachineTickDown(m, t.now);
      case _ =>
    }
  }

  /** The periods that the first `n` steps go through. */
  ghost function Periods(m: Match, run: seq<Timed>, n: nat): seq<Period>
    requires n <= |run|
  {
    seq(n + 1, k requires 0 <= k <= n => StateAt(m, run, k).period)
  }

  /** How often the period changes. */
  function Changes(ps: seq<Period>): nat {
    if |ps| < 2 then 0 else Changes(ps[..|ps| - 1]) + if ps[|ps| - 1] == ps[|ps| - 2] then 0 else 1
  }

  lemma {:induction false} RankBoundsChanges(ps: seq<Period>)
    requires |ps| > 0 && forall k: nat | k < |ps| - 1 :: Downward(ps[k], ps[k + 1])
    ensures var end := ps[|ps| - 1];
            && Changes(ps) + Rank(end) <= Rank(ps[0])
            && end.rounds == ps[0].rounds && (Played(ps[0].state) ==> Played(end.state))
  {
    if |ps| > 1 {
      RankBoundsChanges(ps[..|ps| - 1]);
      assert Downward(ps[|ps| - 2], ps[|ps| - 2 + 1]);
    }
  }

  lemma StepsDown(m: Match, run: seq<Timed>, n: nat)
    requires n <= |run| && KeepsFormatUpTo(m, run, n)
    ensures forall k: nat | k < n :: Downward(Periods(m, run, n)[k], Periods(m, run, n)[k + 1])
  {
    forall k: nat | k < n
      ensures Downward(Periods(m, run, n)[k], Periods(m, run, n)[k + 1])
    {
      StepDown(StateAt(m, run, k), run[k]);
    }
  }

  /** From a reset, with `n` rounds, the match has ended after at most 2n period changes, and after
      n + 1 in the nine-round team format. */
  lemma MatchEndsInTime(m: Match, start: int, run: seq<Timed>, n: nat)
    requires n <= |run| && KeepsFormatUpTo(ResetAll(m, start), run, n) && m.period.rounds >= 1
    ensures var ps := Periods(ResetAll(m, start), run, n);
            var bound := if m.period.rounds == 9 then 10 else 2 * m.period.rounds;
            Changes(ps) <= bound && (Changes(ps) == bound ==> ps[n].state == MatchEnded)
  {
    StepsDown(ResetAll(m, start), run, n);
    RankBoundsChanges(Periods(ResetAll(m, start), run, n));
  }

  /** An ended match stays ended, with a clock that stands still, until a reset. */
  lemma {:induction false} EndedStaysEnded(m: Match, run: seq<Timed>, n: nat)
    requires n <= |run| && Inv(m) && m.period.state == MatchEnded
    requires forall k: nat | k < n :: run[k].input.UiWord? ==> UiOf(run[k].input.word % DATA) != ResetMatch
    ensures var s := StateAt(m, run, n); s.period.state == MatchEnded && !s.clock.running && Inv(s)
  {
    if n > 0 {
      var s, t := StateAt(m, run, n - 1), run[n - 1];
      EndedStaysEnded(m, run, n - 1);
      StepKeeps(s, t);
      if KeepsFormat(s, t.input) {
        StepDown(s, t);
      }
    }
  }

  // ---- The countdown as the machine sees it ----

  /** The machine after `n` undisturbed ticks. */
  function Ticking(m: Match, nows: seq<int>, n: nat): Match
    requires n <= |nows|
  {
    if n == 0 then m else MachineTick(Ticking(m, nows, n - 1), nows[n - 1])
  }

  lemma {:induction false} TicksCountDown(m: Match, nows: seq<int>, n: nat)
    requires n <= |nows| && !m.lightsChanged
    requires forall j: nat | 0 < j <= n :: !SeesZero(m.clock, j)
    ensures Ticking(m, nows, n).clock == AfterTicks(m.clock, n) && m.period == Ticking(m, nows, n).period
    ensures !Ticking(m, nows, n).lightsChanged
  {
    if n > 0 {
      TicksCountDown(m, nows, n - 1);
      assert !SeesZero(m.clock, n);
    }
  }

  lemma EndPeriodLights(m: Match, now: int)
    ensures EndPeriod(m, now).lightsChanged == m.lightsChanged && EndPeriod(m, now).clock.running == m.clock.running
  {
    EndPeriodFrame(m, now);
  }

  lemma ClockTickEnds(m: Match, now: int)
    requires !m.lightsChanged && m.period.state in {Fighting, Break, AdditionalMinute}
    requires Tick(m.clock).changed && Tick(m.clock).clock.ReachedZero()
    ensures var c := ClockTick(m, now); !c.clock.running && !c.lightsChanged && Rank(c.period) < Rank(m.period)
  {
    var s := StopBout(m.(clock := Tick(m.clock).clock), now);
    EndPeriodDown(s, now);
    EndPeriodLights(s, now);
  }

  lemma ZeroEndsPeriod(m: Match, now: int)
    requires !m.lightsChanged && m.period.state in {Fighting, Break, AdditionalMinute}
    requires Tick(m.clock).changed && Tick(m.clock).clock.ReachedZero()
    ensures !MachineTick(m, now).clock.running && Rank(MachineTick(m, now).period) < Rank(m.period)
  {
    ClockTickEnds(m, now);
  }

  lemma RunsUntilZero(m: Match, nows: seq<int>, n: nat)
    requires n <= |nows| && !m.lightsChanged && m.clock.running && TenMs(m.clock) && n <= m.clock.Value()
    requires forall j: nat | 0 < j <= n :: !SeesZero(m.clock, j)
    ensures var t := Ticking(m, nows, n);
            t.period == m.period && t.clock == AfterTicks(m.clock, n) && t.clock.running && !t.lightsChanged
  {
    TicksCountDown(m, nows, n);
    CountsDown(m.clock, n);
  }

  lemma LastTick(m: Match, nows: seq<int>, k: nat)
    requires 0 < k <= |nows| && SeesZero(m.clock, k) && m.period.state in {Fighting, Break, AdditionalMinute}
    requires var t := Ticking(m, nows, k - 1);
             t.period == m.period && t.clock == AfterTicks(m.clock, k - 1) && !t.lightsChanged
    ensures !Ticking(m, nows, k).clock.running && Rank(Ticking(m, nows, k).period) < Rank(m.period)
  {
    ZeroEndsPeriod(Ticking(m, nows, k - 1), nows[k - 1]);
  }

  /** A period that runs undisturbed from clock value V ends exactly once, on tick V or V + 1, as the
      display counter decides: until then the machine stays in the period with its clock running, and that
      tick stops the clock and takes the machine to the next period. */
  lemma PeriodEndsOnTime(m: Match, nows: seq<int>)
    requires m.clock.running && TenMs(m.clock) && !m.lightsChanged && |nows| == m.clock.Value() + 1
    requires m.period.state in {Fighting, Break, AdditionalMinute}
    ensures m.clock.Value() <= ZeroTick(m.clock) <= |nows|
    ensures forall j: nat | j < ZeroTick(m.clock) :: m.period == Ticking(m, nows, j).period && Ticking(m, nows, j).clock.running
    ensures var t := Ticking(m, nows, ZeroTick(m.clock)); !t.clock.running && Rank(t.period) < Rank(m.period)
  {
    var k := ZeroTick(m.clock);
    ZeroSeenOnce(m.clock);
    forall j: nat | j < k
      ensures m.period == Ticking(m, nows, j).period && Ticking(m, nows, j).clock.running
    {
      RunsUntilZero(m, nows, j);
    }
    RunsUntilZero(m, nows, k - 1);
    assert SeesZero(m.clock, k);
    LastTick(m, nows, k);
  }
}
