/**
 The automatic referee: a nine-state machine fed by a queue of events and by the passage of
 time, which sends commands to the match machine.
 */
module AutoRef {
  import opened Wrappers
  import opened Fencing
  import LongHit
  import DoubleHit

  const CONFIRMATION_TIMEOUT := 15000
  const POST_AWARD_DELAY := 5000
  const POST_OFF_TARGET_DELAY := 1000
  const EGPA_DURATION := 4000
  const PERIOD_END_DELAY := 6000
  const UW2F_PCARD_DELAY := 2000
  const UW2F_RESUME_DELAY := 2000

  datatype Phase = Armed | WaitingForLightsOff | AwaitingConfirmation | Awarding | Egpa
                 | PeriodEnd | Uw2fPCardWait | Uw2fResumeWait | MatchOver

  datatype Command = StartTimer | StopTimer | ResetMatch | IncrLeft | IncrRight | DecrLeft | DecrRight | Prio | PCard

  datatype Event = Lights(mask: Mask)
                 | LongPress(hit: LongHit.Event)
                 | DoubleTap(hits: DoubleHit.Hits)
                 | TimerZero(timerState: TimerState, isLastRound: bool, scoresEqual: bool)
                 | BlackCard
                 | PassivityMark

  /** What the getters of the match machine answer at one moment. */
  datatype Bout = Bout(weapon: Weapon, timerState: TimerState, scoreLeft: int, scoreRight: int, rounds: int) {
    function MaxScore(): int { rounds * 5 }
    predicate Over() { (scoreLeft >= MaxScore() || scoreRight >= MaxScore()) && scoreLeft != scoreRight }
    /** A double hit now scores for nobody. */
    predicate DoubleIsVoid() {
      timerState == AdditionalMinute || (scoreLeft >= MaxScore() - 1 && scoreRight >= MaxScore() - 1)
    }
  }

  /** One turn of the referee's loop: at most one queued event, the tick count in ms, and the match
      machine as it answers while the event and while the timeouts are handled. */
  datatype Input = Input(event: Option<Event>, now: nat, atEvent: Bout, atTimeout: Bout)

  /** `enteredAt` is the full tick count; the firmware keeps it modulo 2^32. */
  datatype State = State(enabled: bool, phase: Phase, enteredAt: nat, prevLights: Mask, peakLights: Mask, offTarget: bool)

  datatype Outcome = Outcome(state: State, sent: seq<Command>)

  const WORD := 0x1_0000_0000

  /** `now - m_stateEnteredAt` on 32-bit words. */
  function Elapsed(now: int, since: int): int {
    (now - since) % WORD
  }

  // ---- The handlers, as functions of the state ----

  function Enter(s: State, phase: Phase, now: nat): State { s.(phase := phase, enteredAt := now) }

  function Dark(s: State): State { s.(prevLights := {}, peakLights := {}) }

  function Continue(s: State, now: nat): State { Dark(Enter(s, Awarding, now)) }

  function Award(s: State, left: bool, right: bool, now: nat): Outcome {
    Outcome(Continue(s.(offTarget := false), now),
            (if left then [IncrLeft] else []) + (if right then [IncrRight] else []))
  }

  function Decide(s: State, now: nat, b: Bout): Outcome {
    var red, green := Red in s.peakLights, Green in s.peakLights;
    var whiteL, whiteR := WhiteL in s.peakLights, WhiteR in s.peakLights;
    match b.weapon
    case Epee =>
      if red && green && b.DoubleIsVoid() then Outcome(Continue(s.(offTarget := true), now), [])
      else if red || green then Award(s, red, green, now)
      else Outcome(s.(phase := Armed), [])
    case Foil =>
      if !red && !green then Outcome(Continue(s.(offTarget := true), now), [])
      else if (red && green) || (red && whiteR) || (green && whiteL) then Outcome(Enter(s, AwaitingConfirmation, now), [])
      else Award(s, red, green, now)
    case Sabre =>
      if red && green then Outcome(Enter(s, AwaitingConfirmation, now), [])
      else if red || green then Award(s, red, green, now)
      else Outcome(s.(phase := Armed), [])
    case UnknownWeapon => Outcome(s.(phase := Armed), [])
  }

  function Confirm(s: State, lights: Mask, now: nat): Outcome {
    var rising := lights - s.prevLights;
    var newLeft, newRight := rising * {Red, WhiteL} != {}, rising * {Green, WhiteR} != {};
    if newLeft && !newRight then
      if Red in s.peakLights then Award(s, true, false, now) else Outcome(Continue(s, now), [])
    else if newRight && !newLeft then
      if Green in s.peakLights then Award(s, false, true, now) else Outcome(Continue(s, now), [])
    else Outcome(s, [])
  }

  function OnLights(s: State, lights: Mask, now: nat, b: Bout): Outcome {
    var o :=
      match s.phase
      case Armed =>
        if Red in lights || Green in lights || WhiteL in lights || WhiteR in lights
        then Outcome(s.(peakLights := lights, phase := WaitingForLightsOff), []) else Outcome(s, [])
      case WaitingForLightsOff =>
        var s' := s.(peakLights := s.peakLights + lights);
        if lights == {} then Decide(s', now, b) else Outcome(s', [])
      case AwaitingConfirmation => Confirm(s, lights, now)
      case Awarding => Outcome(s.(peakLights := s.peakLights + lights), [])
      case _ => Outcome(s, []);
    o.(state := o.state.(prevLights := lights))
  }

  function OnLongPress(s: State, hit: LongHit.Event, now: nat): Outcome {
    if !hit.isDouble || !hit.bits.vl || !hit.bits.vr then Outcome(s, [])
    else if !s.enabled then Outcome(Dark(Enter(s.(enabled := true), Awarding, now)), [])
    else Outcome(Dark(Enter(s, PeriodEnd, now)), [ResetMatch])
  }

  function OnDoubleTap(s: State, hits: DoubleHit.Hits): Outcome {
    if s.phase != Awarding then Outcome(s, [])
    else Outcome(s, (if hits.validL then [DecrLeft] else []) + (if hits.validR then [DecrRight] else []))
  }

  function OnTimerZero(s: State, t: TimerState, isLastRound: bool, scoresEqual: bool, now: nat): Outcome {
    match t
    case Fighting =>
      var o := if !isLastRound then Outcome(s, [StartTimer])
               else if scoresEqual then Outcome(Enter(s, PeriodEnd, now), [Prio])
               else Outcome(s, []);
      if scoresEqual then o else o.(state := o.state.(phase := MatchOver))
    case Break => Outcome(Enter(s, PeriodEnd, now), [])
    case AdditionalMinute => Outcome(s.(phase := MatchOver), [])
    case _ => Outcome(s, [])
  }

  function OnPassivityMark(s: State, now: nat): Outcome {
    Outcome(Dark(Enter(s, Uw2fPCardWait, now)), [StopTimer])
  }

  function Timeouts(s: State, now: nat, b: Bout): Outcome {
    var elapsed := Elapsed(now, s.enteredAt);
    match s.phase
    case AwaitingConfirmation =>
      if elapsed >= CONFIRMATION_TIMEOUT then Outcome(Dark(Enter(s, Egpa, now)), []) else Outcome(s, [])
    case Awarding =>
      if elapsed < (if s.offTarget then POST_OFF_TARGET_DELAY else POST_AWARD_DELAY) then Outcome(s, [])
      else if !s.offTarget && (b.Over() || (b.timerState == AdditionalMinute && b.scoreLeft != b.scoreRight))
      then Outcome(s.(phase := MatchOver), [])
      else if b.timerState == Break then Outcome(Dark(s.(phase := Armed)), [])
      else Outcome(Enter(s, Egpa, now), [])
    case Egpa =>
      if elapsed < EGPA_DURATION then Outcome(s, [])
      else Outcome(Dark(s.(phase := Armed)), if b.weapon != Sabre then [StartTimer] else [])
    case PeriodEnd =>
      if elapsed < PERIOD_END_DELAY then Outcome(s, []) else Outcome(Dark(s.(phase := Armed)), [StartTimer])
    case Uw2fPCardWait =>
      if elapsed < UW2F_PCARD_DELAY then Outcome(s, []) else Outcome(Enter(s, Uw2fResumeWait, now), [PCard])
    case Uw2fResumeWait =>
      if elapsed < UW2F_RESUME_DELAY then Outcome(s, []) else Outcome(Enter(s, PeriodEnd, now), [])
    case _ => Outcome(s, [])
  }

  function OnEvent(s: State, e: Event, now: nat, b: Bout): Outcome {
    match e
    case Lights(mask) => OnLights(s, mask, now, b)
    case LongPress(hit) => OnLongPress(s, hit, now)
    case DoubleTap(hits) => OnDoubleTap(s, hits)
    case TimerZero(t, isLast, equal) => OnTimerZero(s, t, isLast, equal, now)
    case BlackCard => Outcome(s.(phase := MatchOver), [])
    case PassivityMark => if s.phase == MatchOver then Outcome(s, []) else OnPassivityMark(s, now)
  }

  function Step(s: State, i: Input): Outcome {
    if !s.enabled then
      match i.event
      case Some(LongPress(hit)) => OnLongPress(s, hit, i.now)
      case _ => Outcome(s, [])
    else
      var o := match i.event case Some(e) => OnEvent(s, e, i.now, i.atEvent) case None => Outcome(s, []);
      var t := Timeouts(o.state, i.now, i.atTimeout);
      Outcome(t.state, o.sent + t.sent)
  }

  // ---- The machine ----

  lemma WordDifference(now: nat, since: nat)
    ensures (now % WORD - since % WORD) % WORD == Elapsed(now, since)
  {
  }

  class AutoRefTask {
    var enabled: bool
    var phase: Phase
    var stateEnteredAt: int  // a 32-bit word
    ghost var enteredAt: nat
    var prevLights: Mask
    var peakLights: Mask
    var isOffTargetContinue: bool

    ghost predicate Valid()
      reads this
    {
      stateEnteredAt == enteredAt % WORD
    }

    ghost function View(): State
      reads this
    {
      State(enabled, phase, enteredAt, prevLights, peakLights, isOffTargetContinue)
    }

    constructor ()
      ensures Valid() && View() == State(false, Armed, 0, {}, {}, false)
    {
      enabled, phase, stateEnteredAt, enteredAt := false, Armed, 0, 0;
      prevLights, peakLights, isOffTargetContinue := {}, {}, false;
    }

    method Turn(i: Input) returns (sent: seq<Command>)
      requires Valid()
      modifies this
      ensures Valid() && Outcome(View(), sent) == Step(old(View()), i)
    {
      sent := [];
      if !enabled {
        if i.event.Some? && i.event.value.LongPress? {
          sent := HandleLongPress(i.event.value.hit, i.now);
        }
        return;
      }
      if i.event.Some? {
        match i.event.value {
          case Lights(mask) => sent := ProcessLights(mask, i.now, i.atEvent);
          case LongPress(hit) => sent := HandleLongPress(hit, i.now);
          case DoubleTap(hits) => sent := HandleDoubleHit(hits);
          case TimerZero(t, isLast, equal) => sent := HandleTimerZero(t, isLast, equal, i.now);
          case BlackCard => phase := MatchOver;
          case PassivityMark =>
            if phase != MatchOver {
              sent := HandlePassivityMark(i.now);
            }
        }
      }
      var more := CheckTimeouts(i.now, i.atTimeout);
      sent := sent + more;
    }

    method EnterPhase(p: Phase, now: nat)
      modifies `phase, `stateEnteredAt, `enteredAt
      ensures Valid() && View() == Enter(old(View()), p, now)
    {
      phase, stateEnteredAt, enteredAt := p, now % WORD, now;
    }

    method ContinueMatch(now: nat)
      modifies this
      ensures Valid() && View() == Continue(old(View()), now)
    {
      EnterPhase(Awarding, now);
      prevLights, peakLights := {}, {};
    }

    method SendAward(left: bool, right: bool, now: nat) returns (sent: seq<Command>)
      modifies this
      ensures Valid() && Outcome(View(), sent) == Award(old(View()), left, right, now)
    {
      sent := [];
      if left { sent := sent + [IncrLeft]; }
      if right { sent := sent + [IncrRight]; }
      isOffTargetContinue := false;
      ContinueMatch(now);
    }

    method ProcessLights(lights: Mask, now: nat, b: Bout) returns (sent: seq<Command>)
      requires Valid()
      modifies this
      ensures Valid() && Outcome(View(), sent) == OnLights(old(View()), lights, now, b)
    {
      sent := [];
      match phase {
        case Armed =>
          if Red in lights || Green in lights || WhiteL in lights || WhiteR in lights {
            peakLights := lights;
            phase := WaitingForLightsOff;
          }
        case WaitingForLightsOff =>
          peakLights := peakLights + lights;
          if lights == {} {
            sent := ProcessDecision(now, b);
          }
        case AwaitingConfirmation => sent := ProcessConfirmation(lights, now);
        case Awarding => peakLights := peakLights + lights;
        case _ =>
      }
      prevLights := lights;
    }

    method ProcessDecision(now: nat, b: Bout) returns (sent: seq<Command>)
      requires Valid()
      modifies this
      ensures Valid() && Outcome(View(), sent) == Decide(old(View()), now, b)
    {
      sent := [];
      var red, green := Red in peakLights, Green in peakLights;
      var whiteL, whiteR := WhiteL in peakLights, WhiteR in peakLights;
      match b.weapon {
        case Epee =>
          if red && green && b.DoubleIsVoid() {
            isOffTargetContinue := true;
            ContinueMatch(now);
          } else if red || green {
            sent := SendAward(red, green, now);
          } else {
            phase := Armed;
          }
        case Foil =>
          if !red && !green {
            isOffTargetContinue := true;
            ContinueMatch(now);
          } else if (red && green) || (red && whiteR) || (green && whiteL) {
            EnterPhase(AwaitingConfirmation, now);
          } else if red {
            sent := SendAward(true, false, now);
          } else {
            sent := SendAward(false, true, now);
          }
        case Sabre =>
          if red && green {
            EnterPhase(AwaitingConfirmation, now);
          } else if red {
            sent := SendAward(true, false, now);
          } else if green {
            sent := SendAward(false, true, now);
          } else {
            phase := Armed;
          }
        case UnknownWeapon => phase := Armed;
      }
    }

    method ProcessConfirmation(lights: Mask, now: nat) returns (sent: seq<Command>)
      requires Valid()
      modifies this
      ensures Valid() && Outcome(View(), sent) == Confirm(old(View()), lights, now)
    {
      sent := [];
      var risingEdge := lights - prevLights;
      var newLeft, newRight := risingEdge * {Red, WhiteL} != {}, risingEdge * {Green, WhiteR} != {};
      if newLeft && !newRight {
        if Red in peakLights {
          sent := SendAward(true, false, now);
        } else {
          ContinueMatch(now);
        }
      } else if newRight && !newLeft {
        if Green in peakLights {
          sent := SendAward(false, true, now);
        } else {
          ContinueMatch(now);
        }
      }
    }

    method HandleLongPress(hit: LongHit.Event, now: nat) returns (sent: seq<Command>)
      requires Valid()
      modifies this
      ensures Valid() && Outcome(View(), sent) == OnLongPress(old(View()), hit, now)
    {
      sent := [];
      if !hit.isDouble {
        return;
      }
      if !hit.bits.vl || !hit.bits.vr {
        return;
      }
      if !enabled {
        enabled := true;
        EnterPhase(Awarding, now);
      } else {
        sent := [ResetMatch];
        EnterPhase(PeriodEnd, now);
      }
      prevLights, peakLights := {}, {};
    }

    method HandleDoubleHit(hits: DoubleHit.Hits) returns (sent: seq<Command>)
      ensures sent == OnDoubleTap(View(), hits).sent
    {
      sent := [];
      if phase == Awarding {
        if hits.validL { sent := sent + [DecrLeft]; }
        if hits.validR { sent := sent + [DecrRight]; }
      }
    }

    method HandleTimerZero(t: TimerState, isLastRound: bool, scoresEqual: bool, now: nat) returns (sent: seq<Command>)
      requires Valid()
      modifies this
      ensures Valid() && Outcome(View(), sent) == OnTimerZero(old(View()), t, isLastRound, scoresEqual, now)
    {
      sent := [];
      match t {
        case Fighting =>
          if !isLastRound {
            sent := [StartTimer];
          } else if scoresEqual {
            sent := [Prio];
            EnterPhase(PeriodEnd, now);
          }
          if !scoresEqual {
            phase := MatchOver;
          }
        case Break => EnterPhase(PeriodEnd, now);
        case AdditionalMinute => phase := MatchOver;
        case _ =>
      }
    }

    method HandlePassivityMark(now: nat) returns (sent: seq<Command>)
      modifies this
      ensures Valid() && Outcome(View(), sent) == OnPassivityMark(old(View()), now)
    {
      sent := [StopTimer];
      EnterPhase(Uw2fPCardWait, now);
      prevLights, peakLights := {}, {};
    }

    method CheckTimeouts(now: nat, b: Bout) returns (sent: seq<Command>)
      requires Valid()
      modifies this
      ensures Valid() && Outcome(View(), sent) == Timeouts(old(View()), now, b)
    {
      sent := [];
      WordDifference(now, enteredAt);
      var elapsed := (now % WORD - stateEnteredAt) % WORD;
      match phase {
        case AwaitingConfirmation =>
          if elapsed >= CONFIRMATION_TIMEOUT {
            EnterPhase(Egpa, now);
            prevLights, peakLights := {}, {};
          }
        case Awarding =>
          var delay := if isOffTargetContinue then POST_OFF_TARGET_DELAY else POST_AWARD_DELAY;
          if elapsed >= delay {
            var inOvertime := b.timerState == AdditionalMinute;
            var matchDone := !isOffTargetContinue && (b.Over() || (inOvertime && b.scoreLeft != b.scoreRight));
            if matchDone {
              phase := MatchOver;
            } else if b.timerState == Break {
              phase := Armed;
              prevLights, peakLights := {}, {};
            } else {
              EnterPhase(Egpa, now);
            }
          }
        case Egpa =>
          if elapsed >= EGPA_DURATION {
            if b.weapon != Sabre {
              sent := [StartTimer];
            }
            phase := Armed;
            prevLights, peakLights := {}, {};
          }
        case PeriodEnd =>
          if elapsed >= PERIOD_END_DELAY {
            sent := [StartTimer];
            phase := Armed;
            prevLights, peakLights := {}, {};
          }
        case Uw2fPCardWait =>
          if elapsed >= UW2F_PCARD_DELAY {
            sent := [PCard];
            EnterPhase(Uw2fResumeWait, now);
          }
        case Uw2fResumeWait =>
          if elapsed >= UW2F_RESUME_DELAY {
            EnterPhase(PeriodEnd, now);
          }
        case _ =>
      }
    }
  }

  // ---- Runs ----

  function StateAt(s: State, run: seq<Input>, n: nat): State
    requires n <= |run|
  {
    if n == 0 then s else Step(StateAt(s, run, n - 1), run[n - 1]).state
  }

  function SentAt(s: State, run: seq<Input>, k: nat): seq<Command>
    requires k < |run|
  {
    Step(StateAt(s, run, k), run[k]).sent
  }

  predicate Awards(sent: seq<Command>) { IncrLeft in sent || IncrRight in sent }

  function LightsOf(i: Input): Mask {
    match i.event
    case Some(Lights(mask)) => mask
    case _ => {}
  }

  /** The OR of all lights received since the referee last left Armed. */
  function Seen(s: State, run: seq<Input>, n: nat): Mask
    requires n <= |run|
  {
    if n == 0 then {}
    else if StateAt(s, run, n - 1).phase == Armed then LightsOf(run[n - 1])
    else Seen(s, run, n - 1) + LightsOf(run[n - 1])
  }

  predicate InEpisode(s: State) { s.phase == WaitingForLightsOff || s.phase == AwaitingConfirmation }

  /** The lights a hit is judged by: those accumulated so far, and in the waiting phase the new ones. */
  function Judged(s: State, lights: Mask): Mask {
    if s.phase == WaitingForLightsOff then s.peakLights + lights else s.peakLights
  }

  /** What an award looks like: the commands, the lights behind them, and the phase it leaves. */
  predicate FairAward(o: Outcome, judged: Mask, b: Bout, waiting: bool, now: nat) {
    && (o.sent == [IncrLeft] || o.sent == [IncrRight] || o.sent == [IncrLeft, IncrRight])
    && (IncrLeft in o.sent ==> Red in judged) && (IncrRight in o.sent ==> Green in judged)
    && (o.sent == [IncrLeft, IncrRight] ==> waiting && b.weapon == Epee && !b.DoubleIsVoid())
    && o.state.enabled && o.state.phase == Awarding && o.state.enteredAt == now && !o.state.offTarget
  }

  lemma DecideIsFair(s: State, now: nat, b: Bout)
    requires s.enabled && Awards(Decide(s, now, b).sent)
    ensures FairAward(Decide(s, now, b), s.peakLights, b, true, now)
  {
  }

  lemma LightsAreFair(s: State, lights: Mask, now: nat, b: Bout)
    requires s.enabled && Awards(OnLights(s, lights, now, b).sent)
    ensures InEpisode(s) && FairAward(OnLights(s, lights, now, b), Judged(s, lights), b, s.phase == WaitingForLightsOff, now)
  {
    if s.phase == WaitingForLightsOff {
      DecideIsFair(s.(peakLights := s.peakLights + lights), now, b);
    }
  }

  lemma TimeoutsAwardNothing(s: State, now: nat, b: Bout)
    ensures !Awards(Timeouts(s, now, b).sent)
  {
  }

  lemma EventAwards(s: State, e: Event, now: nat, b: Bout)
    requires Awards(OnEvent(s, e, now, b).sent)
    ensures e.Lights?
  {
  }

  lemma OnlyLightsAward(s: State, i: Input)
    requires Awards(Step(s, i).sent)
    ensures s.enabled && i.event.Some? && i.event.value.Lights?
    ensures Awards(OnLights(s, LightsOf(i), i.now, i.atEvent).sent)
  {
    if s.enabled {
      var o := match i.event case Some(e) => OnEvent(s, e, i.now, i.atEvent) case None => Outcome(s, []);
      TimeoutsAwardNothing(o.state, i.now, i.atTimeout);
      if i.event.Some? {
        EventAwards(s, i.event.value, i.now, i.atEvent);
      }
    }
  }

  /** A step that awards anything starts inside an episode, sends nothing but the award, gives a
      side its point only for its own judged light, gives both sides a point only in epee when a
      double counts, and ends in Awarding. */
  lemma AwardStep(s: State, i: Input)
    requires Awards(Step(s, i).sent)
    ensures s.enabled && InEpisode(s) && i.event.Some? && i.event.value.Lights?
    ensures FairAward(Step(s, i), Judged(s, LightsOf(i)), i.atEvent, s.phase == WaitingForLightsOff, i.now)
  {
    OnlyLightsAward(s, i);
    LightsAreFair(s, LightsOf(i), i.now, i.atEvent);
    var o := OnLights(s, LightsOf(i), i.now, i.atEvent);
    assert Timeouts(o.state, i.now, i.atTimeout) == Outcome(o.state, []);
  }

  lemma EventStaysOut(s: State, e: Event, now: nat, b: Bout)
    requires s.phase != Armed && !InEpisode(s)
    ensures OnEvent(s, e, now, b).state.phase != Armed && !InEpisode(OnEvent(s, e, now, b).state)
  {
  }

  /** Outside Armed and outside an episode, no step enters an episode. */
  lemma EpisodesStartArmed(s: State, i: Input)
    requires s.phase != Armed && !InEpisode(s)
    ensures !InEpisode(Step(s, i).state)
  {
    if i.event.Some? {
      EventStaysOut(s, i.event.value, i.now, i.atEvent);
    }
    if s.enabled && InEpisode(Step(s, i).state) {
      var o := match i.event case Some(e) => OnEvent(s, e, i.now, i.atEvent) case None => Outcome(s, []);
      TimeoutsKeepPeak(o.state, i.now, i.atTimeout);
    }
  }

  lemma {:induction false} PeakWasSeen(s: State, run: seq<Input>, n: nat)
    requires n <= |run| && !InEpisode(s) && InEpisode(StateAt(s, run, n))
    ensures StateAt(s, run, n).peakLights <= Seen(s, run, n)
  {
    if n > 0 {
      var before := StateAt(s, run, n - 1);
      if InEpisode(before) {
        PeakWasSeen(s, run, n - 1);
      } else if before.phase != Armed {
        EpisodesStartArmed(before, run[n - 1]);
      }
      PeakStep(before, run[n - 1]);
    }
  }

  lemma LightsPeak(s: State, lights: Mask, now: nat, b: Bout)
    requires (s.phase == Armed || InEpisode(s)) && InEpisode(OnLights(s, lights, now, b).state)
    ensures OnLights(s, lights, now, b).state.peakLights <= (if s.phase == Armed then lights else s.peakLights + lights)
  {
  }

  lemma OthersKeepPeak(s: State, e: Event, now: nat, b: Bout)
    requires !e.Lights? && InEpisode(OnEvent(s, e, now, b).state)
    ensures InEpisode(s) && OnEvent(s, e, now, b).state.peakLights == s.peakLights
  {
  }

  lemma TimeoutsKeepPeak(s: State, now: nat, b: Bout)
    requires InEpisode(Timeouts(s, now, b).state)
    ensures InEpisode(s) && Timeouts(s, now, b).state == s
  {
  }

  lemma PeakStep(s: State, i: Input)
    requires s.phase == Armed || InEpisode(s)
    requires InEpisode(Step(s, i).state)
    ensures Step(s, i).state.peakLights <= (if s.phase == Armed then LightsOf(i) else s.peakLights + LightsOf(i))
  {
    if s.enabled {
      var o := match i.event case Some(e) => OnEvent(s, e, i.now, i.atEvent) case None => Outcome(s, []);
      TimeoutsKeepPeak(o.state, i.now, i.atTimeout);
      match i.event {
        case Some(Lights(mask)) => LightsPeak(s, mask, i.now, i.atEvent);
        case Some(e) => OthersKeepPeak(s, e, i.now, i.atEvent);
        case None =>
      }
    }
  }

  /** A side is sent a point only if its coloured light was on in some light report since the
      referee last left Armed. */
  lemma PointsHaveLights(s: State, run: seq<Input>, k: nat)
    requires k < |run| && !InEpisode(s)
    ensures IncrLeft in SentAt(s, run, k) ==> Red in Seen(s, run, k + 1)
    ensures IncrRight in SentAt(s, run, k) ==> Green in Seen(s, run, k + 1)
  {
    if Awards(SentAt(s, run, k)) {
      AwardStep(StateAt(s, run, k), run[k]);
      PeakWasSeen(s, run, k);
    }
  }

  lemma {:induction false} StaysOut(s: State, run: seq<Input>, i: nat, n: nat)
    requires i <= n <= |run| && !InEpisode(StateAt(s, run, i))
    requires forall m: nat | i <= m < n :: StateAt(s, run, m).phase != Armed
    ensures !InEpisode(StateAt(s, run, n))
    decreases n - i
  {
    if i < n {
      NextOutOfEpisode(s, run, i);
      StaysOut(s, run, i + 1, n);
    }
  }

  lemma OutOfEpisode(s: State, run: seq<Input>, i: nat, n: nat)
    requires i < n <= |run| && Awards(SentAt(s, run, i))
    requires forall m: nat | i < m < n :: StateAt(s, run, m).phase != Armed
    ensures !InEpisode(StateAt(s, run, n))
  {
    AwardStep(StateAt(s, run, i), run[i]);
    StaysOut(s, run, i + 1, n);
  }

  lemma NextOutOfEpisode(s: State, run: seq<Input>, n: nat)
    requires n < |run| && !InEpisode(StateAt(s, run, n)) && StateAt(s, run, n).phase != Armed
    ensures !InEpisode(StateAt(s, run, n + 1))
  {
    EpisodesStartArmed(StateAt(s, run, n), run[n]);
  }

  /** Each episode awards in at most one step: between two awarding steps the referee was Armed. */
  lemma OneAwardPerEpisode(s: State, run: seq<Input>, i: nat, j: nat)
    requires i < j < |run| && Awards(SentAt(s, run, i)) && Awards(SentAt(s, run, j))
    ensures exists m: nat :: i < m < j && StateAt(s, run, m).phase == Armed
  {
    AwardStep(StateAt(s, run, j), run[j]);
    if forall m: nat | i < m < j :: StateAt(s, run, m).phase != Armed {
      OutOfEpisode(s, run, i, j);
    }
  }

  ghost predicate Monotone(run: seq<Input>) {
    forall i: nat, j: nat | i <= j < |run| :: run[i].now <= run[j].now
  }

  /** What holds at time `now` in every state after an award at time `t`. */
  predicate AfterAward(s: State, t: int, now: int) {
    && t <= s.enteredAt <= now
    && (s.phase == Armed || InEpisode(s) || s.phase == Egpa || s.offTarget ==> t + POST_AWARD_DELAY <= now)
  }

  lemma WordElapsed(now: int, since: int)
    requires since <= now
    ensures Elapsed(now, since) <= now - since
  {
  }

  lemma AfterAwardEvent(s: State, e: Event, t: int, now: nat, b: Bout)
    requires AfterAward(s, t, now)
    ensures AfterAward(OnEvent(s, e, now, b).state, t, now) || Awards(OnEvent(s, e, now, b).sent)
  {
  }

  lemma AfterAwardTimeouts(s: State, t: int, now: nat, b: Bout)
    requires AfterAward(s, t, now)
    ensures AfterAward(Timeouts(s, now, b).state, t, now)
  {
    WordElapsed(now, s.enteredAt);
  }

  lemma AfterAwardStep(s: State, i: Input, t: int, now: int)
    requires AfterAward(s, t, now) && now <= i.now
    ensures AfterAward(Step(s, i).state, t, i.now) || Awards(Step(s, i).sent)
  {
    assert AfterAward(s, t, i.now);
    if i.event.Some? {
      AfterAwardEvent(s, i.event.value, t, i.now, i.atEvent);
    }
    if s.enabled {
      var o := match i.event case Some(e) => OnEvent(s, e, i.now, i.atEvent) case None => Outcome(s, []);
      if AfterAward(o.state, t, i.now) {
        AfterAwardTimeouts(o.state, t, i.now, i.atTimeout);
      }
    }
  }

  /** After step `n` of the run, an award at time `t` has been followed up as it should be. */
  predicate FollowsAward(s: State, run: seq<Input>, t: int, n: nat)
    requires 0 < n <= |run|
  {
    AfterAward(StateAt(s, run, n), t, run[n - 1].now)
  }

  lemma AwardStarts(s: State, run: seq<Input>, i: nat)
    requires i < |run| && Awards(SentAt(s, run, i))
    ensures FollowsAward(s, run, run[i].now, i + 1)
  {
    AwardStep(StateAt(s, run, i), run[i]);
  }

  lemma NextAfterAward(s: State, run: seq<Input>, n: nat, t: int)
    requires 0 < n < |run| && run[n - 1].now <= run[n].now && FollowsAward(s, run, t, n)
    ensures FollowsAward(s, run, t, n + 1)
  {
    AfterAwardStep(StateAt(s, run, n), run[n], t, run[n - 1].now);
    if Awards(SentAt(s, run, n)) {
      AwardStarts(s, run, n);
    }
  }

  lemma {:induction false} AwardsApart(s: State, run: seq<Input>, t: int, i: nat, n: nat)
    requires i < n <= |run| && Monotone(run) && FollowsAward(s, run, t, i + 1)
    ensures FollowsAward(s, run, t, n)
    decreases n - i
  {
    if i + 1 < n {
      assert run[i].now <= run[i + 1].now;
      NextAfterAward(s, run, i + 1, t);
      AwardsApart(s, run, t, i + 1, n);
    }
  }

  lemma AwardIsLate(s: State, i: Input, t: int, now: int)
    requires AfterAward(s, t, now) && now <= i.now && Awards(Step(s, i).sent)
    ensures t + POST_AWARD_DELAY <= i.now
  {
    AwardStep(s, i);
  }

  lemma NextAwardIsLate(s: State, run: seq<Input>, t: int, j: nat)
    requires 0 < j < |run| && FollowsAward(s, run, t, j) && run[j - 1].now <= run[j].now && Awards(SentAt(s, run, j))
    ensures t + POST_AWARD_DELAY <= run[j].now
  {
    AwardIsLate(StateAt(s, run, j), run[j], t, run[j - 1].now);
  }

  lemma AwardIsFollowed(s: State, run: seq<Input>, i: nat, j: nat, t: int)
    requires i < j <= |run| && Monotone(run) && Awards(SentAt(s, run, i)) && t == run[i].now
    ensures FollowsAward(s, run, t, j)
  {
    AwardStarts(s, run, i);
    AwardsApart(s, run, t, i, j);
  }

  /** Two awarding steps are at least the correction window of 5000 ms apart, from any start and
      whatever timer-zero, passivity, black-card or long-press events come between them. */
  lemma AwardsAtLeastFiveSecondsApart(s: State, run: seq<Input>, i: nat, j: nat)
    requires i < j < |run| && Monotone(run)
    requires Awards(SentAt(s, run, i)) && Awards(SentAt(s, run, j))
    ensures run[i].now + POST_AWARD_DELAY <= run[j].now
  {
    var t := run[i].now;
    AwardIsFollowed(s, run, i, j, t);
    assert run[j - 1].now <= run[j].now;
    NextAwardIsLate(s, run, t, j);
  }

  /** The referee, told an event of the long-hit detector, resets the match if it is on and is switched on
      if it is off: exactly if each side completed its own full hold in the sample that ended in the event,
      or since the detector last left Idle. */
  lemma LongPressNeedsBothHolds(s: State, i: Input, d: LongHit.Detector, trace: seq<LongHit.Sample>, k: nat, duration: int)
    requires k < |trace| && LongHit.Quiet(d, duration) && LongHit.EventAt(d, trace, k).Some?
    requires i.event == Some(LongPress(LongHit.EventAt(d, trace, k).value))
    ensures (if s.enabled then ResetMatch in Step(s, i).sent else Step(s, i).state.enabled) <==>
            LongHit.HeldSinceIdle(d, trace, k, LongHit.ValidLeft, duration)
            && LongHit.HeldSinceIdle(d, trace, k, LongHit.ValidRight, duration)
  {
    LongHit.BothSidesHeld(d, trace, k, duration);
    LongPressActs(s, i);
  }

  lemma LongPressActs(s: State, i: Input)
    requires i.event.Some? && i.event.value.LongPress?
    ensures (if s.enabled then ResetMatch in Step(s, i).sent else Step(s, i).state.enabled) <==>
            LongHit.BothSides(Some(i.event.value.hit))
  {
  }

  /** Nothing else switches the referee on or makes it reset the match. */
  lemma OnlyLongPressResets(s: State, i: Input)
    requires Step(s, i).state.enabled != s.enabled || ResetMatch in Step(s, i).sent
    ensures i.event.Some? && i.event.value.LongPress? && LongHit.BothSides(Some(i.event.value.hit))
  {
    if s.enabled {
      var o := match i.event case Some(e) => OnEvent(s, e, i.now, i.atEvent) case None => Outcome(s, []);
      TimeoutsReset(o.state, i.now, i.atTimeout);
      if i.event.Some? {
        EventResets(s, i.event.value, i.now, i.atEvent);
      }
    }
  }

  lemma TimeoutsReset(s: State, now: nat, b: Bout)
    ensures ResetMatch !in Timeouts(s, now, b).sent && Timeouts(s, now, b).state.enabled == s.enabled
  {
  }

  lemma EventResets(s: State, e: Event, now: nat, b: Bout)
    requires s.enabled && (ResetMatch in OnEvent(s, e, now, b).sent || !OnEvent(s, e, now, b).state.enabled)
    ensures e.LongPress? && LongHit.BothSides(Some(e.hit))
  {
    if e.Lights? {
      LightsReset(s, e.mask, now, b);
    }
  }

  lemma LightsReset(s: State, lights: Mask, now: nat, b: Bout)
    ensures ResetMatch !in OnLights(s, lights, now, b).sent && OnLights(s, lights, now, b).state.enabled == s.enabled
  {
  }

  /** At the end of a fighting period the referee gives the match up for any unequal score, also
      when rounds remain. */
  lemma UnequalScoreStopsReferee(s: State, isLastRound: bool, scoresEqual: bool, now: nat)
    requires s.phase != MatchOver
    ensures OnTimerZero(s, Fighting, isLastRound, scoresEqual, now).state.phase == MatchOver <==> !scoresEqual
  {
  }

  /** What brings the referee back from a match given up: a double long press of both sides, the end of a
      break, or the end of a last round with equal scores; nothing else. */
  lemma MatchOverExits(s: State, i: Input)
    requires s.phase == MatchOver
    ensures Step(s, i).state.phase != MatchOver <==>
            match i.event
            case Some(LongPress(hit)) => LongHit.BothSides(Some(hit))
            case Some(TimerZero(t, last, equal)) => s.enabled && (t == Break || (t == Fighting && last && equal))
            case _ => false
  {
    if s.enabled {
      var o := match i.event case Some(e) => OnEvent(s, e, i.now, i.atEvent) case None => Outcome(s, []);
      TimeoutsLeaveOver(o.state, i.now, i.atTimeout);
    }
  }

  lemma TimeoutsLeaveOver(s: State, now: nat, b: Bout)
    requires s.phase == MatchOver || s.enteredAt == now
    ensures Timeouts(s, now, b).state.phase == MatchOver <==> s.phase == MatchOver
  {
  }
}
