/** The match machine as the object the firmware keeps: its fields, changed in place. */
module MatchMachine {
  import opened Fencing
  import opened BoutClock
  import opened Passivity
  import opened UiEvents
  import opened Match

  class FencingStateMachine {
    const timer: FencingTimer
    const uw2fTimer: UW2FTimer
    var uw2fSeconds: int
    /** Every call made to the passivity stopwatch. */
    ghost var log: seq<TimedOp>
    /** Score and cards of a side; the firmware keeps five integers for each. */
    var left: Fencer
    var right: Fencer
    var prio: Priority
    var timerState: TimerState
    var currentRound: int
    var nrOfRounds: int
    var miniDE: bool
    var machineWeapon: Weapon
    var machineLights: Mask
    var lightsHaveChanged: bool
    var uiLocked: bool

    ghost function View(): Match
      reads this, timer, uw2fTimer
    {
      Match(left, right, prio, Period(timerState, currentRound, nrOfRounds), miniDE, timer.View(),
            Recorder(uw2fTimer.View(), uw2fSeconds, log), machineWeapon, machineLights, lightsHaveChanged, uiLocked)
    }

    constructor (tickPeriod: nat, mini: bool, now: int)
      requires tickPeriod > 0
      ensures fresh(timer) && fresh(uw2fTimer) && Inv(View())
      ensures View().period == Period(Fighting, 1, 3) && View().left == Clean && View().right == Clean
    {
      timer := new FencingTimer(tickPeriod);
      uw2fTimer := new UW2FTimer();
      uw2fSeconds, log, miniDE := 0, [], mini;
      left, right, prio, timerState, currentRound, nrOfRounds := Clean, Clean, NoPrio, Fighting, 1, 3;
      machineWeapon, machineLights, lightsHaveChanged, uiLocked := UnknownWeapon, {}, true, false;
      new;
      ResetAllKeeps(View(), now);
      Clear(now);
    }

    // ---- The stopwatch ----

    method StartPassivity(now: int)
      modifies this, uw2fTimer
      ensures View() == old(View()).(uw2f := old(View()).uw2f.Call(Op.Start, now))
    {
      uw2fTimer.Start(now);
      log := log + [TimedOp(now, Op.Start)];
    }

    method StopPassivity(now: int)
      modifies this, uw2fTimer
      ensures View() == old(View()).(uw2f := old(View()).uw2f.Call(Op.Stop, now))
    {
      uw2fTimer.Stop(now);
      log := log + [TimedOp(now, Op.Stop)];
    }

    method ResetPassivity(now: int)
      modifies this, uw2fTimer
      ensures View() == old(View()).(uw2f := old(View()).uw2f.Call(Op.Reset, now))
    {
      uw2fTimer.Reset(now);
      log := log + [TimedOp(now, Op.Reset)];
    }

    method ClearPassivity(now: int)
      modifies this, uw2fTimer
      ensures View() == old(View()).(uw2f := old(View()).uw2f.Cleared(now))
    {
      ResetPassivity(now);
      uw2fSeconds := 0;
    }

    method RestorePassivity(now: int)
      modifies this, uw2fTimer
      ensures View() == old(View()).(uw2f := old(View()).uw2f.Restored(now))
    {
      uw2fTimer.RestorePreviousState();
      log := log + [TimedOp(now, Op.Restore)];
      uw2fSeconds := uw2fTimer.GetIntermediateTime(now);
    }

    // ---- Periods ----

    method SetTime(minutes: Byte, seconds: Byte)
      modifies timer
      ensures View() == old(View()).(clock := ClockAt(old(View()).clock, minutes, seconds))
    {
      timer.SetMinutes(minutes);
      timer.SetSeconds(seconds);
    }

    method ClearAllCards(includePCards: bool)
      modifies this
      ensures View() == if includePCards then WithPCards(ClearRoundCards(old(View())), 0, 0) else ClearRoundCards(old(View()))
    {
      left, right := left.(yellow := 0, red := 0, black := 0), right.(yellow := 0, red := 0, black := 0);
      if includePCards {
        left, right := left.(pCard := 0), right.(pCard := 0);
      }
    }

    method SetNextTimerStateAndRoundAndNewTimeOnTimerZero(now: int)
      modifies this, timer, uw2fTimer
      ensures View() == EndPeriod(old(View()), now)
    {
      match timerState {
        case Fighting =>
          if currentRound < nrOfRounds {
            if nrOfRounds != 9 {
              timerState := Break;
              SetTime(1, 0);
              ClearPassivity(now);
            } else {
              SetTime(3, 0);
              ClearPassivity(now);
              ClearAllCards(false);
              currentRound := currentRound + 1;
            }
          } else if left.score == right.score {
            timerState := AdditionalMinute;
            SetTime(1, 0);
            currentRound := 255;
            ClearPassivity(now);
          } else {
            timerState := MatchEnded;
          }
        case Break =>
          timerState := Fighting;
          SetTime(3, 0);
          ClearPassivity(now);
          if currentRound < nrOfRounds {
            currentRound := currentRound + 1;
          }
        case AdditionalMinute => timerState := MatchEnded;
        case _ =>
      }
    }

    method ClearTime(now: int)
      modifies timer, uw2fTimer, this
      ensures View() == old(View()).(clock := ClockAt(old(View()).clock.(running := false), 3, 0),
                                     uw2f := old(View()).uw2f.Call(Op.Stop, now).Call(Op.Reset, now))
    {
      timer.StopTimer();
      StopPassivity(now);
      ResetPassivity(now);
      SetTime(3, 0);
    }

    method Clear(now: int)
      modifies this, timer, uw2fTimer
      ensures View() == ResetAll(old(View()), now)
    {
      ClearTime(now);
      timerState, currentRound, prio := Fighting, 1, NoPrio;
      ClearAllCards(true);
      left, right := left.(score := 0), right.(score := 0);
    }

    // ---- Scores and cards ----

    method GetMaxScore() returns (max: int)
      ensures max == MaxScore(View().period)
    {
      match nrOfRounds {
        case 1 => max := 5;
        case 2 => max := 10;
        case 3 => max := 15;
        case 9 => max := currentRound * 5;
        case _ => max := 5;
      }
    }

    method AddPoint(toLeft: bool)
      modifies this
      ensures View() == Point(old(View()), if toLeft then Left else Right)
    {
      var max := GetMaxScore();
      if toLeft {
        if left.score < max {
          left := left.(score := left.score + 1);
        }
      } else if right.score < max {
        right := right.(score := right.score + 1);
      }
    }

    method IncrementScoreAndCheckForMinuteBreak(toLeft: bool, now: int)
      modifies this, timer, uw2fTimer
      ensures View() == Increment(old(View()), if toLeft then Left else Right, now)
    {
      AddPoint(toLeft);
      if machineWeapon == Sabre && currentRound == 1 && (right.score == 8 || left.score == 8) {
        SetNextTimerStateAndRoundAndNewTimeOnTimerZero(now);
      }
    }

    method SetFencer(s: Side, f: Fencer)
      modifies this
      ensures View() == old(View()).Put(s, f)
    {
      if s == Left {
        left := f;
      } else {
        right := f;
      }
    }

    method DropPoint(s: Side)
      modifies this
      ensures View() == TakePoint(old(View()), s)
    {
      var f := if s == Left then left else right;
      SetFencer(s, f.(score := (f.score - 1) % WORD));
    }

    method ShowRed(s: Side, now: int)
      modifies this, timer, uw2fTimer
      ensures View() == KeyPressed(old(View()), s, RedCard, now)
    {
      var f := if s == Left then left else right;
      SetFencer(s, f.(red := f.red + 1));
      ClearPassivity(now);
      IncrementScoreAndCheckForMinuteBreak(s != Left, now);
    }

    method PressCardKey(s: Side, key: Key, now: int)
      requires key !in {IncrScore, DecrScore, RedCard, RedCardUndo}
      modifies this
      ensures View() == KeyPressed(old(View()), s, key, now)
    {
      var f := if s == Left then left else right;
      match key {
        case Yellow =>
          if f.red == 0 {
            SetFencer(s, f.(yellow := 1));
          }
        case YellowUndo =>
          if f.yellow == 1 {
            SetFencer(s, f.(yellow := 0));
          }
        case Black => SetFencer(s, f.(black := 1));
        case BlackUndo => SetFencer(s, f.(black := 0));
        case BlackPCard =>
          if f.pCard == 2 {
            SetFencer(s, f.(pCard := f.pCard + 2));
          }
        case BlackPCardUndo =>
          if f.pCard == 4 {
            SetFencer(s, f.(pCard := 2));
          }
      }
    }

    /** One key of a fencer's column. */
    method PressKey(s: Side, key: Key, now: int)
      modifies this, timer, uw2fTimer
      ensures View() == KeyPressed(old(View()), s, key, now)
    {
      var f := if s == Left then left else right;
      match key {
        case IncrScore => IncrementScoreAndCheckForMinuteBreak(s == Left, now);
        case DecrScore =>
          if f.score != 0 {
            DropPoint(s);
          }
        case RedCard => ShowRed(s, now);
        case RedCardUndo =>
          if f.red != 0 {
            SetFencer(s, f.(red := f.red - 1));
            DropPoint(Other(s));
          }
        case _ => PressCardKey(s, key, now);
      }
    }

    method SetPCards(l: int, r: int)
      modifies this
      ensures View() == WithPCards(old(View()), l, r)
    {
      left, right := left.(pCard := l), right.(pCard := r);
    }

    method AddLeftPCard(now: int)
      modifies this, timer, uw2fTimer
      ensures View() == AddPCard(old(View()), Left, now)
    {
      if left.pCard < 2 {
        left := left.(pCard := left.pCard + 1);
        if left.pCard == 2 {
          IncrementScoreAndCheckForMinuteBreak(false, now);
        }
      }
    }

    method AddRightPCard(now: int)
      modifies this, timer, uw2fTimer
      ensures View() == AddPCard(old(View()), Right, now)
    {
      if right.pCard < 2 {
        right := right.(pCard := right.pCard + 1);
        if right.pCard == 2 {
          IncrementScoreAndCheckForMinuteBreak(true, now);
        }
      }
    }

    method ProcessUW2F(now: int)
      modifies this, timer, uw2fTimer
      ensures View() == GivePCards(old(View()), now)
    {
      if left.pCard == 2 {
        SetPCards(left.pCard + 2, right.pCard + 2);
        return;
      }
      AddLeftPCard(now);
      AddRightPCard(now);
    }

    method ProcessUW2FUndo(now: int)
      modifies this, uw2fTimer
      ensures View() == TakePCards(old(View()), now)
    {
      if left.pCard == 0 {
        return;
      }
      if left.pCard == 1 {
        SetPCards(0, 0);
        RestorePassivity(now);
        return;
      }
      if left.pCard == 2 && right.pCard == 2 {
        SetPCards(1, 1);
        DropPoint(Right);
        DropPoint(Left);
        RestorePassivity(now);
        return;
      }
      if left.pCard == 4 && right.pCard == 4 {
        SetPCards(2, 2);
        RestorePassivity(now);
      }
    }

    // ---- The remote control ----

    method StartTimer(now: int)
      modifies this, timer, uw2fTimer
      ensures View() == StartBout(old(View()), now)
    {
      if timerState != MatchEnded {
        timer.StartTimer();
        if timerState == Fighting && nrOfRounds > 1 {
          if timer.minutes * 60 + timer.seconds > 60 {
            StartPassivity(now);
          } else {
            var shown := uw2fTimer.GetIntermediateTime(now);
            if shown > 0 {
              StartPassivity(now);
            }
          }
        }
      }
    }

    method StopTimer(now: int)
      modifies this, timer, uw2fTimer
      ensures View() == StopBout(old(View()), now)
    {
      timer.StopTimer();
      StopPassivity(now);
    }

    method CycleFormat()
      modifies this
      ensures View() == NextFormat(old(View()))
    {
      match nrOfRounds {
        case 1 => nrOfRounds := if miniDE then 2 else 3;
        case 2 => nrOfRounds := 3;
        case 3 => nrOfRounds := 9;
        case _ => nrOfRounds := 1;
      }
      currentRound := 1;
    }

    method HandleClock(ui: Ui, now: int)
      requires ui.SetMinutes? || ui.SetSeconds? || ui.SetHundredths? || ui in {StartClock, StopClock, ResetMatch, NextPeriod}
      modifies this, timer, uw2fTimer
      ensures View() == Act(old(View()), ui, now)
    {
      match ui {
        case SetMinutes(v) => timer.SetMinutes(v);
        case SetSeconds(v) => timer.SetSeconds(v);
        case SetHundredths(v) => timer.SetHundredths(v);
        case StartClock => StartTimer(now);
        case StopClock => StopTimer(now);
        case ResetMatch => Clear(now);
        case NextPeriod => SetNextTimerStateAndRoundAndNewTimeOnTimerZero(now);
      }
    }

    method HandlePCards(ui: Ui, now: int)
      requires ui.PCard? || ui.PCardUndo? || ui.RestorePassivity?
      modifies this, timer, uw2fTimer
      ensures View() == Act(old(View()), ui, now)
    {
      match ui {
        case PCard =>
          ProcessUW2F(now);
          ResetPassivity(now);
        case PCardUndo => ProcessUW2FUndo(now);
        case RestorePassivity => RestorePassivity(now);
      }
    }

    /** The switch over the events of a machine whose clock stands still, or over a stop. */
    method Handle(ui: Ui, now: int)
      modifies this, timer, uw2fTimer
      ensures View() == Act(old(View()), ui, now)
    {
      match ui {
        case Round => CycleFormat();
        case Prio => prio := if prio != NoPrio then NoPrio else if now % 2 == 1 then PrioLeft else PrioRight;
        case SideKey(s, key) => PressKey(s, key, now);
        case CycleWeapon =>
          machineWeapon := match machineWeapon
            case Sabre => Foil case Foil => Epee case Epee => UnknownWeapon case UnknownWeapon => Sabre;
        case PCard => HandlePCards(ui, now);
        case PCardUndo => HandlePCards(ui, now);
        case RestorePassivity => HandlePCards(ui, now);
        case ToggleClock =>
        case NoAction =>
        case _ => HandleClock(ui, now);
      }
    }

    method OnUiWord(word: nat, now: int)
      modifies this, timer, uw2fTimer
      ensures View() == Step(old(View()), Timed(UiWord(word), now))
    {
      var ui := UiOf(word % DATA);
      if uiLocked {
        if ui == ResetMatch {
          Clear(now);
        }
        return;
      }
      if word / DATA * DATA != EVENT_UI_INPUT {
        return;
      }
      if timer.running {
        if ui == ToggleClock {
          ui := StopClock;
        }
        if ui != StopClock {
          return;
        }
      } else if ui == ToggleClock {
        ui := StartClock;
      }
      Handle(ui, now);
    }

    // ---- The tick ----

    method StopOnHit(now: int)
      modifies this, timer, uw2fTimer
      ensures View() == HaltOnHit(old(View()), now)
    {
      if timer.running {
        ResetPassivity(now);
      }
      timer.StopTimer();
    }

    method DoClockTick(now: int)
      modifies this, timer, uw2fTimer
      ensures View() == ClockTick(old(View()), now)
    {
      var changed := timer.DoTick();
      if changed && timer.minutes + timer.seconds + timer.hundredths == 0 {
        StopTimer(now);
        SetNextTimerStateAndRoundAndNewTimeOnTimerZero(now);
      }
    }

    method DoLightsTick(now: int)
      modifies this, timer, uw2fTimer
      ensures View() == LightsTick(old(View()), now)
    {
      if lightsHaveChanged {
        lightsHaveChanged := false;
        if timerState == Fighting || timerState == AdditionalMinute {
          if Red in machineLights || Green in machineLights {
            StopOnHit(now);
          }
          if machineWeapon == Foil {
            if WhiteL in machineLights || WhiteR in machineLights {
              StopOnHit(now);
            }
          }
        }
      }
    }

    method DoStateMachineTick(now: int)
      modifies this, timer, uw2fTimer
      ensures View() == MachineTick(old(View()), now)
    {
      DoClockTick(now);
      if uw2fTimer.running {
        var shown := uw2fTimer.GetIntermediateTime(now);
        if uw2fSeconds != shown {
          uw2fSeconds := shown;
        }
      }
      DoLightsTick(now);
    }

    method SetMachineLights(l: Mask)
      modifies this
      ensures forall now :: View() == Step(old(View()), Timed(SensorLights(l), now))
    {
      if l != machineLights {
        machineLights, lightsHaveChanged := l, true;
      }
    }
  }
}
