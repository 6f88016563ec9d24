/** The two handlers as the objects the firmware keeps: the canonical state, and the strings rendered from it. */
module Opp2Machine {
  import opened Fencing
  import opened Efp1
  import opened Opp2State
  import opened Opp2

  class CyranoHandler {
    var cachedStatus: Msg
    var competitionId: string
    var cachedCyranoString: string
    var cachedNextCyrano: string
    var cachedPrevCyrano: string
    var cachedStatusValid: bool

    ghost function View(): Cache
      reads this
    {
      Cache(cachedStatus, competitionId, cachedCyranoString, cachedNextCyrano, cachedPrevCyrano, cachedStatusValid)
    }

    constructor ()
      ensures View() == Cache(Msg([], [], []), "", "", "", "", false)
    {
      cachedStatus, competitionId, cachedStatusValid := Msg([], [], []), "", false;
      cachedCyranoString, cachedNextCyrano, cachedPrevCyrano := "", "", "";
    }

    method RebuildCachedStrings()
      requires Full(cachedStatus)
      modifies this
      ensures View() == Rebuilt(old(View()))
    {
      var msg := WithField(cachedStatus, Command, "INFO");
      msg := WithField(msg, CompetitionId, competitionId);
      cachedCyranoString := Print(msg);
      cachedNextCyrano := Request(msg, "NEXT");
      cachedPrevCyrano := Request(msg, "PREV");
      cachedStatusValid := true;
    }

    method UpdateCachedStatus(status: Msg)
      requires Full(status)
      modifies this
      ensures View() == Stored(old(View()), status)
    {
      cachedStatus := status;
      RebuildCachedStrings();
    }

    method Hello(id: string)
      modifies this
      ensures View() == Greeted(old(View()), id)
    {
      competitionId := id;
      if cachedStatusValid && Full(cachedStatus) {
        RebuildCachedStrings();
      }
    }
  }

  class Opp2Handler {
    const cyrano: CyranoHandler
    const autoDetectProtocol: bool
    const blankFencers: Fencers
    const blankInfo: MatchInfo
    var state: SystemState
    var activeInputProtocol: Protocol

    ghost function CoreView(): Core
      reads this
    {
      Core(state, activeInputProtocol, autoDetectProtocol, blankFencers, blankInfo)
    }

    ghost function View(): Handler
      reads this, cyrano
    {
      Handler(CoreView(), cyrano.View())
    }

    /** Beginning pushes the initial state. */
    constructor (initial: SystemState, fencers: Fencers, info: MatchInfo)
      ensures fresh(cyrano) && Current(View()) && autoDetectProtocol && activeInputProtocol == NoProtocol && state == initial
    {
      cyrano := new CyranoHandler();
      autoDetectProtocol, blankFencers, blankInfo := true, fencers, info;
      state, activeInputProtocol := initial, NoProtocol;
      new;
      PushedIsCurrent(View());
      PushCachedStatusToCyrano();
    }

    method PushCachedStatusToCyrano()
      modifies cyrano
      ensures View() == Pushed(old(View()))
    {
      cyrano.UpdateCachedStatus(Converted(state));
    }

    // ---- Change-detected updates ----

    method UpdateLightsInternal(l: Lights)
      modifies this, cyrano
      ensures View() == Applied(old(View()), WithLights(old(CoreView()), l))
    {
      if !LightsEqual(state.lights, l) {
        state := state.(lights := l);
        PushCachedStatusToCyrano();
      }
    }

    method UpdateScoreInternal(s: Score)
      modifies this, cyrano
      ensures View() == Applied(old(View()), WithScore(old(CoreView()), s))
    {
      if !ScoreEqual(state.score, s) {
        state := state.(score := s);
        PushCachedStatusToCyrano();
      }
    }

    method UpdateClockInternal(c: Clock)
      modifies this, cyrano
      ensures View() == Applied(old(View()), WithClock(old(CoreView()), c))
    {
      if !ClockEqual(state.clock, c) {
        state := state.(clock := c);
        PushCachedStatusToCyrano();
      }
    }

    method UpdateApparatusStateInternal(a: Apparatus)
      modifies this, cyrano
      ensures View() == Applied(old(View()), WithApparatus(old(CoreView()), a))
    {
      if !ApparatusEqual(state.apparatus, a) {
        state := state.(apparatus := a);
        PushCachedStatusToCyrano();
      }
    }

    method UpdateMatchInternal(i: MatchInfo)
      modifies this, cyrano
      ensures View() == Applied(old(View()), WithInfo(old(CoreView()), i))
    {
      if !InfoEqual(state.info, i) {
        state := state.(info := i);
        PushCachedStatusToCyrano();
      }
    }

    method UpdateUW2FInternal(u: Uw2f)
      modifies this, cyrano
      ensures View() == Applied(old(View()), WithUw2f(old(CoreView()), u))
    {
      if !Uw2fEqual(state.uw2f, u) {
        state := state.(uw2f := u);
        PushCachedStatusToCyrano();
      }
    }

    method UpdateFencers(f: Fencers)
      modifies this, cyrano
      ensures View() == Applied(old(View()), WithFencers(old(CoreView()), f))
    {
      if !FencersEqual(state.fencers, f) {
        state := state.(fencers := f);
        PushCachedStatusToCyrano();
      }
    }

    // ---- Events of the match machine ----

    method MoveApparatus(running: bool)
      modifies this, cyrano
      ensures View() == Applied(old(View()), ApparatusMoved(old(CoreView()), running))
    {
      var apparatusState := state.apparatus;
      if apparatusState.state != ENDING && apparatusState.state != WAITING {
        apparatusState := apparatusState.(state := if running then FENCING else HALT);
        UpdateApparatusStateInternal(apparatusState);
      }
    }

    method OnTimerState(running: bool)
      modifies this, cyrano
      ensures View() == Applied(old(View()), TimerMoved(old(CoreView()), running))
    {
      var clock := state.clock.(running := running);
      ghost var before := View();
      MoveApparatus(running);
      UpdateClockInternal(clock);
      AppliedTwice(before, ApparatusMoved(before.core, running), WithClock(ApparatusMoved(before.core, running).core, clock));
    }

    /** The events that concern scores and cards. */
    method OnScoreEvent(e: FsmEvent)
      requires ScoreEvent(e)
      modifies this, cyrano
      ensures View() == Applied(old(View()), FromFsm(old(CoreView()), e))
    {
      var score := state.score;
      match e {
        case ScoreChanged(side, v) => score := PutSide(score, side, SideOf(score, side).(score := Count(v)));
        case YellowChanged(side, v) => score := PutSide(score, side, SideOf(score, side).(yellowCard := v > 0));
        case RedChanged(side, v) => score := PutSide(score, side, SideOf(score, side).(redCards := Count(v)));
        case BlackChanged(side, v) => score := BlackCarded(score, side, v);
        case PrioChanged(v) => score := score.(priority := if v == 2 then PrioRight else if v == 1 then PrioLeft else NoPrio);
      }
      UpdateScoreInternal(score);
    }

    method OnStateEvent(e: FsmEvent)
      requires !ScoreEvent(e)
      modifies this, cyrano
      ensures View() == Applied(old(View()), FromFsm(old(CoreView()), e))
    {
      match e {
        case LightsChanged(m) =>
          UpdateLightsInternal(state.lights.(left := LightSide(Red in m, WhiteL in m), right := LightSide(Green in m, WhiteR in m)));
        case WeaponChanged(w) =>
          if w != UnknownWeapon {
            UpdateMatchInternal(state.info.(weapon := w));
          }
        case TimerStateChanged(running) => OnTimerState(running);
        case TimerShown(m, s, c, due) =>
          if due {
            UpdateClockInternal(state.clock.(timeMs := Milliseconds(m, s, if c > 99 then 0 else c)));
          }
        case RoundChanged(r, n) => UpdateMatchInternal(FormatOf(state.info.(round := Count(r)), n));
        case PCardChanged(l, r) => UpdateUW2FInternal(state.uw2f.(left := Count(l), right := Count(r)));
        case PassivityShown(m, s, c) => UpdateUW2FInternal(state.uw2f.(timeMs := Milliseconds(m, s, c)));
        case _ =>
      }
    }

    method Update(e: FsmEvent)
      modifies this, cyrano
      ensures View() == Applied(old(View()), FromFsm(old(CoreView()), e))
    {
      if ScoreEvent(e) {
        OnScoreEvent(e);
      } else {
        OnStateEvent(e);
      }
    }

    // ---- OPP2 messages ----

    method IsProtocolAllowed(source: Protocol) returns (allowed: bool)
      modifies this
      ensures var p := Asked(old(activeInputProtocol), autoDetectProtocol, source);
              activeInputProtocol == p.active && allowed == p.allowed && state == old(state)
    {
      if !autoDetectProtocol {
        return activeInputProtocol == source;
      }
      if source == CyranoProtocol {
        if activeInputProtocol != CyranoProtocol {
          activeInputProtocol := CyranoProtocol;
        }
        return true;
      }
      if source == Opp2Protocol {
        if activeInputProtocol == CyranoProtocol {
          return false;
        }
        if activeInputProtocol == NoProtocol {
          activeInputProtocol := Opp2Protocol;
        }
        return true;
      }
      return false;
    }

    /** The callbacks of the dispatcher: permission, then the guard of the message, then the update. */
    method OnOpp2Message(m: Opp2Message)
      modifies this, cyrano
      ensures View() == Step(old(View()), Opp2Msg(m))
    {
      var allowed := IsProtocolAllowed(Opp2Protocol);
      if allowed {
        TakeMessage(m);
      }
    }

    method TakeMessage(m: Opp2Message)
      modifies this, cyrano
      ensures View() == Applied(old(View()), Accepted(old(CoreView()), m))
    {
      match m {
        case FencersMsg(f) =>
          if state.apparatus.state == WAITING {
            UpdateFencers(f);
          }
        case InfoMsg(i) =>
          if state.apparatus.state == WAITING {
            UpdateMatchInternal(i);
          }
        case ClockMsg(c) =>
          if !state.clock.running {
            UpdateClockInternal(c);
          }
        case ScoreMsg(s) => UpdateScoreInternal(s);
        case LightsMsg(l) => UpdateLightsInternal(l);
        case ApparatusMsg(a) =>
          if a.state == WAITING {
            UpdateApparatusStateInternal(a);
          }
        case Uw2fMsg(u) => UpdateUW2FInternal(u);
      }
    }

    method ProcessAck()
      modifies this, cyrano
      ensures View() == Applied(old(View()), Acknowledged(old(CoreView())))
    {
      UpdateApparatusStateInternal(Apparatus(WAITING, 0));
      state := state.(fencers := blankFencers, info := blankInfo);
      PushCachedStatusToCyrano();
    }

    // ---- The competition software ----

    method TakeSides(m: Msg)
      requires Full(m)
      modifies this`state
      ensures state == old(state).(fencers := FencersFrom(old(state).fencers, m), score := ScoresFrom(old(state).score, m),
                                   uw2f := Uw2fFrom(old(state).uw2f, m), lights := LightsFrom(old(state).lights, m))
    {
      state := state.(fencers := FencersFrom(state.fencers, m));
      state := state.(score := ScoresFrom(state.score, m));
      state := state.(uw2f := Uw2fFrom(state.uw2f, m));
      state := state.(lights := LightsFrom(state.lights, m));
    }

    method TakeClock(m: Msg) returns (changed: bool)
      requires Full(m)
      modifies this`state
      ensures state == old(state).(clock := ClockFrom(old(state).clock, m))
      ensures changed == (ClockFrom(old(state).clock, m) != old(state).clock)
    {
      var clock := ClockFrom(state.clock, m);
      changed := clock != state.clock;
      if changed {
        state := state.(clock := clock);
      }
    }

    /** The fields that are given are taken over, part by part. */
    method TakeFields(m: Msg) returns (changed: bool)
      requires Full(m)
      modifies this`state
      ensures Outcome(CoreView(), changed) == FromDisp(old(CoreView()), m)
    {
      var given := exists i: nat | i < MAX_NR_FIELDS && Carries(i) :: Field(m, i) != "";
      TakeSides(m);
      state := state.(info := InfoFrom(state.info, m));
      changed := TakeClock(m);
      changed := changed || given;
    }

    method PushIf(changed: bool)
      modifies cyrano
      ensures View() == Applied(old(View()), Outcome(old(CoreView()), changed))
    {
      if changed {
        PushCachedStatusToCyrano();
      }
    }

    method UpdateFromCyranoMessage(m: Msg)
      requires Full(m)
      modifies this, cyrano
      ensures View() == Applied(old(View()), FromDisp(old(CoreView()), m))
    {
      var changed := TakeFields(m);
      PushIf(changed);
    }

    method TakeSetup(m: Msg)
      requires Full(m)
      modifies this, cyrano
      ensures View() == Applied(old(View()), FromCyrano(old(CoreView()), m))
    {
      match TypeOf(m) {
        case DISP => UpdateFromCyranoMessage(m);
        case ACK => ProcessAck();
        case _ =>
      }
    }

    method ProcessMessageFromSoftware(m: Msg, verify: bool)
      requires Full(m)
      modifies this, cyrano
      ensures View() == OnMessage(old(View()), m, verify)
    {
      if verify && Field(m, PisteId) != state.pisteId {
        return;
      }
      if TypeOf(m) == HELLO {
        cyrano.Hello(Field(m, CompetitionId));
      } else {
        TakeSetup(m);
      }
    }

    // ---- Buttons ----

    method SwapFencers()
      modifies this, cyrano
      ensures View() == Applied(old(View()), FromButton(old(CoreView()), Swap))
    {
      var tmpFencer := state.fencers.left;
      state := state.(fencers := state.fencers.(left := state.fencers.right));
      state := state.(fencers := state.fencers.(right := tmpFencer));
      var tmpScore := state.score.left;
      state := state.(score := state.score.(left := state.score.right));
      state := state.(score := state.score.(right := tmpScore));
      state := state.(score := state.score.(priority := FlippedPriority(state.score.priority)));
      var tmpLight := state.lights.left;
      state := state.(lights := state.lights.(left := state.lights.right));
      state := state.(lights := state.lights.(right := tmpLight));
      var tmpUw2f := state.uw2f.left;
      state := state.(uw2f := state.uw2f.(left := state.uw2f.right));
      state := state.(uw2f := state.uw2f.(right := tmpUw2f));
      assert state == Swapped(old(state));
      PushCachedStatusToCyrano();
    }

    method ProcessButton(b: Button)
      modifies this, cyrano
      ensures View() == Applied(old(View()), FromButton(old(CoreView()), b))
    {
      match b {
        case Swap => SwapFencers();
        case ReleaseLock =>
          if autoDetectProtocol {
            activeInputProtocol := NoProtocol;
          }
        case NextMatch => PushCachedStatusToCyrano();
        case PrevMatch => PushCachedStatusToCyrano();
        case Begin => UpdateApparatusStateInternal(Apparatus(HALT, 0));
        case End =>
          if state.apparatus.state != WAITING {
            UpdateApparatusStateInternal(Apparatus(ENDING, 0));
          }
        case OtherButton =>
      }
    }

    method SetPisteID(id: string)
      modifies this
      ensures View() == Step(old(View()), NewPisteId(id))
    {
      state := state.(pisteId := id);
    }
  }
}
