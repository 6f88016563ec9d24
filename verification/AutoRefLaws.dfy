/**
 What the referee decides and what it sends: who gets the point when the lights go out and when a light
 confirms, over every run, and exactly when each command is sent.
 */
module AutoRefLaws {
  import opened Wrappers
  import opened Fencing
  import LongHit
  import opened AutoRef

  // ---- The lights of an episode ----

  /** All lights reported from the report that took the referee out of Armed to the one that found them all out. */
  function EpisodeLights(s: State, run: seq<Input>, n: nat): Mask
    requires n <= |run|
  {
    if n == 0 then {}
    else
      match StateAt(s, run, n - 1).phase
      case Armed => LightsOf(run[n - 1])
      case WaitingForLightsOff => EpisodeLights(s, run, n - 1) + LightsOf(run[n - 1])
      case AwaitingConfirmation => EpisodeLights(s, run, n - 1)
      case _ => {}
  }

  /** The last report of lights before step `n`. */
  function LastReported(run: seq<Input>, n: nat): Mask
    requires n <= |run|
  {
    if n == 0 then {}
    else match run[n - 1].event case Some(Lights(mask)) => mask case _ => LastReported(run, n - 1)
  }

  /** What step `i` makes of the lights accumulated and last reported. */
  function NextPeak(s: State, i: Input): Mask {
    match s.phase
    case Armed => LightsOf(i)
    case WaitingForLightsOff => s.peakLights + LightsOf(i)
    case _ => s.peakLights
  }

  predicate Tracks(s: State, i: Input, e: State) {
    && e.enabled && e.peakLights == NextPeak(s, i)
    && e.prevLights == match i.event case Some(Lights(mask)) => mask case _ => s.prevLights
  }

  lemma LightsTrack(s: State, lights: Mask, i: Input)
    requires s.enabled && i.event == Some(Lights(lights)) && (s.phase == Armed || InEpisode(s))
    requires InEpisode(OnLights(s, lights, i.now, i.atEvent).state)
    ensures Tracks(s, i, OnLights(s, lights, i.now, i.atEvent).state)
  {
  }

  lemma OthersTrack(s: State, e: Event, i: Input)
    requires s.enabled && i.event == Some(e) && !e.Lights? && InEpisode(OnEvent(s, e, i.now, i.atEvent).state)
    ensures InEpisode(s) && Tracks(s, i, OnEvent(s, e, i.now, i.atEvent).state)
  {
  }

  lemma StepTracks(s: State, i: Input)
    requires (s.phase == Armed || (s.enabled && InEpisode(s))) && InEpisode(Step(s, i).state)
    ensures Tracks(s, i, Step(s, i).state) && (s.phase == Armed ==> i.event.Some? && i.event.value.Lights?)
  {
    if s.enabled {
      var o := match i.event case Some(e) => OnEvent(s, e, i.now, i.atEvent) case None => Outcome(s, []);
      TimeoutsKeepPeak(o.state, i.now, i.atTimeout);
      match i.event {
        case Some(Lights(mask)) => LightsTrack(s, mask, i);
        case Some(e) => OthersTrack(s, e, i);
        case None =>
      }
    }
  }

  /** Inside an episode the referee has accumulated exactly the lights of the episode, and compares new lights
      with the last report. */
  lemma {:induction false} EpisodeIsTracked(s: State, run: seq<Input>, n: nat)
    requires n <= |run| && !InEpisode(s) && InEpisode(StateAt(s, run, n))
    ensures var e := StateAt(s, run, n);
            e.enabled && e.peakLights == EpisodeLights(s, run, n) && e.prevLights == LastReported(run, n)
  {
    if n > 0 {
      var before := StateAt(s, run, n - 1);
      if InEpisode(before) {
        EpisodeIsTracked(s, run, n - 1);
      } else if before.phase != Armed {
        EpisodesStartArmed(before, run[n - 1]);
      }
      StepTracks(before, run[n - 1]);
    }
  }

  // ---- The decision when the lights go out ----

  /** A double hit scores for nobody: in overtime, and when both sides are at most one point short of five a round. */
  predicate NobodyScores(b: Bout) {
    b.timerState == AdditionalMinute || (b.scoreLeft >= 5 * b.rounds - 1 && b.scoreRight >= 5 * b.rounds - 1)
  }

  /** A side with these lights gets its point at once, without a confirmation. */
  predicate Scores(b: Bout, own: bool, other: bool, otherWhite: bool) {
    own &&
    match b.weapon
    case Epee => !other || !NobodyScores(b)
    case Foil => !other && !otherWhite
    case Sabre => !other
    case UnknownWeapon => false
  }

  predicate LeftScores(b: Bout, lights: Mask) { Scores(b, Red in lights, Green in lights, WhiteR in lights) }

  predicate RightScores(b: Bout, lights: Mask) { Scores(b, Green in lights, Red in lights, WhiteL in lights) }

  /** Right of way decides: both sides hit, in foil at least one of them on target. */
  predicate NeedsConfirmation(b: Bout, lights: Mask) {
    match b.weapon
    case Foil => (Red in lights && (Green in lights || WhiteR in lights)) || (Green in lights && WhiteL in lights)
    case Sabre => Red in lights && Green in lights
    case _ => false
  }

  function Points(left: bool, right: bool): seq<Command> {
    (if left then [IncrLeft] else []) + (if right then [IncrRight] else [])
  }

  /** What a decision from lights `l` is at time `now`. */
  predicate Decides(o: Outcome, l: Mask, b: Bout, now: nat) {
    && o.sent == Points(LeftScores(b, l), RightScores(b, l))
    && (o.state.phase == AwaitingConfirmation <==> NeedsConfirmation(b, l))
    && (o.state.phase == Awarding <==>
        LeftScores(b, l) || RightScores(b, l) || (b.weapon == Epee && Red in l && Green in l)
        || (b.weapon == Foil && Red !in l && Green !in l))
    && o.state.phase in {AwaitingConfirmation, Awarding, Armed}
    && (o.state.phase == Awarding ==> (o.state.offTarget <==> o.sent == []))
    && (o.state.phase != Armed ==> o.state.enteredAt == now)
  }

  lemma DecideDecides(s: State, now: nat, b: Bout)
    ensures Decides(Decide(s, now, b), s.peakLights, b, now)
  {
  }

  lemma NoTimeoutYet(s: State, now: nat, b: Bout)
    requires s.phase in {Armed, WaitingForLightsOff} || (s.phase in {Awarding, AwaitingConfirmation} && s.enteredAt == now)
    ensures Timeouts(s, now, b) == Outcome(s, [])
  {
  }

  lemma DarkStep(s: State, i: Input)
    requires s.enabled && s.phase == WaitingForLightsOff && i.event == Some(Lights({}))
    ensures Decides(Step(s, i), s.peakLights, i.atEvent, i.now)
  {
    assert s.peakLights + {} == s.peakLights;
    DecideDecides(s, i.now, i.atEvent);
    NoTimeoutYet(OnLights(s, {}, i.now, i.atEvent).state, i.now, i.atTimeout);
  }

  predicate AnyHit(lights: Mask) { Red in lights || Green in lights || WhiteL in lights || WhiteR in lights }

  lemma LitStep(s: State, i: Input)
    requires s.enabled && s.phase in {Armed, WaitingForLightsOff} && i.event.Some? && i.event.value.Lights?
    requires s.phase == Armed || LightsOf(i) != {}
    ensures var e := Step(s, i);
            && e.sent == [] && e.state.phase in {Armed, WaitingForLightsOff}
            && (e.state.phase == WaitingForLightsOff <==>
                s.phase == WaitingForLightsOff || AnyHit(LightsOf(i)))
  {
    NoTimeoutYet(OnLights(s, LightsOf(i), i.now, i.atEvent).state, i.now, i.atTimeout);
  }

  /** In every run, when the lights go out the lights of the whole episode decide: which sides get a point, that it
      is the right of way which has to be confirmed, or that nobody scores. */
  lemma LightsOutDecide(s: State, run: seq<Input>, k: nat)
    requires k < |run| && !InEpisode(s) && StateAt(s, run, k).phase == WaitingForLightsOff
    requires run[k].event == Some(Lights({}))
    ensures Decides(Outcome(StateAt(s, run, k + 1), SentAt(s, run, k)), EpisodeLights(s, run, k), run[k].atEvent, run[k].now)
  {
    EpisodeIsTracked(s, run, k);
    DarkStep(StateAt(s, run, k), run[k]);
  }

  // ---- The confirmation ----

  /** A side lights newly: coloured or white. */
  predicate NewlyLit(lights: Mask, before: Mask, coloured: Light, white: Light) {
    (coloured in lights && coloured !in before) || (white in lights && white !in before)
  }

  /** What a report of lights does to a referee that awaits a confirmation: the side that newly lights alone has
      the right of way, and gets its point if its coloured light was on in the episode. */
  predicate Confirms(o: Outcome, l: Mask, left: bool, right: bool, now: nat) {
    && (IncrLeft in o.sent <==> left && !right && Red in l)
    && (IncrRight in o.sent <==> right && !left && Green in l)
    && |o.sent| <= 1 && o.sent == Points(IncrLeft in o.sent, IncrRight in o.sent)
    && (o.state.phase == Awarding <==> left != right)
    && (left != right ==> o.state.enteredAt == now)
  }

  lemma ConfirmConfirms(s: State, lights: Mask, now: nat)
    requires s.phase == AwaitingConfirmation
    ensures Confirms(Confirm(s, lights, now), s.peakLights, NewlyLit(lights, s.prevLights, Red, WhiteL),
                     NewlyLit(lights, s.prevLights, Green, WhiteR), now)
    ensures Confirm(s, lights, now).state.phase != Awarding ==> Confirm(s, lights, now) == Outcome(s, [])
  {
    var rising := lights - s.prevLights;
    assert rising * {Red, WhiteL} != {} <==> Red in rising || WhiteL in rising by {
      assert Red in rising ==> Red in rising * {Red, WhiteL};
      assert WhiteL in rising ==> WhiteL in rising * {Red, WhiteL};
    }
    assert rising * {Green, WhiteR} != {} <==> Green in rising || WhiteR in rising by {
      assert Green in rising ==> Green in rising * {Green, WhiteR};
      assert WhiteR in rising ==> WhiteR in rising * {Green, WhiteR};
    }
  }

  lemma WaitingLonger(s: State, now: nat, b: Bout)
    requires s.phase == AwaitingConfirmation
    ensures var o := Timeouts(s, now, b);
            o.sent == [] &&
            o.state.phase == if Elapsed(now, s.enteredAt) >= CONFIRMATION_TIMEOUT then Egpa else AwaitingConfirmation
  {
  }

  lemma ConfirmStep(s: State, i: Input, lights: Mask)
    requires s.enabled && s.phase == AwaitingConfirmation && i.event == Some(Lights(lights))
    ensures Confirms(Step(s, i), s.peakLights, NewlyLit(lights, s.prevLights, Red, WhiteL),
                     NewlyLit(lights, s.prevLights, Green, WhiteR), i.now)
    ensures Step(s, i).state.phase != Awarding ==>
            (Step(s, i).state.phase ==
             if Elapsed(i.now, s.enteredAt) >= CONFIRMATION_TIMEOUT then Egpa else AwaitingConfirmation)
  {
    ConfirmConfirms(s, lights, i.now);
    var o := OnLights(s, lights, i.now, i.atEvent);
    if o.state.phase == Awarding {
      NoTimeoutYet(o.state, i.now, i.atTimeout);
    } else {
      WaitingLonger(o.state, i.now, i.atTimeout);
    }
  }

  /** In every run, a report of lights confirms the side that newly lights since the report before, if only one
      does: that side gets its point exactly if its coloured light was on in the episode. */
  lemma NewLightConfirms(s: State, run: seq<Input>, k: nat, lights: Mask)
    requires k < |run| && !InEpisode(s) && StateAt(s, run, k).phase == AwaitingConfirmation
    requires run[k].event == Some(Lights(lights))
    ensures var before := LastReported(run, k);
            Confirms(Outcome(StateAt(s, run, k + 1), SentAt(s, run, k)), EpisodeLights(s, run, k),
                     NewlyLit(lights, before, Red, WhiteL), NewlyLit(lights, before, Green, WhiteR), run[k].now)
  {
    EpisodeIsTracked(s, run, k);
    ConfirmStep(StateAt(s, run, k), run[k], lights);
  }

  /** Nothing is decided while a light is on, and nothing but coloured and white lights starts an episode. */
  lemma NothingSentWhileLit(s: State, run: seq<Input>, k: nat)
    requires k < |run| && StateAt(s, run, k).enabled && StateAt(s, run, k).phase in {Armed, WaitingForLightsOff}
    requires run[k].event.Some? && run[k].event.value.Lights?
    requires StateAt(s, run, k).phase == Armed || LightsOf(run[k]) != {}
    ensures SentAt(s, run, k) == [] && StateAt(s, run, k + 1).phase in {Armed, WaitingForLightsOff}
    ensures StateAt(s, run, k + 1).phase == WaitingForLightsOff <==>
            StateAt(s, run, k).phase == WaitingForLightsOff || AnyHit(LightsOf(run[k]))
  {
    LitStep(StateAt(s, run, k), run[k]);
  }

  // ---- When each command is sent ----

  /** What takes the referee out of any wait: a black card, a passivity mark, a double long press of both sides, and
      the end of a period that ends the match, a break, or a last round. */
  predicate Moves(e: Option<Event>) {
    match e
    case Some(LongPress(hit)) => LongHit.BothSides(Some(hit))
    case Some(TimerZero(t, last, equal)) => t == Break || t == AdditionalMinute || (t == Fighting && (last || !equal))
    case Some(BlackCard) => true
    case Some(PassivityMark) => true
    case _ => false
  }

  /** The wait of a phase is over. */
  predicate Due(s: State, phase: Phase, i: Input, wait: int) {
    s.phase == phase && !Moves(i.event) && Elapsed(i.now, s.enteredAt) >= wait
  }

  /** The timer-zero event of a period of state `t`. */
  predicate PeriodEnds(e: Option<Event>, t: TimerState, last: bool) {
    match e case Some(TimerZero(t', last', _)) => t == t' && last == last' case _ => false
  }

  predicate Taps(e: Option<Event>, left: bool) {
    match e case Some(DoubleTap(hits)) => if left then hits.validL else hits.validR case _ => false
  }

  predicate ScoresEqual(e: Option<Event>) { match e case Some(TimerZero(_, _, equal)) => equal case _ => false }

  /** Exactly when each command other than an award is sent. */
  ghost predicate SentByRule(s: State, i: Input, sent: seq<Command>) {
    && (StartTimer in sent <==>
        PeriodEnds(i.event, Fighting, false) || Due(s, Phase.PeriodEnd, i, PERIOD_END_DELAY)
        || (Due(s, Egpa, i, EGPA_DURATION) && i.atTimeout.weapon != Sabre))
    && (StopTimer in sent <==> i.event == Some(PassivityMark) && s.phase != MatchOver)
    && (PCard in sent <==> Due(s, Uw2fPCardWait, i, UW2F_PCARD_DELAY))
    && (Prio in sent <==> PeriodEnds(i.event, Fighting, true) && ScoresEqual(i.event))
    && (ResetMatch in sent <==> match i.event case Some(LongPress(hit)) => LongHit.BothSides(Some(hit)) case _ => false)
    && (DecrLeft in sent <==> s.phase == Awarding && Taps(i.event, true))
    && (DecrRight in sent <==> s.phase == Awarding && Taps(i.event, false))
  }

  predicate Wait(phase: Phase) { phase in {Egpa, Phase.PeriodEnd, Uw2fPCardWait, Uw2fResumeWait} }

  /** An event that moves the referee leaves it outside all waits, or at the start of one. */
  lemma MovedIsFresh(s: State, e: Event, i: Input)
    requires Moves(Some(e)) && s.enabled
    ensures var t := OnEvent(s, e, i.now, i.atEvent).state; Wait(t.phase) ==> t.enteredAt == i.now
  {
  }

  /** Lights lead neither into a wait nor out of it. */
  lemma LightsKeepWait(s: State, lights: Mask, i: Input)
    ensures var o := OnLights(s, lights, i.now, i.atEvent);
            && (Wait(s.phase) || Wait(o.state.phase) ==> o.state.phase == s.phase && o.state.enteredAt == s.enteredAt)
            && forall c <- o.sent :: c == IncrLeft || c == IncrRight
  {
    if s.phase == WaitingForLightsOff {
      DecideDecides(s.(peakLights := s.peakLights + lights), i.now, i.atEvent);
    } else if s.phase == AwaitingConfirmation {
      ConfirmConfirms(s, lights, i.now);
    }
  }

  lemma WaitKept(s: State, e: Event, i: Input)
    requires s.enabled && !Moves(Some(e))
    ensures var t := OnEvent(s, e, i.now, i.atEvent).state;
            Wait(s.phase) || Wait(t.phase) ==> t.phase == s.phase && t.enteredAt == s.enteredAt
  {
    if e.Lights? {
      LightsKeepWait(s, e.mask, i);
    }
  }

  /** The state in which the timeouts are handled. */
  function AfterEvent(s: State, i: Input): Outcome {
    match i.event case Some(e) => OnEvent(s, e, i.now, i.atEvent) case None => Outcome(s, [])
  }

  lemma DueAfterEvent(s: State, i: Input, phase: Phase, wait: int)
    requires s.enabled && Wait(phase) && wait > 0
    ensures var t := AfterEvent(s, i).state;
            Due(s, phase, i, wait) <==> t.phase == phase && Elapsed(i.now, t.enteredAt) >= wait
  {
    match i.event {
      case None =>
      case Some(e) =>
        if Moves(i.event) {
          MovedIsFresh(s, e, i);
        } else {
          WaitKept(s, e, i);
        }
    }
  }

  lemma EventSends(s: State, e: Event, i: Input)
    requires s.enabled
    ensures var sent := OnEvent(s, e, i.now, i.atEvent).sent;
            && (StartTimer in sent <==> PeriodEnds(Some(e), Fighting, false))
            && (StopTimer in sent <==> e == PassivityMark && s.phase != MatchOver)
            && PCard !in sent
            && (Prio in sent <==> PeriodEnds(Some(e), Fighting, true) && ScoresEqual(Some(e)))
            && (ResetMatch in sent <==> match e case LongPress(hit) => LongHit.BothSides(Some(hit)) case _ => false)
            && (DecrLeft in sent <==> s.phase == Awarding && Taps(Some(e), true))
            && (DecrRight in sent <==> s.phase == Awarding && Taps(Some(e), false))
  {
    if e.Lights? {
      LightsKeepWait(s, e.mask, i);
    }
  }

  lemma TimeSends(t: State, i: Input)
    ensures var sent := Timeouts(t, i.now, i.atTimeout).sent;
            && (StartTimer in sent <==>
                (t.phase == Phase.PeriodEnd && Elapsed(i.now, t.enteredAt) >= PERIOD_END_DELAY)
                || (t.phase == Egpa && Elapsed(i.now, t.enteredAt) >= EGPA_DURATION && i.atTimeout.weapon != Sabre))
            && (PCard in sent <==> t.phase == Uw2fPCardWait && Elapsed(i.now, t.enteredAt) >= UW2F_PCARD_DELAY)
            && forall c <- sent :: c == StartTimer || c == PCard
  {
  }

  /** In every state of a referee that is on, each command other than an award is sent exactly when its rule says:
      the clock starts for a break, after a period end and, except in sabre, after the call of the fencers; it stops
      for passivity; the P-card follows two seconds later; the priority is drawn at the end of a tied last round;
      and points are taken back only in the correction window, each for the side that tapped. */
  lemma CommandsByRule(s: State, i: Input)
    requires s.enabled
    ensures SentByRule(s, i, Step(s, i).sent)
  {
    var o := AfterEvent(s, i);
    TimeSends(o.state, i);
    DueAfterEvent(s, i, Phase.PeriodEnd, PERIOD_END_DELAY);
    DueAfterEvent(s, i, Egpa, EGPA_DURATION);
    DueAfterEvent(s, i, Uw2fPCardWait, UW2F_PCARD_DELAY);
    match i.event {
      case Some(e) => EventSends(s, e, i);
      case None =>
    }
  }

  /** Where an undisturbed wait leads, and that it ends neither before nor after its time. */
  function WaitOf(s: State): (int, Phase)
    requires Wait(s.phase)
  {
    match s.phase
    case Egpa => (EGPA_DURATION, Armed)
    case PeriodEnd => (PERIOD_END_DELAY, Armed)
    case Uw2fPCardWait => (UW2F_PCARD_DELAY, Uw2fResumeWait)
    case _ => (UW2F_RESUME_DELAY, Phase.PeriodEnd)
  }

  lemma WaitEnds(s: State, i: Input)
    requires s.enabled && Wait(s.phase) && !Moves(i.event)
    ensures var e, (wait, next) := Step(s, i).state, WaitOf(s);
            if Elapsed(i.now, s.enteredAt) < wait then e.phase == s.phase && e.enteredAt == s.enteredAt
            else e.phase == next && (Wait(next) ==> e.enteredAt == i.now)
  {
    match i.event {
      case Some(e) => WaitKept(s, e, i);
      case None =>
    }
  }

  lemma StaysOn(s: State, i: Input)
    requires s.enabled
    ensures Step(s, i).state.enabled
  {
    if !Step(s, i).state.enabled {
      OnlyLongPressResets(s, i);
      LongPressActs(s, i);
    }
  }

  predicate Waits(s: State, e: State) { e.enabled && e.phase == s.phase && e.enteredAt == s.enteredAt }

  predicate NoWaitCommand(sent: seq<Command>) { PCard !in sent && StopTimer !in sent }

  lemma WaitStep(s: State, i: Input)
    requires s.enabled && Wait(s.phase) && !Moves(i.event) && s.enteredAt <= i.now < s.enteredAt + WaitOf(s).0
    ensures Waits(s, Step(s, i).state) && NoWaitCommand(Step(s, i).sent)
  {
    WordElapsed(i.now, s.enteredAt);
    WaitEnds(s, i);
    StaysOn(s, i);
    CommandsByRule(s, i);
  }

  /** The input comes before the wait is over and does not take the referee out of it. */
  predicate Waitable(s: State, i: Input)
    requires Wait(s.phase)
  {
    !Moves(i.event) && s.enteredAt <= i.now < s.enteredAt + WaitOf(s).0
  }

  lemma NextWaits(s: State, run: seq<Input>, k: nat)
    requires k < |run| && Wait(s.phase) && Waits(s, StateAt(s, run, k)) && Waitable(s, run[k])
    ensures Waits(s, StateAt(s, run, k + 1)) && NoWaitCommand(SentAt(s, run, k))
  {
    WaitStep(StateAt(s, run, k), run[k]);
  }

  lemma {:induction false} WaitHolds(s: State, run: seq<Input>, n: nat)
    requires n <= |run| && s.enabled && Wait(s.phase) && forall k: nat | k < n :: Waitable(s, run[k])
    ensures Waits(s, StateAt(s, run, n))
  {
    if n > 0 {
      WaitHolds(s, run, n - 1);
      assert Waitable(s, run[n - 1]);
      NextWaits(s, run, n - 1);
    }
  }

  /** A wait lasts its time in every run that does not disturb it, and no step of the run sends what belongs to the
      passivity waits. */
  lemma WaitLasts(s: State, run: seq<Input>, k: nat)
    requires k < |run| && s.enabled && Wait(s.phase) && forall j: nat | j <= k :: Waitable(s, run[j])
    ensures Waits(s, StateAt(s, run, k)) && Waits(s, StateAt(s, run, k + 1)) && NoWaitCommand(SentAt(s, run, k))
  {
    WaitHolds(s, run, k);
    assert Waitable(s, run[k]);
    NextWaits(s, run, k);
  }

  /** The match is decided: a side has reached the maximum of five points a round and leads, or leads in overtime. */
  predicate Decided(b: Bout) {
    b.scoreLeft != b.scoreRight &&
    (b.timerState == AdditionalMinute || b.scoreLeft >= 5 * b.rounds || b.scoreRight >= 5 * b.rounds)
  }

  /** The correction window lasts five seconds after a point and one after an off-target; then the match is over if
      a point has decided it, the referee is back in Armed during a break, and else calls the fencers. */
  lemma CorrectionWindowEnds(s: State, i: Input)
    requires s.enabled && s.phase == Awarding && !Moves(i.event)
    ensures var e, b := Step(s, i).state, i.atTimeout;
            e.phase == if Elapsed(i.now, s.enteredAt) < (if s.offTarget then 1000 else 5000) then Awarding
                       else if !s.offTarget && Decided(b) then MatchOver
                       else if b.timerState == Break then Armed
                       else Egpa
  {
  }
}
