/**
 The owner of the canonical state: what the match machine, OPP2 messages, the competition software
 and the buttons may change in it, and the pre-rendered EFP1.1 strings that must follow it.
 */
module Opp2 {
  import opened Fencing
  import opened Efp1
  import opened Opp2State

  // ---- The cache ----

  datatype Cache = Cache(status: Msg, competitionId: string, info: string, next: string, prev: string, valid: bool)

  /** The message that the strings are made of. */
  function Wire(status: Msg, competitionId: string): (m: Msg)
    requires Full(status)
    ensures Full(m)
  {
    WithField(WithField(status, Command, "INFO"), CompetitionId, competitionId)
  }

  function Rebuilt(c: Cache): Cache
    requires Full(c.status)
  {
    var m := Wire(c.status, c.competitionId);
    c.(info := Print(m), next := Request(m, "NEXT"), prev := Request(m, "PREV"), valid := true)
  }

  function Stored(c: Cache, status: Msg): Cache
    requires Full(status)
  {
    Rebuilt(c.(status := status))
  }

  // ---- The handler ----

  datatype Protocol = NoProtocol | CyranoProtocol | Opp2Protocol

  /** The canonical state and who may change it; `blank` is what the OPP2 library default-constructs for
      fencers and match. */
  datatype Core = Core(state: SystemState, active: Protocol, auto: bool, blankFencers: Fencers, blankInfo: MatchInfo)

  /** A core after some updates, and whether one of them pushed the state to the cache; the last push
      always follows the last change. */
  datatype Outcome = Outcome(core: Core, push: bool)

  function Same(c: Core): Outcome { Outcome(c, false) }

  function Changed(c: Core): Outcome { Outcome(c, true) }

  datatype Handler = Handler(core: Core, cache: Cache)

  function Pushed(h: Handler): Handler { h.(cache := Stored(h.cache, Converted(h.core.state))) }

  function Applied(h: Handler, o: Outcome): Handler {
    if o.push then Pushed(h.(core := o.core)) else h.(core := o.core)
  }

  /** Two updates in a row; an update that does not push changes nothing that is shown. */
  lemma AppliedTwice(h: Handler, a: Outcome, b: Outcome)
    requires b.push || b.core.state == a.core.state
    ensures Applied(Applied(h, a), b) == Applied(h, Outcome(b.core, a.push || b.push))
  {
  }

  // ---- Change-detected updates ----

  function WithLights(h: Core, l: Lights): Outcome {
    if LightsEqual(h.state.lights, l) then Same(h) else Changed(h.(state := h.state.(lights := l)))
  }

  function WithScore(h: Core, s: Score): Outcome {
    if ScoreEqual(h.state.score, s) then Same(h) else Changed(h.(state := h.state.(score := s)))
  }

  function WithClock(h: Core, c: Clock): Outcome {
    if ClockEqual(h.state.clock, c) then Same(h) else Changed(h.(state := h.state.(clock := c)))
  }

  function WithApparatus(h: Core, a: Apparatus): Outcome {
    if ApparatusEqual(h.state.apparatus, a) then Same(h) else Changed(h.(state := h.state.(apparatus := a)))
  }

  function WithInfo(h: Core, i: MatchInfo): Outcome {
    if InfoEqual(h.state.info, i) then Same(h) else Changed(h.(state := h.state.(info := i)))
  }

  function WithFencers(h: Core, f: Fencers): Outcome {
    if FencersEqual(h.state.fencers, f) then Same(h) else Changed(h.(state := h.state.(fencers := f)))
  }

  function WithUw2f(h: Core, u: Uw2f): Outcome {
    if Uw2fEqual(h.state.uw2f, u) then Same(h) else Changed(h.(state := h.state.(uw2f := u)))
  }

  // ---- From the match machine ----

  /** The events of the match machine, with the data of their words taken apart; `due` says whether the
      throttled clock is shown. */
  datatype FsmEvent = LightsChanged(mask: Mask) | WeaponChanged(w: Weapon) | ScoreChanged(side: Side, v: nat)
                    | TimerStateChanged(running: bool) | TimerShown(minutes: nat, seconds: nat, centis: nat, due: bool)
                    | RoundChanged(round: nat, rounds: nat) | YellowChanged(side: Side, v: nat) | RedChanged(side: Side, v: nat)
                    | BlackChanged(side: Side, v: nat) | PCardChanged(left: nat, right: nat) | PrioChanged(v: nat)
                    | PassivityShown(minutes: nat, seconds: nat, centis: nat) | OtherFsmEvent

  /** Counts are kept in bytes. */
  function Count(n: int): nat { n % 256 }

  function SideOf(s: Score, side: Side): ScoreSide { if side == Left then s.left else s.right }

  function PutSide(s: Score, side: Side, c: ScoreSide): Score { if side == Left then s.(left := c) else s.(right := c) }

  /** A timer that starts or stops moves the apparatus between fencing and halt, unless it waits or ends. */
  function ApparatusMoved(h: Core, running: bool): Outcome {
    var a := h.state.apparatus;
    if a.state != ENDING && a.state != WAITING then WithApparatus(h, a.(state := if running then FENCING else HALT)) else Same(h)
  }

  function TimerMoved(h: Core, running: bool): Outcome {
    var moved := ApparatusMoved(h, running);
    var shown := WithClock(moved.core, h.state.clock.(running := running));
    Outcome(shown.core, moved.push || shown.push)
  }

  function Milliseconds(minutes: nat, seconds: nat, centis: nat): nat { minutes * 60000 + seconds * 1000 + centis * 10 }

  /** A black card excludes: the status of the opponent is set. */
  function BlackCarded(s: Score, side: Side, v: nat): Score {
    var other := if side == Left then Right else Left;
    var carded := PutSide(s, side, SideOf(s, side).(blackCard := v != 0));
    PutSide(carded, other, SideOf(carded, other).(status := if v != 0 then Exclusion else Undefined))
  }

  function FormatOf(i: MatchInfo, rounds: nat): MatchInfo {
    if rounds == 1 then i.(phaseType := Pool, matchType := Individual)
    else if rounds == 2 || rounds == 3 then i.(phaseType := DirectElimination, matchType := Individual)
    else if rounds == 9 then i.(phaseType := DirectElimination, matchType := Team)
    else i
  }

  predicate ScoreEvent(e: FsmEvent) {
    e.ScoreChanged? || e.YellowChanged? || e.RedChanged? || e.BlackChanged? || e.PrioChanged?
  }

  /** The score as an event that concerns scores and cards makes it. */
  function ScoreTold(c: Score, e: FsmEvent): Score
    requires ScoreEvent(e)
  {
    match e
    case ScoreChanged(side, v) => PutSide(c, side, SideOf(c, side).(score := Count(v)))
    case YellowChanged(side, v) => PutSide(c, side, SideOf(c, side).(yellowCard := v > 0))
    case RedChanged(side, v) => PutSide(c, side, SideOf(c, side).(redCards := Count(v)))
    case BlackChanged(side, v) => BlackCarded(c, side, v)
    case PrioChanged(v) => c.(priority := if v == 2 then PrioRight else if v == 1 then PrioLeft else NoPrio)
  }

  function FromFsm(h: Core, e: FsmEvent): Outcome {
    var s := h.state;
    if ScoreEvent(e) then WithScore(h, ScoreTold(s.score, e))
    else
      match e
      case LightsChanged(m) =>
        WithLights(h, s.lights.(left := LightSide(Red in m, WhiteL in m), right := LightSide(Green in m, WhiteR in m)))
      case WeaponChanged(w) => if w == UnknownWeapon then Same(h) else WithInfo(h, s.info.(weapon := w))
      case TimerStateChanged(running) => TimerMoved(h, running)
      case TimerShown(m, sec, c, due) =>
        if due then WithClock(h, s.clock.(timeMs := Milliseconds(m, sec, if c > 99 then 0 else c))) else Same(h)
      case RoundChanged(r, n) => WithInfo(h, FormatOf(s.info.(round := Count(r)), n))
      case PCardChanged(l, r) => WithUw2f(h, s.uw2f.(left := Count(l), right := Count(r)))
      case PassivityShown(m, sec, c) => WithUw2f(h, s.uw2f.(timeMs := Milliseconds(m, sec, c)))
      case OtherFsmEvent => Same(h)
  }

  // ---- From OPP2 ----

  datatype Permission = Permission(active: Protocol, allowed: bool)

  /** Cyrano takes the lock; OPP2 is accepted as long as Cyrano has not. */
  function Asked(active: Protocol, auto: bool, source: Protocol): Permission {
    if !auto then Permission(active, active == source)
    else
      match source
      case CyranoProtocol => Permission(CyranoProtocol, true)
      case Opp2Protocol =>
        if active == CyranoProtocol then Permission(active, false) else Permission(Opp2Protocol, true)
      case NoProtocol => Permission(active, false)
  }

  datatype Opp2Message = FencersMsg(f: Fencers) | InfoMsg(i: MatchInfo) | ClockMsg(c: Clock) | ScoreMsg(s: Score)
                       | LightsMsg(l: Lights) | ApparatusMsg(a: Apparatus) | Uw2fMsg(u: Uw2f)

  /** Fencers and match are taken only while waiting, the clock only while it stands still, and of
      apparatus states only waiting. */
  function Accepted(h: Core, m: Opp2Message): Outcome {
    match m
    case FencersMsg(f) => if h.state.apparatus.state == WAITING then WithFencers(h, f) else Same(h)
    case InfoMsg(i) => if h.state.apparatus.state == WAITING then WithInfo(h, i) else Same(h)
    case ClockMsg(c) => if h.state.clock.running then Same(h) else WithClock(h, c)
    case ScoreMsg(s) => WithScore(h, s)
    case LightsMsg(l) => WithLights(h, l)
    case ApparatusMsg(a) => if a.state == WAITING then WithApparatus(h, a) else Same(h)
    case Uw2fMsg(u) => WithUw2f(h, u)
  }

  function FromOpp2(h: Core, m: Opp2Message): Outcome {
    var p := Asked(h.active, h.auto, Opp2Protocol);
    if p.allowed then Accepted(h.(active := p.active), m) else Same(h.(active := p.active))
  }

  /** An acknowledged end: back to waiting, with fencers and match cleared. */
  function Acknowledged(h: Core): Outcome {
    var w := WithApparatus(h, Apparatus(WAITING, 0)).core;
    Changed(w.(state := w.state.(fencers := h.blankFencers, info := h.blankInfo)))
  }

  // ---- From the competition software ----

  function DigitsValue(s: string, acc: nat): nat {
    if s == "" || !('0' <= s[0] <= '9') then acc else DigitsValue(s[1..], acc * 10 + (s[0] as int - '0' as int))
  }

  function AfterDigits(s: string): string {
    if s == "" || !('0' <= s[0] <= '9') then s else AfterDigits(s[1..])
  }

  function AfterBlanks(s: string): string {
    if s != "" && Blank(s[0]) then AfterBlanks(s[1..]) else s
  }

  /** Leading blanks, a sign and digits; anything else counts as zero. */
  function Atoi(s: string): int {
    var t := AfterBlanks(s);
    if t == "" then 0
    else if t[0] == '-' then var v: int := DigitsValue(t[1..], 0); -v
    else if t[0] == '+' then DigitsValue(t[1..], 0)
    else DigitsValue(t, 0)
  }

  /** Unsigned minutes, and seconds if a colon follows directly. */
  function ClockText(s: string): nat {
    var t := AfterBlanks(s);
    var rest := AfterDigits(t);
    var minutes := DigitsValue(t, 0);
    var seconds := if rest != t && rest != "" && rest[0] == ':' then DigitsValue(AfterBlanks(rest[1..]), 0) else 0;
    (minutes * 60000 + seconds * 1000) % 0x1_0000_0000
  }

  /** A field that is given replaces the one kept. */
  function Or(field: string, kept: string): string { if field != "" then field else kept }

  function PersonFrom(p: Person, id: string, name: string, nation: string): Person {
    Person(p.present || id != "" || name != "" || nation != "", Or(name, p.name), Or(id, p.id), Or(nation, p.nation))
  }

  /** The fields of one fencer as a DISP message sets them; the parts are id, name, nation, score,
      status, yellow card, red cards, light, white light, medical, reserve, P-cards. */
  function ScoreFrom(c: ScoreSide, score: string, yellow: string, red: string): ScoreSide {
    c.(score := if score != "" then Count(Atoi(score)) else c.score,
       yellowCard := if yellow != "" then yellow == "1" else c.yellowCard,
       redCards := if red != "" then Count(Atoi(red)) else c.redCards)
  }

  function LightFrom(l: LightSide, light: string, white: string): LightSide {
    LightSide(if light != "" then light == "1" else l.onTarget, if white != "" then white == "1" else l.white)
  }

  function PriorityFrom(p: Priority, t: string): Priority {
    if t == "" then p else if t == "R" then PrioRight else if t == "L" then PrioLeft else NoPrio
  }

  function WeaponFrom(w: Weapon, t: string): Weapon {
    if t == "E" then Epee else if t == "S" then Sabre else if t == "F" then Foil else w
  }

  /** Field indices of a fencer, from the first field of the side. */
  const RIGHT_SIDE := 17
  const LEFT_SIDE := 29

  function FencerFrom(side: FencerSide, m: Msg, at: nat): FencerSide
    requires Full(m) && at + FENCER <= MAX_NR_FIELDS
  {
    side.(fencer := PersonFrom(side.fencer, Field(m, at), Field(m, at + 1), Field(m, at + 2)))
  }

  function FencersFrom(f: Fencers, m: Msg): Fencers
    requires Full(m)
  {
    f.(right := FencerFrom(f.right, m, RIGHT_SIDE), left := FencerFrom(f.left, m, LEFT_SIDE))
  }

  function ScoresFrom(s: Score, m: Msg): Score
    requires Full(m)
  {
    s.(right := ScoreFrom(s.right, Field(m, 20), Field(m, 22), Field(m, 23)),
       left := ScoreFrom(s.left, Field(m, 32), Field(m, 34), Field(m, 35)),
       priority := PriorityFrom(s.priority, Field(m, 12)))
  }

  function InfoFrom(i: MatchInfo, m: Msg): MatchInfo
    requires Full(m)
  {
    i.(weapon := WeaponFrom(i.weapon, Field(m, 11)),
       round := if Field(m, 7) != "" then Count(Atoi(Field(m, 7))) else i.round,
       phase := Or(Field(m, 4), i.phase), poule := Or(Field(m, 5), i.poule),
       matchNum := if Field(m, 6) != "" then Atoi(Field(m, 6)) % 0x1_0000 else i.matchNum,
       matchType := if Field(m, 10) == "" then i.matchType else if Field(m, 10) == "T" then Team else Individual)
  }

  function LightsFrom(l: Lights, m: Msg): Lights
    requires Full(m)
  {
    l.(right := LightFrom(l.right, Field(m, 24), Field(m, 25)), left := LightFrom(l.left, Field(m, 36), Field(m, 37)))
  }

  function Uw2fFrom(u: Uw2f, m: Msg): Uw2f
    requires Full(m)
  {
    u.(right := if Field(m, 28) != "" then Count(Atoi(Field(m, 28))) else u.right,
       left := if Field(m, 40) != "" then Count(Atoi(Field(m, 40))) else u.left)
  }

  function ClockFrom(c: Clock, m: Msg): Clock
    requires Full(m)
  {
    if Field(m, 9) != "" then c.(timeMs := ClockText(Field(m, 9))) else c
  }

  function Displayed(s: SystemState, m: Msg): SystemState
    requires Full(m)
  {
    s.(fencers := FencersFrom(s.fencers, m), score := ScoresFrom(s.score, m), info := InfoFrom(s.info, m),
       lights := LightsFrom(s.lights, m), uw2f := Uw2fFrom(s.uw2f, m), clock := ClockFrom(s.clock, m))
  }

  /** Some field is given that counts as a change, whether or not it differs; only the clock is compared. */
  predicate Announced(s: SystemState, m: Msg)
    requires Full(m)
  {
    || (exists i: nat | i < MAX_NR_FIELDS && Carries(i) :: Field(m, i) != "")
    || ClockFrom(s.clock, m) != s.clock
  }

  /** The fields that a DISP message is read for, except the stop watch. */
  predicate Carries(i: nat) {
    4 <= i <= 7 || 10 <= i <= 12 || 17 <= i <= 20 || 22 <= i <= 25 || 28 <= i <= 32 || 34 <= i <= 37 || i == 40
  }

  function FromDisp(h: Core, m: Msg): Outcome
    requires Full(m)
  {
    Outcome(h.(state := Displayed(h.state, m)), Announced(h.state, m))
  }

  /** A greeting brings the competition, for which the strings are made again. */
  function Greeted(c: Cache, competitionId: string): Cache {
    var g := c.(competitionId := competitionId);
    if g.valid && Full(g.status) then Rebuilt(g) else g
  }

  function FromCyrano(h: Core, m: Msg): Outcome
    requires Full(m)
  {
    match TypeOf(m)
    case DISP => FromDisp(h, m)
    case ACK => Acknowledged(h)
    case _ => Same(h)
  }

  // ---- From the buttons ----

  datatype Button = Swap | ReleaseLock | NextMatch | PrevMatch | Begin | End | OtherButton

  function FlippedPriority(p: Priority): Priority {
    match p case PrioLeft => PrioRight case PrioRight => PrioLeft case NoPrio => NoPrio
  }

  function Swapped(s: SystemState): SystemState {
    s.(fencers := s.fencers.(left := s.fencers.right, right := s.fencers.left),
       score := s.score.(left := s.score.right, right := s.score.left, priority := FlippedPriority(s.score.priority)),
       lights := s.lights.(left := s.lights.right, right := s.lights.left),
       uw2f := s.uw2f.(left := s.uw2f.right, right := s.uw2f.left))
  }

  function FromButton(h: Core, b: Button): Outcome {
    match b
    case Swap => Changed(h.(state := Swapped(h.state)))
    case ReleaseLock => Same(if h.auto then h.(active := NoProtocol) else h)
    case NextMatch => Changed(h)
    case PrevMatch => Changed(h)
    case Begin => WithApparatus(h, Apparatus(HALT, 0))
    case End => if h.state.apparatus.state == WAITING then Same(h) else WithApparatus(h, Apparatus(ENDING, 0))
    case OtherButton => Same(h)
  }

  // ---- Runs ----

  datatype Event = Fsm(e: FsmEvent) | Opp2Msg(m: Opp2Message) | Control(ack: bool) | Cyrano(msg: Msg, verify: bool)
                 | Press(b: Button) | ProtocolAsked(source: Protocol) | NewPisteId(id: string)

  predicate Wellformed(e: Event) { e.Cyrano? ==> Full(e.msg) }

  /** Whether a message of the competition software is for this piste. */
  predicate Addressed(s: SystemState, m: Msg, verify: bool)
    requires Full(m)
  {
    verify ==> Field(m, PisteId) == s.pisteId
  }

  function CoreStep(h: Core, e: Event): Outcome
    requires Wellformed(e)
  {
    match e
    case Fsm(f) => FromFsm(h, f)
    case Opp2Msg(m) => FromOpp2(h, m)
    case Control(ack) => if ack then Acknowledged(h) else Same(h)
    case Cyrano(m, verify) => if Addressed(h.state, m, verify) then FromCyrano(h, m) else Same(h)
    case Press(b) => FromButton(h, b)
    case ProtocolAsked(source) => Same(h.(active := Asked(h.active, h.auto, source).active))
    case NewPisteId(id) => Same(h.(state := h.state.(pisteId := id)))
  }

  /** A greeting only touches the cache. */
  function OnMessage(h: Handler, m: Msg, verify: bool): Handler
    requires Full(m)
  {
    if !Addressed(h.core.state, m, verify) then h
    else if TypeOf(m) == HELLO then h.(cache := Greeted(h.cache, Field(m, CompetitionId)))
    else Applied(h, FromCyrano(h.core, m))
  }

  function Step(h: Handler, e: Event): Handler
    requires Wellformed(e)
  {
    if e.Cyrano? then OnMessage(h, e.msg, e.verify) else Applied(h, CoreStep(h.core, e))
  }

  /** `tr` holds the states that the events of `run` lead through. */
  ghost predicate IsRun(tr: seq<Handler>, run: seq<Event>) {
    && |tr| == |run| + 1 && (forall k: nat | k < |run| :: Wellformed(run[k]))
    && forall k: nat {:trigger Step(tr[k], run[k])} | k < |run| :: tr[k + 1] == Step(tr[k], run[k])
  }

  // ---- The cache follows the state ----

  /** The cached strings are exactly what converting the state now, with the current competition,
      would print. */
  predicate Current(h: Handler) {
    var m := Wire(Converted(h.core.state), h.cache.competitionId);
    && h.cache.valid && h.cache.status == Converted(h.core.state)
    && h.cache.info == Print(m) && h.cache.next == Request(m, "NEXT") && h.cache.prev == Request(m, "PREV")
  }

  lemma PushedIsCurrent(h: Handler)
    ensures Current(Pushed(h))
  {
  }

  lemma GreetedIsCurrent(h: Handler, competitionId: string)
    requires Current(h)
    ensures Current(h.(cache := Greeted(h.cache, competitionId)))
  {
  }

  /** No change goes without a push. */
  predicate PushesChanges(h: Core, o: Outcome) { o.push || o.core.state == h.state }

  lemma AppliedIsCurrent(h: Handler, o: Outcome)
    requires Current(h) && PushesChanges(h.core, o)
    ensures Current(Applied(h, o))
  {
    PushedIsCurrent(h.(core := o.core));
  }

  lemma FsmPushes(h: Core, e: FsmEvent)
    ensures PushesChanges(h, FromFsm(h, e))
  {
  }

  lemma Opp2Pushes(h: Core, m: Opp2Message)
    ensures PushesChanges(h, FromOpp2(h, m))
  {
  }

  /** No field that a DISP message is read for is given, except for the stop watch. */
  lemma NothingCarried(s: SystemState, m: Msg)
    requires Full(m) && !Announced(s, m)
    ensures Field(m, 4) == "" && Field(m, 5) == "" && Field(m, 6) == "" && Field(m, 7) == "" && Field(m, 10) == ""
    ensures Field(m, 11) == "" && Field(m, 12) == "" && Field(m, 17) == "" && Field(m, 18) == "" && Field(m, 19) == ""
    ensures Field(m, 20) == "" && Field(m, 22) == "" && Field(m, 23) == "" && Field(m, 24) == "" && Field(m, 25) == ""
    ensures Field(m, 28) == "" && Field(m, 29) == "" && Field(m, 30) == "" && Field(m, 31) == "" && Field(m, 32) == ""
    ensures Field(m, 34) == "" && Field(m, 35) == "" && Field(m, 36) == "" && Field(m, 37) == "" && Field(m, 40) == ""
  {
    assert forall i: nat | i < MAX_NR_FIELDS && Carries(i) :: Field(m, i) == "";
  }

  lemma SidesUnchanged(s: SystemState, m: Msg)
    requires Full(m) && !Announced(s, m)
    ensures FencersFrom(s.fencers, m) == s.fencers && ScoresFrom(s.score, m) == s.score
    ensures LightsFrom(s.lights, m) == s.lights && Uw2fFrom(s.uw2f, m) == s.uw2f
  {
    NothingCarried(s, m);
  }

  /** A DISP message without any field that announces a change leaves the state as it is. */
  lemma UnannouncedChangesNothing(s: SystemState, m: Msg)
    requires Full(m) && !Announced(s, m)
    ensures Displayed(s, m) == s
  {
    NothingCarried(s, m);
    SidesUnchanged(s, m);
    assert InfoFrom(s.info, m) == s.info;
  }

  lemma CyranoPushes(h: Core, m: Msg)
    requires Full(m)
    ensures PushesChanges(h, FromCyrano(h, m))
  {
    if !Announced(h.state, m) {
      UnannouncedChangesNothing(h.state, m);
    }
  }

  lemma ButtonPushes(h: Core, b: Button)
    ensures PushesChanges(h, FromButton(h, b))
  {
  }

  lemma CorePushes(h: Core, e: Event)
    requires Wellformed(e) && !e.NewPisteId? && !e.Cyrano?
    ensures PushesChanges(h, CoreStep(h, e))
  {
    match e {
      case Fsm(f) => FsmPushes(h, f);
      case Opp2Msg(m) => Opp2Pushes(h, m);
      case Press(b) => ButtonPushes(h, b);
      case _ =>
    }
  }

  lemma MessageKeepsCurrent(h: Handler, m: Msg, verify: bool)
    requires Current(h) && Full(m)
    ensures Current(OnMessage(h, m, verify))
  {
    if TypeOf(m) == HELLO {
      GreetedIsCurrent(h, Field(m, CompetitionId));
    } else {
      CyranoPushes(h.core, m);
      AppliedIsCurrent(h, FromCyrano(h.core, m));
    }
  }

  lemma StepKeepsCurrent(h: Handler, e: Event)
    requires Current(h) && Wellformed(e) && !e.NewPisteId?
    ensures Current(Step(h, e))
  {
    if e.Cyrano? {
      MessageKeepsCurrent(h, e.msg, e.verify);
    } else {
      CorePushes(h.core, e);
      AppliedIsCurrent(h, CoreStep(h.core, e));
    }
  }

  lemma NextIsCurrent(tr: seq<Handler>, run: seq<Event>, n: nat)
    requires IsRun(tr, run) && n < |run| && Current(tr[n]) && !run[n].NewPisteId?
    ensures Current(tr[n + 1])
  {
    StepKeepsCurrent(tr[n], run[n]);
  }

  predicate PassedOn(holds: seq<bool>, k: nat) { k + 1 < |holds| && (holds[k] ==> holds[k + 1]) }

  /** What holds at first and is passed on holds at last. */
  lemma {:induction false} Chain(holds: seq<bool>, n: nat)
    requires n < |holds| && holds[0] && forall k: nat | k < n :: PassedOn(holds, k)
    ensures holds[n]
  {
    if n > 0 {
      Chain(holds, n - 1);
      assert PassedOn(holds, n - 1);
    }
  }

  function CurrentAlong(tr: seq<Handler>): (holds: seq<bool>)
    ensures |holds| == |tr| && forall k: nat | k < |tr| :: holds[k] == Current(tr[k])
  {
    seq(|tr|, k requires 0 <= k < |tr| => Current(tr[k]))
  }

  lemma CurrentPassedOn(tr: seq<Handler>, run: seq<Event>, k: nat)
    requires IsRun(tr, run) && k < |run| && !run[k].NewPisteId?
    ensures PassedOn(CurrentAlong(tr), k)
  {
    if Current(tr[k]) {
      NextIsCurrent(tr, run, k);
    }
  }

  /** After every event but a new piste name, whatever came before, the cached INFO, NEXT and PREV
      strings are what converting the state now would print. */
  lemma CacheFollowsState(tr: seq<Handler>, run: seq<Event>, n: nat)
    requires IsRun(tr, run) && n <= |run| && Current(tr[0]) && forall k: nat | k < |run| :: !run[k].NewPisteId?
    ensures Current(tr[n])
  {
    forall k: nat | k < n
      ensures PassedOn(CurrentAlong(tr), k)
    {
      CurrentPassedOn(tr, run, k);
    }
    Chain(CurrentAlong(tr), n);
  }

  lemma NameShows(s: SystemState, id: string)
    requires Converted(s) == Converted(s.(pisteId := id))
    ensures id == s.pisteId
  {
    assert Converted(s).general[PisteId] == s.pisteId;
  }

  lemma WireIsCanonical(s: SystemState, competitionId: string)
    requires CleanState(s) && Clean(competitionId)
    ensures Canonical(Wire(Converted(s), competitionId))
  {
    var c := Converted(s);
    ConvertedIsCanonical(s);
    LettersAreClean();
    CleanFieldsStay(c, Command, "INFO");
    CleanFieldsStay(WithField(c, Command, "INFO"), CompetitionId, competitionId);
  }

  lemma CleanFieldsStay(m: Msg, i: nat, v: string)
    requires Canonical(m) && 0 < i < GENERAL && Clean(v)
    ensures Canonical(WithField(m, i, v))
  {
  }

  /** A current INFO string reads back as the converted state with the competition, if no text holds a divider. */
  lemma CurrentIsPrinted(h: Handler)
    requires Current(h) && CleanState(h.core.state) && Clean(h.cache.competitionId)
    ensures Areas(h.cache.info) != []
    ensures Parse(h.cache.info) == Wire(Converted(h.core.state), h.cache.competitionId)
  {
    WireIsCanonical(h.core.state, h.cache.competitionId);
    RoundTrip(Wire(Converted(h.core.state), h.cache.competitionId));
  }

  function Renamed(h: Handler, id: string): Handler { h.(core := h.core.(state := h.core.state.(pisteId := id))) }

  lemma NewNameStep(h: Handler, id: string)
    ensures Step(h, NewPisteId(id)) == Renamed(h, id)
  {
  }

  lemma OtherNameIsStale(h: Handler, id: string)
    requires Current(h) && id != h.core.state.pisteId
    ensures !Current(Renamed(h, id))
  {
    var s := h.core.state;
    if Converted(s) == Converted(s.(pisteId := id)) {
      NameShows(s, id);
    }
  }

  /** A new piste name is not pushed: the cache goes stale exactly if the name differs. */
  lemma NewNameGoesStale(h: Handler, id: string)
    requires Current(h)
    ensures Current(Step(h, NewPisteId(id))) <==> id == h.core.state.pisteId
  {
    NewNameStep(h, id);
    if id == h.core.state.pisteId {
      assert Renamed(h, id) == h;
    } else {
      OtherNameIsStale(h, id);
    }
  }

  /** The event renders the strings anew from the state. */
  predicate Pushes(h: Handler, e: Event)
    requires Wellformed(e)
  {
    if e.Cyrano? then
      Addressed(h.core.state, e.msg, e.verify) && TypeOf(e.msg) != HELLO && FromCyrano(h.core, e.msg).push
    else CoreStep(h.core, e).push
  }

  /** The piste name at the last push, or at the start. */
  function PushedName(tr: seq<Handler>, run: seq<Event>, n: nat): string
    requires IsRun(tr, run) && n <= |run|
  {
    if n == 0 then tr[0].core.state.pisteId
    else if Pushes(tr[n - 1], run[n - 1]) then tr[n].core.state.pisteId
    else PushedName(tr, run, n - 1)
  }

  /** But for the piste name, for which `name` stands, the cache is current. */
  predicate CurrentAs(h: Handler, name: string) { Current(Renamed(h, name)) }

  lemma AppliedIsCurrentAs(h: Handler, o: Outcome, name: string)
    requires CurrentAs(h, name) && PushesChanges(h.core, o)
    ensures CurrentAs(Applied(h, o), if o.push then o.core.state.pisteId else name)
  {
    if o.push {
      var p := Pushed(h.(core := o.core));
      PushedIsCurrent(h.(core := o.core));
      assert Renamed(p, o.core.state.pisteId) == p;
    }
  }

  lemma GreetedIsCurrentAs(h: Handler, competitionId: string, name: string)
    requires CurrentAs(h, name)
    ensures CurrentAs(h.(cache := Greeted(h.cache, competitionId)), name)
  {
    GreetedIsCurrent(Renamed(h, name), competitionId);
  }

  lemma MessageKeepsCurrentAs(h: Handler, m: Msg, verify: bool, name: string)
    requires Full(m) && CurrentAs(h, name)
    ensures var e := Cyrano(m, verify);
            CurrentAs(OnMessage(h, m, verify), if Pushes(h, e) then OnMessage(h, m, verify).core.state.pisteId else name)
  {
    if TypeOf(m) == HELLO {
      GreetedIsCurrentAs(h, Field(m, CompetitionId), name);
    } else {
      CyranoPushes(h.core, m);
      AppliedIsCurrentAs(h, FromCyrano(h.core, m), name);
    }
  }

  lemma StepKeepsCurrentAs(h: Handler, e: Event, name: string)
    requires Wellformed(e) && CurrentAs(h, name)
    ensures CurrentAs(Step(h, e), if Pushes(h, e) then Step(h, e).core.state.pisteId else name)
  {
    if e.Cyrano? {
      MessageKeepsCurrentAs(h, e.msg, e.verify, name);
    } else if e.NewPisteId? {
      NewNameStep(h, e.id);
      assert Renamed(Renamed(h, e.id), name) == Renamed(h, name);
    } else {
      CorePushes(h.core, e);
      AppliedIsCurrentAs(h, CoreStep(h.core, e), name);
    }
  }

  lemma NextIsCurrentAs(tr: seq<Handler>, run: seq<Event>, n: nat)
    requires IsRun(tr, run) && n < |run| && CurrentAs(tr[n], PushedName(tr, run, n))
    ensures CurrentAs(tr[n + 1], PushedName(tr, run, n + 1))
  {
    StepKeepsCurrentAs(tr[n], run[n], PushedName(tr, run, n));
  }

  function CurrentAsAlong(tr: seq<Handler>, run: seq<Event>): (holds: seq<bool>)
    requires IsRun(tr, run)
    ensures |holds| == |tr| && forall k: nat | k < |tr| :: holds[k] == CurrentAs(tr[k], PushedName(tr, run, k))
  {
    seq(|tr|, k requires 0 <= k < |tr| => CurrentAs(tr[k], PushedName(tr, run, k)))
  }

  lemma CurrentAsPassedOn(tr: seq<Handler>, run: seq<Event>, k: nat)
    requires IsRun(tr, run) && k < |run|
    ensures PassedOn(CurrentAsAlong(tr, run), k)
  {
    if CurrentAs(tr[k], PushedName(tr, run, k)) {
      NextIsCurrentAs(tr, run, k);
    }
  }

  lemma CurrentAsPushed(tr: seq<Handler>, run: seq<Event>, n: nat)
    requires IsRun(tr, run) && n <= |run| && CurrentAsAlong(tr, run)[0]
    ensures CurrentAsAlong(tr, run)[n]
  {
    forall k: nat | k < n
      ensures PassedOn(CurrentAsAlong(tr, run), k)
    {
      CurrentAsPassedOn(tr, run, k);
    }
    Chain(CurrentAsAlong(tr, run), n);
  }

  lemma CurrentUnderOneName(h: Handler, name: string)
    requires CurrentAs(h, name)
    ensures Current(h) <==> h.core.state.pisteId == name
  {
    var r := Renamed(h, name);
    assert Renamed(r, h.core.state.pisteId) == h;
    if h.core.state.pisteId == name {
      assert r == h;
    } else {
      OtherNameIsStale(r, h.core.state.pisteId);
    }
  }

  /** After any run at all, new piste names included, the cached strings are those of the state now
      exactly if the piste has the name it had at the last push; otherwise they are off by that name alone. */
  lemma CurrentSinceLastPush(tr: seq<Handler>, run: seq<Event>, n: nat)
    requires IsRun(tr, run) && n <= |run| && Current(tr[0])
    ensures Current(tr[n]) <==> tr[n].core.state.pisteId == PushedName(tr, run, n)
    ensures Current(Renamed(tr[n], PushedName(tr, run, n)))
  {
    assert Renamed(tr[0], tr[0].core.state.pisteId) == tr[0];
    CurrentAsPushed(tr, run, n);
    CurrentUnderOneName(tr[n], PushedName(tr, run, n));
  }

  // ---- The state of the apparatus ----

  /** Waiting is left only by the BEGIN button, and only to halt. */
  lemma WaitingEndsWithBegin(h: Core, e: Event)
    requires Wellformed(e) && h.state.apparatus.state == WAITING
    ensures CoreStep(h, e).core.state.apparatus.state == if e == Press(Begin) then HALT else WAITING
  {
  }

  lemma StepCore(h: Handler, e: Event)
    requires Wellformed(e)
    ensures Step(h, e).core == CoreStep(h.core, e).core
  {
  }

  predicate Waits(h: Handler) { h.core.state.apparatus.state == WAITING }

  lemma BeginsBetween(tr: seq<Handler>, run: seq<Event>, i: nat)
    requires IsRun(tr, run) && i < |run| && Waits(tr[i]) && !Waits(tr[i + 1])
    ensures run[i] == Press(Begin) && tr[i + 1].core.state.apparatus.state == HALT
  {
    WaitingEndsWithBegin(tr[i].core, run[i]);
    StepCore(tr[i], run[i]);
  }

  /** A run that starts waiting and is found elsewhere has passed through halt, at a press of BEGIN, and
      waited until then; fencing, pause and end are never reached from waiting without it. */
  lemma {:induction false} WaitingLeadsThroughHalt(tr: seq<Handler>, run: seq<Event>, i: nat, j: nat) returns (k: nat)
    requires IsRun(tr, run) && i < j <= |run| && Waits(tr[i]) && !Waits(tr[j])
    ensures i < k <= j && run[k - 1] == Press(Begin) && tr[k].core.state.apparatus.state == HALT
    ensures forall n: nat | i <= n < k :: Waits(tr[n])
    ensures tr[j].core.state.apparatus.state != HALT ==> k < j
    decreases j - i
  {
    if Waits(tr[i + 1]) {
      k := WaitingLeadsThroughHalt(tr, run, i + 1, j);
    } else {
      k := i + 1;
      BeginsBetween(tr, run, i);
    }
  }

  // ---- What OPP2 may change ----

  /** A message changes fencers or match only while the apparatus waits. */
  lemma MessagesRespectTheBout(h: Core, m: Opp2Message)
    requires h.state.apparatus.state != WAITING
    ensures FromOpp2(h, m).core.state.fencers == h.state.fencers && FromOpp2(h, m).core.state.info == h.state.info
  {
  }

  /** An acknowledgement clears them too, but puts the apparatus back to waiting with it. */
  lemma AcknowledgedWaits(h: Core)
    ensures var s := CoreStep(h, Control(true)).core.state;
            s.apparatus.state == WAITING && s.fencers == h.blankFencers && s.info == h.blankInfo
    ensures CoreStep(h, Control(false)) == Same(h)
  {
  }

  // ---- The protocol lock ----

  /** Who holds the lock after an event. */
  lemma ActiveAfter(h: Core, e: Event)
    requires Wellformed(e)
    ensures CoreStep(h, e).core.auto == h.auto
    ensures CoreStep(h, e).core.active ==
            match e
            case Opp2Msg(m) => Asked(h.active, h.auto, Opp2Protocol).active
            case ProtocolAsked(source) => Asked(h.active, h.auto, source).active
            case Press(b) => if b == ReleaseLock && h.auto then NoProtocol else h.active
            case _ => h.active
  {
  }

  predicate LockedOut(h: Handler) { h.core.auto && h.core.active == CyranoProtocol }

  lemma LockHolds(h: Handler, e: Event)
    requires Wellformed(e) && LockedOut(h) && e != Press(ReleaseLock)
    ensures LockedOut(Step(h, e)) && (e.Opp2Msg? ==> Step(h, e) == h)
  {
    ActiveAfter(h.core, e);
    StepCore(h, e);
  }

  lemma LockTaken(h: Handler)
    requires h.core.auto
    ensures LockedOut(Step(h, ProtocolAsked(CyranoProtocol)))
  {
  }

  /** Nothing is left for an acknowledgement to clear. */
  predicate Cleared(h: Core) {
    ApparatusEqual(h.state.apparatus, Apparatus(WAITING, 0)) && h.state.fencers == h.blankFencers && h.state.info == h.blankInfo
  }

  lemma AcknowledgedChanges(h: Core)
    ensures Acknowledged(h).core == h <==> Cleared(h)
  {
  }

  /** Control commands of OPP2 are not asked for permission: whoever holds the lock, an acknowledgement
      changes the state unless there is nothing left to clear, and no other command ever does. */
  lemma ControlIgnoresLock(h: Handler, ack: bool)
    ensures Step(h, Control(ack)).core == h.core <==> !ack || Cleared(h.core)
    ensures !ack ==> Step(h, Control(ack)) == h
  {
    StepCore(h, Control(ack));
    AcknowledgedChanges(h.core);
  }

  lemma {:induction false} LockStays(tr: seq<Handler>, run: seq<Event>, i: nat, j: nat)
    requires IsRun(tr, run) && i <= j <= |run| && LockedOut(tr[i])
    requires forall k: nat | i <= k < j :: run[k] != Press(ReleaseLock)
    ensures LockedOut(tr[j])
    decreases j - i
  {
    if i < j {
      LockHolds(tr[i], run[i]);
      LockStays(tr, run, i + 1, j);
    }
  }

  /** Once Cyrano has been passed to the permission check under auto-detection, and until the reset button
      releases the lock, every state message of OPP2 is without any effect. An event from OPP2, message or
      control command, then leaves the state as it is if and only if it is not an acknowledgement with
      something left to clear. */
  lemma CyranoLocksOpp2Out(tr: seq<Handler>, run: seq<Event>, i: nat, j: nat)
    requires IsRun(tr, run) && i < j < |run| && tr[i].core.auto && run[i] == ProtocolAsked(CyranoProtocol)
    requires forall k: nat | i < k < j :: run[k] != Press(ReleaseLock)
    ensures LockedOut(tr[j]) && (run[j].Opp2Msg? ==> tr[j + 1] == tr[j])
    ensures run[j].Opp2Msg? || run[j].Control? ==>
            (tr[j + 1].core == tr[j].core <==> run[j] != Control(true) || Cleared(tr[j].core))
  {
    LockTaken(tr[i]);
    LockStays(tr, run, i + 1, j);
    if run[j].Opp2Msg? {
      LockHolds(tr[j], run[j]);
    } else if run[j].Control? {
      ControlIgnoresLock(tr[j], run[j].ack);
    }
  }

  /** The acknowledgement that gets through the lock: during a halt it puts the apparatus to waiting and
      clears fencers and match. */
  lemma AckPassesTheLock(h: Handler)
    requires LockedOut(h) && h.core.state.apparatus.state == HALT
    ensures var s := Step(h, Control(true)).core.state;
            s != h.core.state && s.apparatus.state == WAITING && s.fencers == h.core.blankFencers && s.info == h.core.blankInfo
  {
    AcknowledgedWaits(h.core);
    StepCore(h, Control(true));
  }

  lemma NobodyElseLocks(h: Handler, e: Event)
    requires Wellformed(e) && h.core.active != CyranoProtocol && e != ProtocolAsked(CyranoProtocol)
    ensures Step(h, e).core.active != CyranoProtocol
  {
    ActiveAfter(h.core, e);
    StepCore(h, e);
  }

  /** No message of the competition software takes that lock: a run in which the check is never asked
      for Cyrano never locks OPP2 out, whatever DISP and HELLO messages arrive. */
  lemma {:induction false} CyranoMessagesDoNotLock(tr: seq<Handler>, run: seq<Event>, n: nat)
    requires IsRun(tr, run) && n <= |run| && tr[0].core.active != CyranoProtocol
    requires forall k: nat | k < |run| :: run[k] != ProtocolAsked(CyranoProtocol)
    ensures tr[n].core.active != CyranoProtocol
  {
    if n > 0 {
      CyranoMessagesDoNotLock(tr, run, n - 1);
      NobodyElseLocks(tr[n - 1], run[n - 1]);
    }
  }
}
