/**
 The canonical state of a piste as the OPP2 messages carry it, the comparisons that detect changes,
 and its conversion to an EFP1.1 status.
 */
module Opp2State {
  import opened Fencing
  import opened Efp1

  datatype ApparatusState = FENCING | HALT | PAUSE | WAITING | ENDING | UNKNOWN_STATE

  datatype FencerStatus = Undefined | Victory | Defeat | Abandonment | Exclusion | Dns

  datatype MatchType = Individual | Team

  datatype PhaseType = Pool | DirectElimination | OtherPhase

  datatype Person = Person(present: bool, name: string, id: string, nation: string)

  datatype FencerSide = FencerSide(fencer: Person, coach: Person)

  /** `seqNr` stands for the sequence number and time stamp that every message carries and no comparison looks at. */
  datatype Fencers = Fencers(left: FencerSide, right: FencerSide, referee: Person, videoOfficial: Person, seqNr: int)

  datatype ScoreSide = ScoreSide(score: nat, redCards: nat, yellowCard: bool, blackCard: bool, status: FencerStatus)

  datatype Score = Score(left: ScoreSide, right: ScoreSide, priority: Priority, seqNr: int)

  datatype MatchInfo = MatchInfo(weapon: Weapon, matchType: MatchType, phaseType: PhaseType, round: nat, matchNum: nat,
                                 competition: string, phase: string, poule: string, seqNr: int)

  datatype Clock = Clock(timeMs: nat, running: bool, seqNr: int)

  datatype Apparatus = Apparatus(state: ApparatusState, seqNr: int)

  datatype Uw2f = Uw2f(timeMs: nat, left: nat, right: nat, seqNr: int)

  datatype LightSide = LightSide(onTarget: bool, white: bool)

  datatype Lights = Lights(left: LightSide, right: LightSide, seqNr: int)

  datatype SystemState = SystemState(pisteId: string, fencers: Fencers, score: Score, info: MatchInfo, clock: Clock,
                                     apparatus: Apparatus, uw2f: Uw2f, lights: Lights)

  // ---- Change detection ----

  predicate LightsEqual(a: Lights, b: Lights) { a.left == b.left && a.right == b.right }

  predicate ClockEqual(a: Clock, b: Clock) { a.timeMs == b.timeMs && a.running == b.running }

  predicate ScoreEqual(a: Score, b: Score) { a.left == b.left && a.right == b.right && a.priority == b.priority }

  /** Two absent persons are equal whatever their names. */
  predicate PersonEqual(a: Person, b: Person) {
    a.present == b.present && (a.present ==> a.name == b.name && a.id == b.id && a.nation == b.nation)
  }

  predicate SideEqual(a: FencerSide, b: FencerSide) { PersonEqual(a.fencer, b.fencer) && PersonEqual(a.coach, b.coach) }

  predicate FencersEqual(a: Fencers, b: Fencers) {
    && SideEqual(a.left, b.left) && SideEqual(a.right, b.right)
    && PersonEqual(a.referee, b.referee) && PersonEqual(a.videoOfficial, b.videoOfficial)
  }

  predicate InfoEqual(a: MatchInfo, b: MatchInfo) {
    && a.weapon == b.weapon && a.matchType == b.matchType && a.phaseType == b.phaseType && a.round == b.round
    && a.matchNum == b.matchNum && a.competition == b.competition && a.phase == b.phase && a.poule == b.poule
  }

  predicate ApparatusEqual(a: Apparatus, b: Apparatus) { a.state == b.state }

  predicate Uw2fEqual(a: Uw2f, b: Uw2f) { a.timeMs == b.timeMs && a.left == b.left && a.right == b.right }

  // ---- Text ----

  function Numeral(n: nat): char
    requires n < 10
  {
    "0123456789"[n]
  }

  function Decimal(n: nat): string {
    (if n < 10 then "" else Decimal(n / 10)) + [Numeral(n % 10)]
  }

  function TwoDigits(n: nat): string { if n < 10 then "0" + Decimal(n) else Decimal(n) }

  /** What fits a buffer of eight characters with its terminator. */
  function Cut7(s: string): string { if |s| > 7 then s[..7] else s }

  function Flag(b: bool): string { if b then "1" else "0" }

  // ---- Conversion ----

  function WeaponText(w: Weapon): string {
    match w case Epee => "E" case Foil => "F" case Sabre => "S" case UnknownWeapon => "F"
  }

  function StateText(s: ApparatusState): string {
    match s
    case WAITING => "W"
    case FENCING => "F"
    case HALT => "H"
    case PAUSE => "P"
    case ENDING => "E"
    case UNKNOWN_STATE => "W"
  }

  function PriorityText(p: Priority): string {
    match p case PrioLeft => "L" case PrioRight => "R" case NoPrio => "N"
  }

  function StatusText(s: FencerStatus): string {
    match s
    case Victory => "V"
    case Defeat => "D"
    case Abandonment => "A"
    case Exclusion => "E"
    case Dns => "DNS"
    case Undefined => "U"
  }

  function TimeText(c: Clock): string {
    var seconds := c.timeMs / 1000;
    Cut7(TwoDigits(seconds / 60) + ":" + TwoDigits(seconds % 60))
  }

  function GeneralFields(s: SystemState): (g: seq<string>)
    ensures |g| == GENERAL && g[Protocol] == EFP1_1
  {
    [EFP1_1, "INFO", s.pisteId, "", s.info.phase, s.info.poule, Cut7(Decimal(s.info.matchNum)),
     Cut7(Decimal(s.info.round)), "", TimeText(s.clock), if s.info.matchType == Team then "T" else "I",
     WeaponText(s.info.weapon), PriorityText(s.score.priority), StateText(s.apparatus.state), "", "", ""]
  }

  /** The twelve fields of a fencer, in the order of the protocol. */
  function SideFields(p: Person, c: ScoreSide, l: LightSide, pCards: nat): (f: seq<string>)
    ensures |f| == FENCER
  {
    [if p.present then p.id else "", if p.present then p.name else "", if p.present then p.nation else "",
     Cut7(Decimal(c.score)), StatusText(c.status), Flag(c.yellowCard), Cut7(Decimal(c.redCards)),
     Flag(l.onTarget), Flag(l.white), "0", "N", Cut7(Decimal(pCards))]
  }

  function Converted(s: SystemState): (m: Msg)
    ensures Shaped(m)
  {
    Msg(GeneralFields(s),
        SideFields(s.fencers.right.fencer, s.score.right, s.lights.right, s.uw2f.right),
        SideFields(s.fencers.left.fencer, s.score.left, s.lights.left, s.uw2f.left))
  }

  /** The states pass for equal in every part that the handler compares. */
  predicate StatesEqual(a: SystemState, b: SystemState) {
    && a.pisteId == b.pisteId && FencersEqual(a.fencers, b.fencers) && ScoreEqual(a.score, b.score)
    && InfoEqual(a.info, b.info) && ClockEqual(a.clock, b.clock) && ApparatusEqual(a.apparatus, b.apparatus)
    && Uw2fEqual(a.uw2f, b.uw2f) && LightsEqual(a.lights, b.lights)
  }

  lemma SideFieldsOfEqual(p: Person, q: Person, c: ScoreSide, l: LightSide, n: nat)
    requires PersonEqual(p, q)
    ensures SideFields(p, c, l, n) == SideFields(q, c, l, n)
  {
  }

  /** Change detection misses nothing that the competition software could see: states that pass for
      equal are converted to the same status. */
  lemma EqualStatesLookTheSame(a: SystemState, b: SystemState)
    requires StatesEqual(a, b)
    ensures Converted(a) == Converted(b)
  {
    SideFieldsOfEqual(a.fencers.right.fencer, b.fencers.right.fencer, a.score.right, a.lights.right, a.uw2f.right);
    SideFieldsOfEqual(a.fencers.left.fencer, b.fencers.left.fencer, a.score.left, a.lights.left, a.uw2f.left);
  }

  // ---- What the software reads back ----

  lemma {:induction false} DecimalIsClean(n: nat)
    ensures Clean(Decimal(n))
  {
    if n >= 10 {
      DecimalIsClean(n / 10);
    }
    NumeralIsClean(n % 10);
  }

  lemma NumeralIsClean(n: nat)
    requires n < 10
    ensures Numeral(n) != '|' && Numeral(n) != '%'
  {
    assert n == 0 || n == 1 || n == 2 || n == 3 || n == 4 || n == 5 || n == 6 || n == 7 || n == 8 || n == 9;
  }

  lemma CutIsClean(s: string)
    requires Clean(s)
    ensures Clean(Cut7(s))
  {
    assert forall c | c in Cut7(s) :: c in s;
  }

  lemma NumberIsClean(n: nat)
    ensures Clean(Cut7(Decimal(n)))
  {
    DecimalIsClean(n);
    CutIsClean(Decimal(n));
  }

  lemma LettersAreClean()
    ensures Clean("") && Clean("0") && Clean("1") && Clean("N") && Clean("U") && Clean("V") && Clean("D") && Clean("A")
    ensures Clean("E") && Clean("F") && Clean("S") && Clean("W") && Clean("H") && Clean("P") && Clean("L") && Clean("R")
    ensures Clean("I") && Clean("T") && Clean("DNS") && Clean("INFO") && Clean(EFP1_1)
  {
  }

  lemma StatusIsClean(s: FencerStatus, b: bool)
    ensures Clean(StatusText(s)) && Clean(Flag(b))
  {
    LettersAreClean();
  }

  lemma HeaderIsClean(s: SystemState)
    ensures Clean(WeaponText(s.info.weapon)) && Clean(PriorityText(s.score.priority))
    ensures Clean(StateText(s.apparatus.state)) && Clean(if s.info.matchType == Team then "T" else "I")
  {
    LettersAreClean();
  }

  lemma {:induction false} CleanTogether(a: seq<string>, b: seq<string>)
    requires AllClean(a) && AllClean(b)
    ensures AllClean(a + b)
  {
  }

  lemma TimeIsClean(c: Clock)
    ensures Clean(TimeText(c))
  {
    var seconds := c.timeMs / 1000;
    DecimalIsClean(seconds / 60);
    DecimalIsClean(seconds % 60);
    CutIsClean(TwoDigits(seconds / 60) + ":" + TwoDigits(seconds % 60));
  }

  predicate CleanPerson(p: Person) { p.present ==> Clean(p.name) && Clean(p.id) && Clean(p.nation) }

  /** No text of the state holds a divider of the protocol. */
  predicate CleanState(s: SystemState) {
    && Clean(s.pisteId) && Clean(s.info.phase) && Clean(s.info.poule)
    && CleanPerson(s.fencers.left.fencer) && CleanPerson(s.fencers.right.fencer)
  }

  lemma FourClean(a: string, b: string, c: string, d: string)
    requires Clean(a) && Clean(b) && Clean(c) && Clean(d)
    ensures AllClean([a, b, c, d])
  {
  }

  lemma SideIsClean(p: Person, c: ScoreSide, l: LightSide, n: nat)
    requires CleanPerson(p)
    ensures AllClean(SideFields(p, c, l, n))
  {
    NumberIsClean(c.score);
    NumberIsClean(c.redCards);
    NumberIsClean(n);
    StatusIsClean(c.status, c.yellowCard);
    StatusIsClean(c.status, l.onTarget);
    StatusIsClean(c.status, l.white);
    LettersAreClean();
    var f := SideFields(p, c, l, n);
    FourClean(f[0], f[1], f[2], f[3]);
    FourClean(f[4], f[5], f[6], f[7]);
    FourClean(f[8], f[9], f[10], f[11]);
    CleanTogether([f[0], f[1], f[2], f[3]], [f[4], f[5], f[6], f[7]]);
    CleanTogether([f[0], f[1], f[2], f[3]] + [f[4], f[5], f[6], f[7]], [f[8], f[9], f[10], f[11]]);
    assert f == [f[0], f[1], f[2], f[3]] + [f[4], f[5], f[6], f[7]] + [f[8], f[9], f[10], f[11]];
  }

  lemma SeventeenFields(g: seq<string>)
    requires |g| == GENERAL
    ensures g == [g[0], g[1], g[2], g[3]] + [g[4], g[5], g[6], g[7]] + [g[8], g[9], g[10], g[11]]
                 + [g[12], g[13], g[14], g[15]] + [g[16]]
  {
  }

  lemma GeneralIsClean(s: SystemState)
    requires CleanState(s)
    ensures AllClean(GeneralFields(s))
  {
    NumberIsClean(s.info.matchNum);
    NumberIsClean(s.info.round);
    TimeIsClean(s.clock);
    HeaderIsClean(s);
    LettersAreClean();
    var g := GeneralFields(s);
    var first, second := [g[0], g[1], g[2], g[3]], [g[4], g[5], g[6], g[7]];
    var third, fourth := [g[8], g[9], g[10], g[11]], [g[12], g[13], g[14], g[15]];
    FourClean(g[0], g[1], g[2], g[3]);
    FourClean(g[4], g[5], g[6], g[7]);
    FourClean(g[8], g[9], g[10], g[11]);
    FourClean(g[12], g[13], g[14], g[15]);
    CleanTogether(first, second);
    CleanTogether(first + second, third);
    CleanTogether(first + second + third, fourth);
    CleanTogether(first + second + third + fourth, [g[16]]);
    SeventeenFields(g);
  }

  lemma ConvertedIsCanonical(s: SystemState)
    requires CleanState(s)
    ensures Canonical(Converted(s))
  {
    GeneralIsClean(s);
    SideIsClean(s.fencers.right.fencer, s.score.right, s.lights.right, s.uw2f.right);
    SideIsClean(s.fencers.left.fencer, s.score.left, s.lights.left, s.uw2f.left);
  }

  /** The status of a state without dividers in its texts survives printing and parsing. */
  lemma ConvertedReadsBack(s: SystemState)
    requires CleanState(s)
    ensures Areas(Print(Converted(s))) != [] && Parse(Print(Converted(s))) == Converted(s)
  {
    ConvertedIsCanonical(s);
    RoundTrip(Converted(s));
  }
}
