/**
 The scan of the weapons: three weapon scanners over contact timers, the lock that follows the
 first hit, and the reset that puts the lights out.
 */
module Sensor {
  import opened Fencing
  import opened Debounce

  const FOIL_LOCK_TIME := 300
  const EPEE_LOCK_TIME := 45
  const SABRE_LOCK_TIME := 170
  const FOIL_CONTACT_TIME := 13500
  const FOIL_LAME_LEAK := 2000
  const EPEE_CONTACT_TIME := 6000
  const EPEE_DOS_SANTOS := 150
  const SABRE_CONTACT_TIME := 120
  const EXTRA_TIME := 500

  /** What the sensor scans for is always one of the three weapons. */
  type Scanned = w: Weapon | w != UnknownWeapon witness Foil

  function LockTime(w: Scanned): int {
    match w
    case Foil => FOIL_LOCK_TIME
    case Epee => EPEE_LOCK_TIME
    case Sabre => SABRE_LOCK_TIME
  }

  /** The lights of hits, and the buzzer. The white lights are the off-target lights of foil. */
  datatype Lamps = Lamps(red: bool, green: bool, whiteL: bool, whiteR: bool, buzz: bool)

  datatype Lock = Lock(started: bool, at: int, waiting: bool, resetAt: int)

  datatype Timers = Timers(b1: Timer, b2: Timer, c1: Timer, c2: Timer)

  /** The static variables of the three scanners: whether they are debouncing, which of the optional
      checks comes next, and foil's last validity readings. */
  datatype Scanners = Scanners(epee: bool, foil: bool, sabre: bool, epeeCheck: nat, foilCheck: nat, validL: bool, validR: bool)

  datatype Sensor = Sensor(weapon: Scanned, lamps: Lamps, lock: Lock, signalL: bool, signalR: bool,
                           timers: Timers, scanners: Scanners, lightsDuration: int)

  /** What one scan reads: the detected weapon and the contacts, as thresholded by the ADC, of the
      weapon being scanned. */
  datatype Reading = Reading(ms: int, us: Micros, weapon: Scanned, left: bool, right: bool,
                             validL: bool, validR: bool, guardL: bool, guardR: bool, pisteL: bool, pisteR: bool, leak: bool)

  // ---- Lock and reset ----

  const Dark := Lamps(false, false, false, false, false)

  function ResetTimers(w: Scanned, t: Timers): Timers {
    match w
    case Foil =>
      Timers(ClearedTo(t.b1, FOIL_CONTACT_TIME), ClearedTo(t.b2, FOIL_CONTACT_TIME),
             ClearedTo(t.c1, FOIL_LAME_LEAK), ClearedTo(t.c2, FOIL_LAME_LEAK))
    case Epee =>
      t.(c1 := ClearedTo(t.c1, EPEE_CONTACT_TIME).(margin := EPEE_DOS_SANTOS),
         c2 := ClearedTo(t.c2, EPEE_CONTACT_TIME).(margin := EPEE_DOS_SANTOS))
    case Sabre => t.(c1 := ClearedTo(t.c1, SABRE_CONTACT_TIME), c2 := ClearedTo(t.c2, SABRE_CONTACT_TIME))
  }

  function Reset(s: Sensor): Sensor {
    s.(lamps := Dark, lock := s.lock.(started := false, waiting := false), signalL := false, signalR := false,
       timers := ResetTimers(s.weapon, s.timers))
  }

  predicate IsLocked(l: Lock, ms: int) { l.started && ms > l.at }

  /** The waiting that leads to a reset: first for the lights, then for the extra half second. */
  function AwaitReset(s: Sensor, ms: int): Sensor {
    if !s.lock.waiting then
      s.(lock := s.lock.(waiting := true, resetAt := ms + s.lightsDuration - LockTime(s.weapon)))
    else if ms > s.lock.resetAt && s.lamps.buzz then
      s.(lamps := s.lamps.(buzz := false), lock := s.lock.(resetAt := ms + EXTRA_TIME))
    else s
  }

  predicate ResetDue(s: Sensor, ms: int) { s.lock.waiting && ms > s.lock.resetAt && !s.lamps.buzz }

  /** A hit: its lamp (white if foil is off target) and the buzzer go on, its side is signalled, and
      the first hit starts the lock. */
  function Hit(s: Sensor, side: Side, white: bool, ms: int): Sensor {
    var l := s.lamps.(buzz := true);
    var lamps := if side == Left then (if white then l.(whiteL := true) else l.(red := true))
                 else (if white then l.(whiteR := true) else l.(green := true));
    s.(lamps := lamps, signalL := s.signalL || side == Left, signalR := s.signalR || side == Right,
       lock := if s.lock.started then s.lock else s.lock.(started := true, at := ms + LockTime(s.weapon)))
  }

  // ---- Epee ----

  function EpeeMargins(t: Timers, us: Micros): Timers {
    var c2 := if t.c1.ok then WithMargin(t.c2, us) else t.c2;
    t.(c2 := c2, c1 := if c2.ok then WithMargin(t.c1, us) else t.c1)
  }

  function EpeeLeft(s: Sensor, r: Reading): Sensor {
    var cleared := s.timers.(c1 := Cleared(s.timers.c1));
    if r.guardL || r.pisteL then s.(timers := cleared)
    else if s.timers.c1.ok then Hit(s, Left, false, r.ms).(timers := cleared)
    else s
  }

  function EpeeRight(s: Sensor, r: Reading): Sensor {
    var cleared := s.timers.(c2 := Cleared(s.timers.c2));
    if r.guardR || r.pisteR then s.(timers := cleared)
    else if s.timers.c2.ok then Hit(s, Right, false, r.ms).(timers := cleared)
    else s
  }

  function EpeeIdleCheck(s: Sensor, r: Reading): Sensor {
    var k := s.scanners.epeeCheck;
    s.(scanners := s.scanners.(epeeCheck := if k < 3 then k + 1 else 0),
       timers := if k == 0 then s.timers.(b1 := Updated(s.timers.b1, r.leak, r.us))
                 else if k == 1 then s.timers.(b2 := Updated(s.timers.b2, r.leak, r.us)) else s.timers)
  }

  /** A signalled side is no longer timed. */
  function EpeeTimed(s: Sensor, r: Reading): Sensor {
    s.(timers := s.timers.(c1 := if s.signalL then s.timers.c1 else Updated(s.timers.c1, r.left, r.us),
                           c2 := if s.signalR then s.timers.c2 else Updated(s.timers.c2, r.right, r.us)))
  }

  function EpeeDebounce(s: Sensor, r: Reading): Sensor {
    EpeeRight(EpeeLeft(s.(timers := EpeeMargins(s.timers, r.us)), r), r)
  }

  function EpeeScan(s: Sensor, r: Reading): Sensor {
    var t := EpeeTimed(s, r);
    if !s.scanners.epee then
      if r.left || r.right then t.(scanners := t.scanners.(epee := true)) else EpeeIdleCheck(t, r)
    else if !r.left && !r.right then t.(scanners := t.scanners.(epee := false))
    else EpeeDebounce(t, r)
  }

  // ---- Foil ----

  function FoilMargins(t: Timers, us: Micros): Timers {
    var b2 := if t.b1.ok then WithMargin(t.b2, us) else t.b2;
    t.(b2 := b2, b1 := if b2.ok then WithMargin(t.b1, us) else t.b1)
  }

  function ClearB1(s: Sensor): Sensor { s.(timers := s.timers.(b1 := Cleared(s.timers.b1))) }

  function FoilLeft(s: Sensor, r: Reading): Sensor {
    if !s.scanners.validL && (r.guardL || r.pisteL) then ClearB1(s)
    else if s.timers.b1.ok then Hit(s, Left, !s.scanners.validL, r.ms)
    else s
  }

  /** Guard or piste contact of the right fencer clears the timer of the left one. */
  function FoilRight(s: Sensor, r: Reading): Sensor {
    if !s.scanners.validR && (r.guardR || r.pisteR) then ClearB1(s)
    else if s.timers.b2.ok then Hit(s, Right, !s.scanners.validR, r.ms)
    else s
  }

  function FoilIdleCheck(s: Sensor, r: Reading): Sensor {
    var k := s.scanners.foilCheck;
    s.(scanners := s.scanners.(foilCheck := if k < 4 then k + 1 else 0),
       timers := if k == 0 then s.timers.(c1 := Updated(s.timers.c1, r.leak, r.us))
                 else if k == 1 then s.timers.(c2 := Updated(s.timers.c2, r.leak, r.us)) else s.timers)
  }

  /** A signalled side is timed as if it were not hit. */
  function FoilTimed(s: Sensor, r: Reading): Sensor {
    s.(timers := s.timers.(b1 := Updated(s.timers.b1, r.left && !s.signalL, r.us),
                           b2 := Updated(s.timers.b2, r.right && !s.signalR, r.us)))
  }

  function FoilDebounce(s: Sensor, r: Reading): Sensor {
    FoilRight(FoilLeft(s.(timers := FoilMargins(s.timers, r.us)), r), r)
  }

  /** The state machine of the foil scanner, once both sides have been timed. */
  function FoilState(t: Sensor, r: Reading): Sensor {
    if !t.scanners.foil then
      if r.left || r.right then t.(scanners := t.scanners.(foil := true)) else FoilIdleCheck(t, r)
    else if !r.left && !r.right then t.(scanners := t.scanners.(foil := false))
    else FoilDebounce(t, r)
  }

  function FoilScan(s: Sensor, r: Reading): Sensor {
    var f := FoilState(FoilTimed(s, r), r);
    f.(scanners := f.scanners.(validL := r.validL, validR := r.validR))
  }

  // ---- Sabre ----

  function SabreTimed(s: Sensor, r: Reading): Sensor {
    s.(timers := s.timers.(c1 := Updated(s.timers.c1, r.left, r.us), c2 := Updated(s.timers.c2, r.right, r.us)))
  }

  function SabreScan(s: Sensor, r: Reading): Sensor {
    var t := SabreTimed(s, r);
    if !s.scanners.sabre then t.(scanners := t.scanners.(sabre := r.left || r.right))
    else if !r.left && !r.right then t.(scanners := t.scanners.(sabre := false))
    else
      var l := if t.timers.c1.ok && !t.signalL then Hit(t, Left, false, r.ms) else t;
      if l.timers.c2.ok && !l.signalR then Hit(l, Right, false, r.ms) else l
  }

  // ---- A scan ----

  function WithWeapon(s: Sensor, w: Scanned): Sensor {
    if s.weapon == w then s else Reset(s.(weapon := w))
  }

  /** Past the lock both sides are signalled and the reset is waited for. */
  function Locking(s: Sensor, ms: int): Sensor {
    if !IsLocked(s.lock, ms) then s
    else
      var l := s.(signalL := true, signalR := true);
      if ResetDue(l, ms) then Reset(l) else AwaitReset(l, ms)
  }

  function WeaponScan(s: Sensor, r: Reading): Sensor {
    match s.weapon
    case Foil => FoilScan(s, r)
    case Epee => EpeeScan(s, r)
    case Sabre => SabreScan(s, r)
  }

  /** The sensor that the scanner of the weapon sees. */
  function Seen(s: Sensor, r: Reading): Sensor { Locking(WithWeapon(s, r.weapon), r.ms) }

  function FullScan(s: Sensor, r: Reading): Sensor {
    WeaponScan(Seen(s, r), r)
  }

  /** The scan puts the lights out: a new weapon, or the end of the waiting. */
  predicate Resets(s: Sensor, r: Reading) {
    s.weapon != r.weapon || (IsLocked(s.lock, r.ms) && ResetDue(s, r.ms))
  }

  /** The hit lights that burn. */
  function Hits(s: Sensor): set<Light> {
    (if s.lamps.red then {Red} else {}) + (if s.lamps.green then {Green} else {})
    + (if s.lamps.whiteL then {WhiteL} else {}) + (if s.lamps.whiteR then {WhiteR} else {})
  }

  // ---- What a lock guarantees ----

  /** After the first hit epee has no completed contact left over from an earlier scan, and none can
      complete in the scan that sees it begin. */
  predicate NoLeftovers(s: Sensor) {
    s.lock.started && s.weapon == Epee ==>
      && !s.timers.c1.ok && !s.timers.c2.ok
      && (!s.scanners.epee && !s.signalL ==> s.timers.c1.start == 0)
      && (!s.scanners.epee && !s.signalR ==> s.timers.c2.start == 0)
  }

  /** The contact times epee times with are still positive: each Dos Santos margin takes 150 us off. */
  predicate PositiveTimes(s: Sensor) {
    s.weapon == Epee ==> s.timers.c1.required > 0 && s.timers.c2.required > 0
  }

  lemma EpeeSidesConsume(s: Sensor, r: Reading)
    ensures var f := EpeeLeft(s, r); !f.timers.c1.ok && f.scanners == s.scanners
    ensures var f := EpeeRight(s, r); !f.timers.c2.ok && f.timers.c1 == s.timers.c1 && f.scanners == s.scanners
  {
  }

  /** A scan that debounces leaves no completed contact behind. */
  lemma EpeeDebounceConsumes(s: Sensor, r: Reading)
    ensures var f := EpeeDebounce(s, r); !f.timers.c1.ok && !f.timers.c2.ok && f.scanners == s.scanners
  {
    var m := s.(timers := EpeeMargins(s.timers, r.us));
    EpeeSidesConsume(m, r);
    EpeeSidesConsume(EpeeLeft(m, r), r);
  }

  lemma EpeeScanKeeps(s: Sensor, r: Reading)
    requires NoLeftovers(s) && PositiveTimes(s) && s.weapon == Epee
    ensures NoLeftovers(EpeeScan(s, r))
  {
    if s.scanners.epee && (r.left || r.right) {
      EpeeDebounceConsumes(EpeeTimed(s, r), r);
    }
  }

  lemma OtherScansKeep(s: Sensor, r: Reading)
    requires s.weapon != Epee
    ensures NoLeftovers(WeaponScan(s, r))
  {
  }

  lemma EpeeLocked(s: Sensor, r: Reading)
    requires NoLeftovers(s) && s.lock.started && s.weapon == Epee && s.signalL && s.signalR
    ensures EpeeScan(s, r).lamps == s.lamps && EpeeScan(s, r).lock == s.lock
  {
  }

  lemma FoilLocked(s: Sensor, r: Reading)
    requires s.signalL && s.signalR
    ensures FoilScan(s, r).lamps == s.lamps && FoilScan(s, r).lock == s.lock
  {
  }

  lemma SabreLocked(s: Sensor, r: Reading)
    requires s.signalL && s.signalR
    ensures SabreScan(s, r).lamps == s.lamps && SabreScan(s, r).lock == s.lock
  {
  }

  /** A scan past the lock that does not reset sets no hit light. */
  lemma NoHitPastLock(s: Sensor, r: Reading)
    requires NoLeftovers(s) && IsLocked(s.lock, r.ms) && !Resets(s, r)
    ensures Hits(FullScan(s, r)) == Hits(s) && FullScan(s, r).lock == Locking(s, r.ms).lock
    ensures FullScan(s, r).lamps == Locking(s, r.ms).lamps
  {
    var l := Locking(s, r.ms);
    match s.weapon {
      case Foil => FoilLocked(l, r);
      case Epee => EpeeLocked(l, r);
      case Sabre => SabreLocked(l, r);
    }
  }

  // ---- Runs ----

  datatype Event = Scan(r: Reading) | NewWeapon(w: Scanned) | BlockAllNewHits | AllowAllNewHits

  function Step(s: Sensor, e: Event): Sensor {
    match e
    case Scan(r) => FullScan(s, r)
    case NewWeapon(w) => Reset(s.(weapon := w))
    case BlockAllNewHits => s.(signalL := true, signalR := true)
    case AllowAllNewHits => s.(signalL := false, signalR := false)
  }

  /** `tr` holds the states that the events of `run` lead through. */
  ghost predicate IsRun(tr: seq<Sensor>, run: seq<Event>) {
    && |tr| == |run| + 1
    && forall k: nat {:trigger Step(tr[k], run[k])} | k < |run| :: tr[k + 1] == Step(tr[k], run[k])
  }

  /** The event puts the lights out. */
  predicate EndsCycle(s: Sensor, e: Event) { e.NewWeapon? || (e.Scan? && Resets(s, e.r)) }

  /** New hits are allowed again only between cycles. */
  predicate Tame(s: Sensor, e: Event) { e.AllowAllNewHits? ==> !s.lock.started }

  // ---- The Dos Santos margins ----

  predicate DebouncesEpee(s: Sensor, r: Reading) { s.weapon == Epee && s.scanners.epee && (r.left || r.right) }

  /** The scan takes the margin off the time of the right contact, because the left one is complete. */
  predicate TakesRight(s: Sensor, r: Reading) {
    DebouncesEpee(s, r) && EpeeTimed(s, r).timers.c1.ok && !s.timers.c2.applied
  }

  predicate TakesLeft(s: Sensor, r: Reading) {
    DebouncesEpee(s, r) && EpeeMargins(EpeeTimed(s, r).timers, r.us).c2.ok && !s.timers.c1.applied
  }

  /** How many margins have been taken off the times of the two contacts since the last reset. */
  datatype Margins = Margins(left: nat, right: nat) {
    predicate Below(n: nat) { left < n && right < n }
  }

  const NoMargins := Margins(0, 0)

  function MarginsAfter(s: Sensor, e: Event, n: Margins): Margins {
    match e
    case Scan(r) =>
      var kept, l := if Resets(s, r) then NoMargins else n, Seen(s, r);
      Margins(kept.left + (if TakesLeft(l, r) then 1 else 0), kept.right + (if TakesRight(l, r) then 1 else 0))
    case NewWeapon(w) => NoMargins
    case _ => n
  }

  /** The margins taken before event `n` of a run that starts from a reset sensor. */
  function MarginsAt(tr: seq<Sensor>, run: seq<Event>, n: nat): Margins
    requires IsRun(tr, run) && n <= |run|
  {
    if n == 0 then NoMargins else MarginsAfter(tr[n - 1], run[n - 1], MarginsAt(tr, run, n - 1))
  }

  /** Epee's contact times after this many margins. */
  predicate Worn(s: Sensor, n: Margins) {
    s.weapon == Epee ==>
      && s.timers.c1.required == EPEE_CONTACT_TIME - EPEE_DOS_SANTOS * n.left && s.timers.c1.margin == EPEE_DOS_SANTOS
      && s.timers.c2.required == EPEE_CONTACT_TIME - EPEE_DOS_SANTOS * n.right && s.timers.c2.margin == EPEE_DOS_SANTOS
  }

  lemma MarginsWear(s: Sensor, r: Reading, n: Margins)
    requires s.weapon == Epee && Worn(s, n)
    ensures var t, m := s.timers, EpeeMargins(s.timers, r.us);
            Worn(s.(timers := m), Margins(n.left + (if m.c2.ok && !t.c1.applied then 1 else 0),
                                          n.right + (if t.c1.ok && !t.c2.applied then 1 else 0)))
  {
  }

  lemma SidesKeepTimes(s: Sensor, r: Reading, n: Margins)
    requires s.weapon == Epee && Worn(s, n)
    ensures Worn(EpeeLeft(s, r), n) && Worn(EpeeRight(s, r), n)
    ensures EpeeLeft(s, r).weapon == Epee == EpeeRight(s, r).weapon
  {
  }

  lemma EpeeScanWears(s: Sensor, r: Reading, n: Margins)
    requires s.weapon == Epee && Worn(s, n)
    ensures Worn(EpeeScan(s, r), Margins(n.left + (if TakesLeft(s, r) then 1 else 0),
                                         n.right + (if TakesRight(s, r) then 1 else 0)))
  {
    var t := EpeeTimed(s, r);
    if DebouncesEpee(s, r) {
      var m := t.(timers := EpeeMargins(t.timers, r.us));
      var now := Margins(n.left + (if TakesLeft(s, r) then 1 else 0), n.right + (if TakesRight(s, r) then 1 else 0));
      MarginsWear(t, r, n);
      SidesKeepTimes(m, r, now);
      SidesKeepTimes(EpeeLeft(m, r), r, now);
    }
  }

  lemma OtherScansKeepWeapon(s: Sensor, r: Reading)
    requires s.weapon != Epee
    ensures WeaponScan(s, r).weapon == s.weapon
  {
  }

  lemma SeenWears(s: Sensor, r: Reading, n: Margins)
    requires Worn(s, n)
    ensures Worn(Seen(s, r), if Resets(s, r) then NoMargins else n)
  {
  }

  lemma StepWears(s: Sensor, e: Event, n: Margins)
    requires Worn(s, n)
    ensures Worn(Step(s, e), MarginsAfter(s, e, n))
  {
    if e.Scan? {
      var l := Seen(s, e.r);
      SeenWears(s, e.r, n);
      if l.weapon == Epee {
        EpeeScanWears(l, e.r, if Resets(s, e.r) then NoMargins else n);
      } else {
        OtherScansKeepWeapon(l, e.r);
      }
    }
  }

  /** In every run from a reset sensor, whatever happens in it, epee's contact times are 6000 us less 150 us
      for each margin taken since the last reset. */
  lemma {:induction false} TimesWearDown(tr: seq<Sensor>, run: seq<Event>, n: nat)
    requires IsRun(tr, run) && n <= |run| && Worn(tr[0], NoMargins)
    ensures Worn(tr[n], MarginsAt(tr, run, n))
  {
    if n > 0 {
      TimesWearDown(tr, run, n - 1);
      StepWears(tr[n - 1], run[n - 1], MarginsAt(tr, run, n - 1));
    }
  }

  /** Fewer margins than use up a contact time have been taken before any event of the run. */
  ghost predicate FewMargins(tr: seq<Sensor>, run: seq<Event>, few: nat)
    requires IsRun(tr, run)
  {
    forall k: nat | k < |run| :: MarginsAt(tr, run, k).Below(few)
  }

  /** As the sensor is after construction or a reset. */
  predicate Rested(s: Sensor) { !s.lock.started && Worn(s, NoMargins) }

  ghost predicate TameRun(tr: seq<Sensor>, run: seq<Event>) {
    && IsRun(tr, run) && Rested(tr[0]) && FewMargins(tr, run, 40)
    && forall k: nat | k < |run| :: Tame(tr[k], run[k])
  }

  lemma StepKeeps(s: Sensor, e: Event)
    requires NoLeftovers(s) && Tame(s, e) && PositiveTimes(s)
    ensures NoLeftovers(Step(s, e))
  {
    if e.Scan? {
      var l := Seen(s, e.r);
      if l.weapon == Epee {
        EpeeScanKeeps(l, e.r);
      } else {
        OtherScansKeep(l, e.r);
      }
    }
  }

  lemma TimesStayPositive(tr: seq<Sensor>, run: seq<Event>, k: nat)
    requires IsRun(tr, run) && Worn(tr[0], NoMargins) && FewMargins(tr, run, 40) && k < |run|
    ensures PositiveTimes(tr[k])
  {
    TimesWearDown(tr, run, k);
    assert MarginsAt(tr, run, k).Below(40);
  }

  lemma {:induction false} RunKeeps(tr: seq<Sensor>, run: seq<Event>, n: nat)
    requires TameRun(tr, run) && n <= |run|
    ensures NoLeftovers(tr[n])
  {
    if n > 0 {
      RunKeeps(tr, run, n - 1);
      TimesStayPositive(tr, run, n - 1);
      StepKeeps(tr[n - 1], run[n - 1]);
    }
  }

  /** In every tame run from a reset sensor in which fewer than forty margins are taken off either contact
      between resets, a scan past the lock that does not end the cycle sets no hit light, whatever the
      weapon. Forty are enough to break it (SpentMarginLetsHitThrough). */
  lemma LockedScansSetNoHit(tr: seq<Sensor>, run: seq<Event>, n: nat)
    requires TameRun(tr, run) && n < |run|
    requires run[n].Scan? && IsLocked(tr[n].lock, run[n].r.ms) && !EndsCycle(tr[n], run[n])
    ensures Hits(tr[n + 1]) == Hits(tr[n])
  {
    RunKeeps(tr, run, n);
    NoHitPastLock(tr[n], run[n].r);
    assert Step(tr[n], run[n]) == FullScan(tr[n], run[n].r);
  }

  // ---- Hits of one cycle ----

  /** What a weapon scan can do to lights and lock. */
  predicate ScanOutcome(s: Sensor, f: Sensor, ms: int) {
    && f.weapon == s.weapon && f.lightsDuration == s.lightsDuration
    && Hits(s) <= Hits(f)
    && (s.lamps.buzz ==> f.lamps.buzz)
    && (f.lock == s.lock ||
        (!s.lock.started && f.lamps.buzz && f.lock == s.lock.(started := true, at := ms + LockTime(s.weapon))))
    && (!f.lock.started ==> f.lamps == s.lamps)
  }

  /** The states differ at most in timers, scanners and signals. */
  predicate SameFace(a: Sensor, b: Sensor) {
    a.weapon == b.weapon && a.lightsDuration == b.lightsDuration && a.lamps == b.lamps && a.lock == b.lock
  }

  lemma FaceOutcome(a: Sensor, b: Sensor, ms: int)
    requires SameFace(a, b)
    ensures ScanOutcome(a, b, ms)
  {
  }

  lemma OutcomesCompose(a: Sensor, b: Sensor, c: Sensor, ms: int)
    requires ScanOutcome(a, b, ms) && ScanOutcome(b, c, ms)
    ensures ScanOutcome(a, c, ms)
  {
  }

  lemma EpeeSidesOutcome(s: Sensor, r: Reading)
    ensures ScanOutcome(s, EpeeLeft(s, r), r.ms) && ScanOutcome(s, EpeeRight(s, r), r.ms)
  {
  }

  lemma EpeeDebounceOutcome(s: Sensor, r: Reading)
    ensures ScanOutcome(s, EpeeDebounce(s, r), r.ms)
  {
    var m := s.(timers := EpeeMargins(s.timers, r.us));
    FaceOutcome(s, m, r.ms);
    EpeeSidesOutcome(m, r);
    EpeeSidesOutcome(EpeeLeft(m, r), r);
    OutcomesCompose(s, m, EpeeLeft(m, r), r.ms);
    OutcomesCompose(s, EpeeLeft(m, r), EpeeDebounce(s, r), r.ms);
  }

  lemma EpeeOutcome(s: Sensor, r: Reading)
    ensures ScanOutcome(s, EpeeScan(s, r), r.ms)
  {
    var t, e := EpeeTimed(s, r), EpeeScan(s, r);
    FaceOutcome(s, t, r.ms);
    EpeeDebounceOutcome(t, r);
    OutcomesCompose(s, t, EpeeDebounce(t, r), r.ms);
    if e != EpeeDebounce(t, r) {
      assert SameFace(s, e);
      FaceOutcome(s, e, r.ms);
    }
  }

  lemma FoilSidesOutcome(s: Sensor, r: Reading)
    ensures ScanOutcome(s, FoilLeft(s, r), r.ms) && ScanOutcome(s, FoilRight(s, r), r.ms)
  {
  }

  lemma FoilDebounceOutcome(s: Sensor, r: Reading)
    ensures ScanOutcome(s, FoilDebounce(s, r), r.ms)
  {
    var m := s.(timers := FoilMargins(s.timers, r.us));
    FaceOutcome(s, m, r.ms);
    FoilSidesOutcome(m, r);
    FoilSidesOutcome(FoilLeft(m, r), r);
    OutcomesCompose(s, m, FoilLeft(m, r), r.ms);
    OutcomesCompose(s, FoilLeft(m, r), FoilDebounce(s, r), r.ms);
  }

  lemma FoilOutcome(s: Sensor, r: Reading)
    ensures ScanOutcome(s, FoilScan(s, r), r.ms)
  {
    var t, f := FoilTimed(s, r), FoilScan(s, r);
    FaceOutcome(s, t, r.ms);
    FoilDebounceOutcome(t, r);
    OutcomesCompose(s, t, FoilDebounce(t, r), r.ms);
    if SameFace(FoilDebounce(t, r), f) {
      FaceOutcome(FoilDebounce(t, r), f, r.ms);
      OutcomesCompose(s, FoilDebounce(t, r), f, r.ms);
    } else {
      assert SameFace(s, f);
      FaceOutcome(s, f, r.ms);
    }
  }

  lemma SabreOutcome(s: Sensor, r: Reading)
    ensures ScanOutcome(s, SabreScan(s, r), r.ms)
  {
    var t := SabreTimed(s, r);
    var l := if t.timers.c1.ok && !t.signalL then Hit(t, Left, false, r.ms) else t;
    assert ScanOutcome(s, l, r.ms);
  }

  lemma WeaponOutcome(s: Sensor, r: Reading)
    ensures ScanOutcome(s, WeaponScan(s, r), r.ms)
  {
    match s.weapon {
      case Foil => FoilOutcome(s, r);
      case Epee => EpeeOutcome(s, r);
      case Sabre => SabreOutcome(s, r);
    }
  }

  /** A hit light goes on that did not burn. */
  predicate Lights(before: Sensor, after: Sensor) { !(Hits(after) <= Hits(before)) }

  predicate Ordered(run: seq<Event>) {
    forall i: nat, j: nat | i < j < |run| && run[i].Scan? && run[j].Scan? :: run[i].r.ms <= run[j].r.ms
  }

  /** No lock is set further ahead than the lock time from `now`. */
  predicate LockNear(s: Sensor, now: int) { s.lock.started ==> s.lock.at <= now + LockTime(s.weapon) }

  lemma StepNear(s: Sensor, e: Event, now: int)
    requires LockNear(s, now) && (e.Scan? ==> now <= e.r.ms)
    ensures LockNear(Step(s, e), if e.Scan? then e.r.ms else now)
  {
    if e.Scan? {
      WeaponOutcome(Seen(s, e.r), e.r);
    }
  }

  lemma {:induction false} RunNear(tr: seq<Sensor>, run: seq<Event>, n: nat, now: int)
    requires IsRun(tr, run) && n <= |run| && !tr[0].lock.started && Ordered(run)
    requires forall k: nat | k < n && run[k].Scan? :: run[k].r.ms <= now
    ensures LockNear(tr[n], now)
  {
    if n > 0 {
      var before := if run[n - 1].Scan? then run[n - 1].r.ms else now;
      RunNear(tr, run, n - 1, before);
      StepNear(tr[n - 1], run[n - 1], before);
    }
  }

  /** Within a cycle lock and weapon stay as the first hit set them. */
  predicate SameCycle(a: Sensor, b: Sensor) {
    a.lock.started ==> b.lock.started && b.lock.at == a.lock.at && b.weapon == a.weapon
  }

  lemma CycleStep(s: Sensor, e: Event)
    requires !EndsCycle(s, e)
    ensures SameCycle(s, Step(s, e))
  {
    if e.Scan? {
      WeaponOutcome(Locking(s, e.r.ms), e.r);
    }
  }

  lemma {:induction false} CycleKeepsLock(tr: seq<Sensor>, run: seq<Event>, i: nat, j: nat)
    requires IsRun(tr, run) && i <= j <= |run|
    requires forall k: nat | i <= k < j :: !EndsCycle(tr[k], run[k])
    ensures SameCycle(tr[i], tr[j])
  {
    if i < j {
      CycleKeepsLock(tr, run, i, j - 1);
      CycleStep(tr[j - 1], run[j - 1]);
    }
  }

  lemma LockingLightsNothing(s: Sensor, r: Reading)
    ensures Hits(Seen(s, r)) <= Hits(s)
  {
  }

  lemma UnlockedLightsNothing(s: Sensor, f: Sensor, ms: int)
    requires ScanOutcome(s, f, ms) && !f.lock.started
    ensures Hits(f) == Hits(s)
  {
  }

  lemma LightingStartsLock(s: Sensor, e: Event)
    requires Lights(s, Step(s, e))
    ensures e.Scan? && Step(s, e).lock.started
  {
    if e.Scan? {
      var l := Seen(s, e.r);
      LockingLightsNothing(s, e.r);
      WeaponOutcome(l, e.r);
      if !Step(s, e).lock.started {
        UnlockedLightsNothing(l, Step(s, e), e.r.ms);
      }
    }
  }

  lemma LightingIsInTime(s: Sensor, e: Event)
    requires Lights(s, Step(s, e)) && NoLeftovers(s) && s.lock.started && !EndsCycle(s, e)
    ensures e.Scan? && e.r.ms <= s.lock.at
  {
    LightingStartsLock(s, e);
    if IsLocked(s.lock, e.r.ms) {
      NoHitPastLock(s, e.r);
    }
  }

  /** Two hits of one cycle lie within the lock time of the weapon. */
  lemma HitsLieWithinLockTime(tr: seq<Sensor>, run: seq<Event>, i: nat, j: nat)
    requires TameRun(tr, run) && Ordered(run) && i < j < |run|
    requires Lights(tr[i], tr[i + 1]) && Lights(tr[j], tr[j + 1])
    requires forall k: nat | i < k <= j :: !EndsCycle(tr[k], run[k])
    ensures run[i].Scan? && run[j].Scan? && run[j].r.ms - run[i].r.ms <= LockTime(tr[j].weapon)
  {
    FirstLighting(tr, run, i);
    CycleKeepsLock(tr, run, i + 1, j);
    LaterLighting(tr, run, j);
  }

  lemma FirstLighting(tr: seq<Sensor>, run: seq<Event>, i: nat)
    requires IsRun(tr, run) && Ordered(run) && i < |run| && !tr[0].lock.started && Lights(tr[i], tr[i + 1])
    ensures run[i].Scan? && tr[i + 1].lock.started && tr[i + 1].lock.at <= run[i].r.ms + LockTime(tr[i + 1].weapon)
  {
    LitStarts(tr, run, i);
    RunNear(tr, run, i + 1, run[i].r.ms);
  }

  lemma LitStarts(tr: seq<Sensor>, run: seq<Event>, i: nat)
    requires IsRun(tr, run) && i < |run| && Lights(tr[i], tr[i + 1])
    ensures run[i].Scan? && tr[i + 1].lock.started
  {
    assert tr[i + 1] == Step(tr[i], run[i]);
    LightingStartsLock(tr[i], run[i]);
  }

  lemma LaterLighting(tr: seq<Sensor>, run: seq<Event>, j: nat)
    requires TameRun(tr, run) && j < |run| && Lights(tr[j], tr[j + 1])
    requires tr[j].lock.started && !EndsCycle(tr[j], run[j])
    ensures run[j].Scan? && run[j].r.ms <= tr[j].lock.at
  {
    assert tr[j + 1] == Step(tr[j], run[j]);
    RunKeeps(tr, run, j);
    LightingIsInTime(tr[j], run[j]);
  }

  // ---- How long the lights burn ----

  /** The lights of a cycle whose first hit came at `first`: the buzzer sounds until the lights'
      duration is over, and the reset waits for the extra time after it. */
  predicate Burning(s: Sensor, first: int) {
    && s.lock.started && s.lock.at == first + LockTime(s.weapon)
    && (if s.lamps.buzz then s.lock.waiting ==> s.lock.resetAt > first + s.lightsDuration
        else s.lock.waiting && s.lock.resetAt > first + s.lightsDuration + EXTRA_TIME)
  }

  lemma BurnsOn(s: Sensor, e: Event, first: int)
    requires Burning(s, first) && !EndsCycle(s, e)
    ensures Burning(Step(s, e), first) && Hits(s) <= Hits(Step(s, e)) && Step(s, e).lightsDuration == s.lightsDuration
  {
    if e.Scan? {
      var l := Locking(s, e.r.ms);
      assert Burning(l, first) && Hits(l) == Hits(s);
      WeaponOutcome(l, e.r);
    }
  }

  lemma FirstHitBurns(s: Sensor, e: Event)
    requires Lights(s, Step(s, e)) && !s.lock.started && Quiet(s)
    ensures e.Scan? && Burning(Step(s, e), e.r.ms) && Step(s, e).lightsDuration == s.lightsDuration
  {
    if e.Scan? {
      var l := Seen(s, e.r);
      assert l.lock == WithWeapon(s, e.r.weapon).lock;
      WeaponOutcome(l, e.r);
    }
  }

  /** Between cycles nothing waits and the buzzer is silent. */
  predicate Quiet(s: Sensor) { !s.lock.started ==> !s.lock.waiting && !s.lamps.buzz }

  lemma OutcomeQuiet(s: Sensor, f: Sensor, ms: int)
    requires Quiet(s) && ScanOutcome(s, f, ms)
    ensures Quiet(f) && f.lightsDuration == s.lightsDuration
  {
  }

  lemma StepQuiet(s: Sensor, e: Event)
    requires Quiet(s)
    ensures Quiet(Step(s, e)) && Step(s, e).lightsDuration == s.lightsDuration
  {
    if e.Scan? {
      var l := Seen(s, e.r);
      assert Quiet(l) && l.lightsDuration == s.lightsDuration;
      WeaponOutcome(l, e.r);
      OutcomeQuiet(l, WeaponScan(l, e.r), e.r.ms);
    }
  }

  lemma {:induction false} RunQuiet(tr: seq<Sensor>, run: seq<Event>, n: nat)
    requires IsRun(tr, run) && n <= |run| && Quiet(tr[0])
    ensures Quiet(tr[n]) && tr[n].lightsDuration == tr[0].lightsDuration
  {
    if n > 0 {
      RunQuiet(tr, run, n - 1);
      StepQuiet(tr[n - 1], run[n - 1]);
    }
  }

  /** The event comes before the lights' duration and the extra time are over, and does not change the weapon. */
  predicate Meanwhile(s: Sensor, e: Event, first: int) {
    && !e.NewWeapon?
    && (e.Scan? ==> e.r.weapon == s.weapon && e.r.ms <= first + s.lightsDuration + EXTRA_TIME)
  }

  lemma BurningLasts(s: Sensor, e: Event, first: int)
    requires Burning(s, first) && Meanwhile(s, e, first)
    ensures !EndsCycle(s, e)
  {
  }

  lemma {:induction false} BurnOn(tr: seq<Sensor>, run: seq<Event>, i: nat, j: nat, first: int)
    requires IsRun(tr, run) && i <= j <= |run| && Burning(tr[i], first)
    requires forall k: nat | i <= k < j :: Meanwhile(tr[k], run[k], first)
    ensures Burning(tr[j], first) && Hits(tr[i]) <= Hits(tr[j])
  {
    if i < j {
      BurnOn(tr, run, i, j - 1, first);
      BurningLasts(tr[j - 1], run[j - 1], first);
      BurnsOn(tr[j - 1], run[j - 1], first);
    }
  }

  /** From the first hit of a cycle at `first`, and while the weapon does not change, every hit light
      that goes on at some point still burns at every later point up to and including
      `first` + the lights' duration + half a second. */
  lemma HitsBurnLongEnough(tr: seq<Sensor>, run: seq<Event>, i: nat, j: nat, m: nat)
    requires IsRun(tr, run) && i < j <= m <= |run| && Quiet(tr[0])
    requires Lights(tr[i], tr[i + 1]) && !tr[i].lock.started
    requires run[i].Scan? && forall k: nat | i < k < m :: Meanwhile(tr[k], run[k], run[i].r.ms)
    ensures Hits(tr[j]) <= Hits(tr[m])
  {
    FirstLightingBurns(tr, run, i);
    BurnOn(tr, run, i + 1, j, run[i].r.ms);
    BurnOn(tr, run, j, m, run[i].r.ms);
  }

  lemma FirstLightingBurns(tr: seq<Sensor>, run: seq<Event>, i: nat)
    requires IsRun(tr, run) && i < |run| && Quiet(tr[0]) && Lights(tr[i], tr[i + 1]) && !tr[i].lock.started
    ensures run[i].Scan? && Burning(tr[i + 1], run[i].r.ms)
  {
    RunQuiet(tr, run, i);
    assert tr[i + 1] == Step(tr[i], run[i]);
    FirstHitBurns(tr[i], run[i]);
  }

  // ---- Lights without contact ----

  /** Completing the left contact completes the open right one too: its margin is taken off a time that is
      not longer than the margin, and the timer is updated as if it were pressed. */
  predicate GhostRight(s: Sensor, r: Reading) {
    && DebouncesEpee(s, r) && EpeeTimed(s, r).timers.c1.ok
    && !s.timers.c2.applied && s.timers.c2.required <= s.timers.c2.margin && !r.guardR && !r.pisteR
  }

  predicate GhostLeft(s: Sensor, r: Reading) {
    && DebouncesEpee(s, r) && EpeeTimed(s, r).timers.c2.ok
    && !s.timers.c1.applied && s.timers.c1.required <= s.timers.c1.margin && !r.guardL && !r.pisteL
  }

  /** With an open contact that is still timed, the light of a side goes on exactly then. */
  lemma OpenRight(s: Sensor, r: Reading)
    requires s.weapon == Epee && !r.right && !s.signalR && !s.lamps.green
    ensures EpeeScan(s, r).lamps.green <==> GhostRight(s, r)
  {
  }

  lemma OpenLeft(s: Sensor, r: Reading)
    requires s.weapon == Epee && !r.left && !s.signalL && !s.lamps.red
    ensures EpeeScan(s, r).lamps.red <==> GhostLeft(s, r)
  {
  }

  /** A margin that is shorter than the time completes no open contact. */
  lemma MarginKeepsOpen(t: Timer, us: Micros)
    requires !t.ok && t.start == 0 && t.required > t.margin
    ensures !WithMargin(t, us).ok
  {
  }

  lemma FoilLeftKeepsRight(s: Sensor, r: Reading)
    ensures var f := FoilLeft(s, r);
            && f.lamps.green == s.lamps.green && f.lamps.whiteR == s.lamps.whiteR && f.timers.b2 == s.timers.b2
            && (!s.timers.b1.ok ==> f.lamps == s.lamps)
  {
  }

  lemma FoilRightKeepsLeft(s: Sensor, r: Reading)
    ensures var f := FoilRight(s, r);
            && f.lamps.red == s.lamps.red && f.lamps.whiteL == s.lamps.whiteL
            && (!s.timers.b2.ok ==> f.lamps == s.lamps)
  {
  }

  lemma FoilDebounceNeedsContact(t: Sensor, r: Reading)
    requires t.timers.b1.required > t.timers.b1.margin && t.timers.b2.required > t.timers.b2.margin
    ensures var f := FoilDebounce(t, r).lamps;
            && (!t.timers.b2.ok && t.timers.b2.start == 0 ==> f.green == t.lamps.green && f.whiteR == t.lamps.whiteR)
            && (!t.timers.b1.ok && t.timers.b1.start == 0 ==> f.red == t.lamps.red && f.whiteL == t.lamps.whiteL)
  {
    var m := t.(timers := FoilMargins(t.timers, r.us));
    if !t.timers.b2.ok && t.timers.b2.start == 0 {
      MarginKeepsOpen(t.timers.b2, r.us);
    }
    if !t.timers.b1.ok && t.timers.b1.start == 0 {
      MarginKeepsOpen(t.timers.b1, r.us);
    }
    FoilLeftKeepsRight(m, r);
    FoilRightKeepsLeft(FoilLeft(m, r), r);
  }

  /** In foil and sabre nothing takes the place of the contact. */
  lemma FoilNeedsContact(s: Sensor, r: Reading)
    requires s.timers.b1.required > s.timers.b1.margin && s.timers.b2.required > s.timers.b2.margin
    ensures var f := FoilScan(s, r).lamps;
            && (!r.right || s.signalR ==> f.green == s.lamps.green && f.whiteR == s.lamps.whiteR)
            && (!r.left || s.signalL ==> f.red == s.lamps.red && f.whiteL == s.lamps.whiteL)
  {
    FoilDebounceNeedsContact(FoilTimed(s, r), r);
  }

  lemma SabreNeedsContact(s: Sensor, r: Reading)
    ensures var f := SabreScan(s, r).lamps;
            && f.whiteL == s.lamps.whiteL && f.whiteR == s.lamps.whiteR
            && (!r.right || s.signalR ==> f.green == s.lamps.green) && (!r.left || s.signalL ==> f.red == s.lamps.red)
  {
  }

  /** Foil's contact times are longer than the margins that could be taken off them; none is ever set. */
  predicate FoilUnworn(s: Sensor) {
    && s.timers.b1.margin == 0 && s.timers.b2.margin == 0
    && s.timers.b1.required == FOIL_CONTACT_TIME && s.timers.b2.required == FOIL_CONTACT_TIME
  }

  lemma EpeeKeepsFoilTimes(s: Sensor, r: Reading)
    requires FoilUnworn(s)
    ensures FoilUnworn(EpeeScan(s, r))
  {
  }

  lemma FoilMarginsKeepFoilTimes(s: Sensor, r: Reading)
    requires FoilUnworn(s)
    ensures FoilUnworn(s.(timers := FoilMargins(s.timers, r.us)))
  {
  }

  lemma FoilSidesKeepFoilTimes(s: Sensor, r: Reading)
    requires FoilUnworn(s)
    ensures FoilUnworn(FoilLeft(s, r)) && FoilUnworn(FoilRight(s, r))
  {
  }

  lemma FoilKeepsFoilTimes(s: Sensor, r: Reading)
    requires FoilUnworn(s)
    ensures FoilUnworn(FoilScan(s, r))
  {
    var t := FoilTimed(s, r);
    var m := t.(timers := FoilMargins(t.timers, r.us));
    FoilMarginsKeepFoilTimes(t, r);
    FoilSidesKeepFoilTimes(m, r);
    FoilSidesKeepFoilTimes(FoilLeft(m, r), r);
  }

  lemma SeenKeepsFoilTimes(s: Sensor, r: Reading)
    requires FoilUnworn(s)
    ensures FoilUnworn(Seen(s, r))
  {
  }

  lemma StepKeepsFoilTimes(s: Sensor, e: Event)
    requires FoilUnworn(s)
    ensures FoilUnworn(Step(s, e)) && (e.Scan? ==> FoilUnworn(Seen(s, e.r)))
  {
    if e.Scan? {
      var l := Seen(s, e.r);
      SeenKeepsFoilTimes(s, e.r);
      match l.weapon {
        case Foil => FoilKeepsFoilTimes(l, e.r);
        case Epee => EpeeKeepsFoilTimes(l, e.r);
        case Sabre =>
      }
    }
  }

  lemma {:induction false} FoilTimesStay(tr: seq<Sensor>, run: seq<Event>, n: nat)
    requires IsRun(tr, run) && n <= |run| && FoilUnworn(tr[0])
    ensures FoilUnworn(tr[n])
  {
    if n > 0 {
      FoilTimesStay(tr, run, n - 1);
      StepKeepsFoilTimes(tr[n - 1], run[n - 1]);
    }
  }

  /** A light of the side goes on. */
  predicate LightsSide(a: Lamps, b: Lamps, side: Side) {
    if side == Left then (b.red && !a.red) || (b.whiteL && !a.whiteL) else (b.green && !a.green) || (b.whiteR && !a.whiteR)
  }

  predicate Closed(r: Reading, side: Side) { if side == Left then r.left else r.right }

  predicate Signalled(s: Sensor, side: Side) { if side == Left then s.signalL else s.signalR }

  lemma EpeeSidesLightNoWhite(s: Sensor, r: Reading)
    ensures EpeeLeft(s, r).lamps.whiteL == s.lamps.whiteL && EpeeLeft(s, r).lamps.whiteR == s.lamps.whiteR
    ensures EpeeRight(s, r).lamps.whiteL == s.lamps.whiteL && EpeeRight(s, r).lamps.whiteR == s.lamps.whiteR
  {
  }

  lemma EpeeLightsNoWhite(s: Sensor, r: Reading)
    ensures EpeeScan(s, r).lamps.whiteL == s.lamps.whiteL && EpeeScan(s, r).lamps.whiteR == s.lamps.whiteR
  {
    var t := EpeeTimed(s, r);
    var m := t.(timers := EpeeMargins(t.timers, r.us));
    EpeeSidesLightNoWhite(m, r);
    EpeeSidesLightNoWhite(EpeeLeft(m, r), r);
  }

  lemma EpeeNeedsContact(s: Sensor, r: Reading, n: Margins, side: Side)
    requires s.weapon == Epee && Worn(s, n) && n.Below(39) && !Closed(r, side) && !Signalled(s, side)
    ensures !LightsSide(s.lamps, EpeeScan(s, r).lamps, side)
  {
    EpeeLightsNoWhite(s, r);
    if side == Left {
      if !s.lamps.red {
        OpenLeft(s, r);
      }
    } else if !s.lamps.green {
      OpenRight(s, r);
    }
  }

  /** In every run from a reset sensor in which fewer than thirty-nine margins are taken off either contact
      between resets, a hit light goes on only on a side whose contact is closed in that scan, or which has
      been signalled before it. Thirty-nine are enough to break it (HitWithoutContact). */
  lemma HitsNeedContact(tr: seq<Sensor>, run: seq<Event>, n: nat, side: Side)
    requires IsRun(tr, run) && n < |run| && run[n].Scan? && Rested(tr[0]) && FoilUnworn(tr[0]) && FewMargins(tr, run, 39)
    requires LightsSide(tr[n].lamps, tr[n + 1].lamps, side)
    ensures Closed(run[n].r, side) || Signalled(Seen(tr[n], run[n].r), side)
  {
    var s, r := tr[n], run[n].r;
    var l := Seen(s, r);
    var worn := MarginsAt(tr, run, n);
    TimesWearDown(tr, run, n);
    FoilTimesStay(tr, run, n);
    StepKeepsFoilTimes(s, run[n]);
    SeenWears(s, r, worn);
    assert worn.Below(39) && tr[n + 1] == Step(s, run[n]);
    assert LightsSide(l.lamps, WeaponScan(l, r).lamps, side);
    if !Closed(r, side) && !Signalled(l, side) {
      match l.weapon {
        case Foil => FoilNeedsContact(l, r);
        case Epee => EpeeNeedsContact(l, r, if Resets(s, r) then NoMargins else worn, side);
        case Sabre => SabreNeedsContact(l, r);
      }
    }
  }

  // ---- How the margins are spent ----

  function AfterScans(s: Sensor, rs: seq<Reading>): Sensor {
    if rs == [] then s else FullScan(AfterScans(s, rs[..|rs| - 1]), rs[|rs| - 1])
  }

  lemma OneMoreScan(s: Sensor, rs: seq<Reading>, r: Reading)
    ensures AfterScans(s, rs + [r]) == FullScan(AfterScans(s, rs), r)
  {
    assert (rs + [r])[..|rs|] == rs;
  }

  /** No reading is earlier than one before it, and none later than `t`. */
  predicate InTime(rs: seq<Reading>, t: int) {
    && (forall i: nat, j: nat | i < j < |rs| :: rs[i].us <= rs[j].us && rs[i].ms <= rs[j].ms)
    && (forall i: nat | i < |rs| :: rs[i].us <= t && rs[i].ms <= t / 1000)
  }

  /** An epee reading with the contacts as given and no piste contact. */
  function Touch(us: Micros, left: bool, right: bool, guardL: bool, guardR: bool): Reading {
    Reading(us / 1000, us, Epee, left, right, false, false, guardL, guardR, false, false, false)
  }

  lemma OneMoreInTime(rs: seq<Reading>, t: int, us: Micros, left: bool, right: bool, guardL: bool, guardR: bool)
    requires InTime(rs, t) && t <= us
    ensures InTime(rs + [Touch(us, left, right, guardL, guardR)], us)
  {
  }

  /** Epee at rest, with `j` margins taken off the time of the right contact. */
  predicate Ready(s: Sensor, j: nat) {
    && s.weapon == Epee && s.lamps == Dark && !s.lock.started && !s.lock.waiting && !s.signalL && !s.signalR
    && s.timers.c1 == Timer(0, false, EPEE_CONTACT_TIME, EPEE_DOS_SANTOS, false)
    && s.timers.c2 == Timer(0, false, EPEE_CONTACT_TIME - EPEE_DOS_SANTOS * j, EPEE_DOS_SANTOS, false)
  }

  lemma ResetIsReady(s: Sensor)
    ensures Ready(Step(s, NewWeapon(Epee)), 0)
  {
  }

  /** The left contact closes. */
  predicate Touching(s: Sensor, j: nat, us: Micros) {
    && s.weapon == Epee && s.lamps == Dark && !s.lock.started && !s.lock.waiting && !s.signalL && !s.signalR && s.scanners.epee
    && s.timers.c1 == Timer(us, false, EPEE_CONTACT_TIME, EPEE_DOS_SANTOS, false)
    && s.timers.c2 == Timer(0, false, EPEE_CONTACT_TIME - EPEE_DOS_SANTOS * j, EPEE_DOS_SANTOS, false)
  }

  lemma TouchStarts(s: Sensor, j: nat, us: Micros)
    requires Ready(s, j) && j <= 39
    ensures Touching(FullScan(s, Touch(us, true, false, false, false)), j, us)
  {
  }

  /** The touch is complete, but in that scan both points are on the guards: a margin is gone, and nothing
      else has changed. */
  lemma GuardsSpendMargin(s: Sensor, j: nat, us: Micros)
    requires Touching(s, j, us) && j < 39
    ensures Ready(FullScan(s, Touch(us + EPEE_CONTACT_TIME, true, false, true, true)), j + 1)
  {
  }

  lemma GuardTouch(s: Sensor, j: nat, us: Micros)
    requires Ready(s, j) && j < 39
    ensures var touching := FullScan(s, Touch(us, true, false, false, false));
            Ready(FullScan(touching, Touch(us + EPEE_CONTACT_TIME, true, false, true, true)), j + 1)
  {
    TouchStarts(s, j, us);
    GuardsSpendMargin(FullScan(s, Touch(us, true, false, false, false)), j, us);
  }

  lemma GuardTouchInTime(rs: seq<Reading>, us: Micros)
    requires InTime(rs, us - 1)
    ensures InTime(rs + [Touch(us, true, false, false, false)] + [Touch(us + EPEE_CONTACT_TIME, true, false, true, true)],
                   us + 9999)
  {
    OneMoreInTime(rs, us - 1, us, true, false, false, false);
    OneMoreInTime(rs + [Touch(us, true, false, false, false)], us, us + EPEE_CONTACT_TIME, true, false, true, true);
  }

  /** Touches of the left fencer on the guard spend the margins of the right contact. */
  lemma {:induction false} WearOut(s: Sensor, j: nat) returns (rs: seq<Reading>)
    requires Ready(s, 0) && j <= 39
    ensures |rs| == 2 * j && Ready(AfterScans(s, rs), j) && InTime(rs, 10000 * j)
    ensures forall i: nat | i < |rs| :: !rs[i].right
  {
    if j == 0 {
      rs := [];
    } else {
      var before := WearOut(s, j - 1);
      var us: Micros := 10000 * (j - 1) + 1;
      var first, second := Touch(us, true, false, false, false), Touch(us + EPEE_CONTACT_TIME, true, false, true, true);
      GuardTouch(AfterScans(s, before), j - 1, us);
      OneMoreScan(s, before, first);
      OneMoreScan(s, before + [first], second);
      GuardTouchInTime(before, us);
      rs := before + [first] + [second];
    }
  }

  /** The thirty-nine touches, and one more that begins. */
  lemma WornTouch(s: Sensor) returns (rs: seq<Reading>)
    requires Ready(s, 0)
    ensures |rs| == 79 && Touching(AfterScans(s, rs), 39, 400000) && InTime(rs, 400000)
    ensures forall i: nat | i < |rs| :: !rs[i].right
  {
    var before := WearOut(s, 39);
    TouchStarts(AfterScans(s, before), 39, 400000);
    OneMoreScan(s, before, Touch(400000, true, false, false, false));
    OneMoreInTime(before, 390000, 400000, true, false, false, false);
    rs := before + [Touch(400000, true, false, false, false)];
  }

  /** From every reset epee sensor a run of eighty scans, none of which finds the right contact closed, ends
      with both lights on: the thirty-nine margins taken by touches on the guard let a single left hit light
      the other side as well. */
  lemma HitWithoutContact(s: Sensor) returns (rs: seq<Reading>)
    requires Ready(s, 0)
    ensures |rs| == 80 && InTime(rs, 406000) && forall i: nat | i < |rs| :: !rs[i].right
    ensures Hits(AfterScans(s, rs[..79])) == {} && Hits(AfterScans(s, rs)) == {Red, Green}
  {
    var before := WornTouch(s);
    var hit := Touch(406000, true, false, false, false);
    OneMoreScan(s, before, hit);
    OneMoreInTime(before, 400000, 406000, true, false, false, false);
    rs := before + [hit];
    assert rs[..79] == before;
    WornHit(AfterScans(s, before));
  }

  lemma WornHit(s: Sensor)
    requires Touching(s, 39, 400000)
    ensures Hits(s) == {} && Hits(FullScan(s, Touch(406000, true, false, false, false))) == {Red, Green}
  {
    WornHitLamps(s);
  }

  lemma WornHitLamps(s: Sensor)
    requires Touching(s, 39, 400000)
    ensures var l := FullScan(s, Touch(406000, true, false, false, false)).lamps;
            l.red && l.green && !l.whiteL && !l.whiteR
  {
  }

  // ---- Where the lock leaks ----

  /** Once the margins have used up epee's contact time, a touch that begins in the last scan before
      the lock is shown after it: whatever the state, as long as the right side is idle and not yet hit. */
  lemma SpentTimeShowsLateTouch(s: Sensor)
    requires s.weapon == Epee && s.lock == Lock(true, 451, false, s.lock.resetAt) && !s.scanners.epee
    requires !s.signalR && !s.lamps.green && s.timers.c2.required <= 0 && s.timers.c2.start == 0
    requires s.timers.c2.margin >= 0
    ensures var before, after := Touch(451000, false, true, false, false), Touch(452000, false, true, false, false);
            var f := FullScan(s, before);
            && !f.lamps.green && IsLocked(f.lock, after.ms) && !Resets(f, after)
            && f.timers.c2.required == s.timers.c2.required
            && FullScan(f, after).lamps.green
  {
  }

  /** The fortieth margin goes with a left hit while the right point is on the guard. */
  lemma LeftHitSpendsLast(s: Sensor)
    requires Touching(s, 39, 400000)
    ensures var f := FullScan(s, Touch(406000, true, false, false, true));
            && f.weapon == Epee && f.lock.started && f.lock.at == 451 && !f.lock.waiting && f.signalL && !f.signalR
            && f.scanners.epee && f.lamps.red && !f.lamps.green && !f.lamps.whiteL && !f.lamps.whiteR
            && f.timers.c2 == Timer(0, false, 0, EPEE_DOS_SANTOS, false)
  {
  }

  lemma ContactsOpen(s: Sensor)
    requires s.weapon == Epee && s.lock.started && s.lock.at == 451 && !s.lock.waiting && s.signalL && !s.signalR && s.scanners.epee
    requires s.timers.c2 == Timer(0, false, 0, EPEE_DOS_SANTOS, false)
    ensures var f := FullScan(s, Touch(407000, false, false, false, false));
            f == s.(scanners := s.scanners.(epee := false))
  {
  }

  lemma WornTouchLeaks(s: Sensor)
    requires Touching(s, 39, 400000)
    ensures var h := FullScan(s, Touch(406000, true, false, false, true));
            var o := FullScan(h, Touch(407000, false, false, false, false));
            var f, after := FullScan(o, Touch(451000, false, true, false, false)), Touch(452000, false, true, false, false);
            && f.timers.c2.required == 0 && IsLocked(f.lock, after.ms) && !Resets(f, after)
            && Green !in Hits(f) && Green in Hits(FullScan(f, after))
  {
    LeftHitSpendsLast(s);
    var h := FullScan(s, Touch(406000, true, false, false, true));
    ContactsOpen(h);
    SpentTimeShowsLateTouch(FullScan(h, Touch(407000, false, false, false, false)));
  }

  lemma ThreeMoreScans(s: Sensor, rs: seq<Reading>, a: Reading, b: Reading, c: Reading)
    ensures AfterScans(s, rs + [a] + [b] + [c]) == FullScan(FullScan(FullScan(AfterScans(s, rs), a), b), c)
  {
    OneMoreScan(s, rs, a);
    OneMoreScan(s, rs + [a], b);
    OneMoreScan(s, rs + [a] + [b], c);
  }

  lemma LeakInTime(rs: seq<Reading>)
    requires InTime(rs, 400000)
    ensures InTime(rs + [Touch(406000, true, false, false, true)] + [Touch(407000, false, false, false, false)]
                   + [Touch(451000, false, true, false, false)] + [Touch(452000, false, true, false, false)], 452000)
  {
    var hit, open := Touch(406000, true, false, false, true), Touch(407000, false, false, false, false);
    OneMoreInTime(rs, 400000, 406000, true, false, false, true);
    OneMoreInTime(rs + [hit], 406000, 407000, false, false, false, false);
    OneMoreInTime(rs + [hit] + [open], 407000, 451000, false, true, false, false);
    OneMoreInTime(rs + [hit] + [open] + [Touch(451000, false, true, false, false)], 451000, 452000, false, true, false, false);
  }

  /** From every reset epee sensor a run of eighty-two scans, which spends forty margins and so the whole
      contact time of the right side, leads past the lock of a left hit, where one more scan lights the
      right side. */
  lemma SpentMarginLetsHitThrough(s: Sensor) returns (rs: seq<Reading>, after: Reading)
    requires Ready(s, 0)
    ensures |rs| == 82 && InTime(rs + [after], 452000)
    ensures var f := AfterScans(s, rs);
            && f.timers.c2.required == EPEE_CONTACT_TIME - 40 * EPEE_DOS_SANTOS && IsLocked(f.lock, after.ms) && !Resets(f, after)
            && Green !in Hits(f) && Green in Hits(FullScan(f, after))
  {
    var touch := WornTouch(s);
    var hit, open := Touch(406000, true, false, false, true), Touch(407000, false, false, false, false);
    var late := Touch(451000, false, true, false, false);
    after := Touch(452000, false, true, false, false);
    rs := touch + [hit] + [open] + [late];
    LeakInTime(touch);
    ThreeMoreScans(s, touch, hit, open, late);
    WornTouchLeaks(AfterScans(s, touch));
  }
}
