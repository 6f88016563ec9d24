/**
 What a light of the sensor tells and what it takes to light one: the colour of a foil light over every run, and
 the contacts that light their side, for each weapon.
 */
module SensorLaws {
  import opened Fencing
  import opened Debounce
  import opened Sensor

  // ---- The colour of a foil light ----

  /** Whether the contact of a side was valid in the last foil reading before event `n`. */
  function ValidBefore(tr: seq<Sensor>, run: seq<Event>, n: nat, side: Side): bool
    requires IsRun(tr, run) && n <= |run|
  {
    if n == 0 then (if side == Left then tr[0].scanners.validL else tr[0].scanners.validR)
    else if run[n - 1].Scan? && run[n - 1].r.weapon == Foil then
      if side == Left then run[n - 1].r.validL else run[n - 1].r.validR
    else ValidBefore(tr, run, n - 1, side)
  }

  predicate SameValidity(s: Sensor, f: Sensor) {
    f.scanners.validL == s.scanners.validL && f.scanners.validR == s.scanners.validR
  }

  lemma EpeeKeepsValidity(s: Sensor, r: Reading)
    ensures SameValidity(s, EpeeScan(s, r))
  {
    var t := EpeeTimed(s, r);
    var m := t.(timers := EpeeMargins(t.timers, r.us));
    EpeeSidesConsume(m, r);
    EpeeSidesConsume(EpeeLeft(m, r), r);
  }

  lemma SeenKeepsScanners(s: Sensor, r: Reading)
    ensures Seen(s, r).scanners == s.scanners && Seen(s, r).weapon == r.weapon
  {
  }

  lemma StepValidity(s: Sensor, e: Event)
    ensures var f := Step(s, e);
            if e.Scan? && e.r.weapon == Foil then f.scanners.validL == e.r.validL && f.scanners.validR == e.r.validR
            else SameValidity(s, f)
  {
    if e.Scan? {
      SeenKeepsScanners(s, e.r);
      if e.r.weapon == Epee {
        EpeeKeepsValidity(Seen(s, e.r), e.r);
      }
    }
  }

  lemma {:induction false} LastValidity(tr: seq<Sensor>, run: seq<Event>, n: nat)
    requires IsRun(tr, run) && n <= |run|
    ensures tr[n].scanners.validL == ValidBefore(tr, run, n, Left)
    ensures tr[n].scanners.validR == ValidBefore(tr, run, n, Right)
  {
    if n > 0 {
      LastValidity(tr, run, n - 1);
      StepValidity(tr[n - 1], run[n - 1]);
      assert tr[n] == Step(tr[n - 1], run[n - 1]);
    }
  }

  /** From `a` to `b` a coloured light goes on only for a valid contact, and a white one only for one that is not. */
  predicate Coloured(a: Lamps, b: Lamps, validL: bool, validR: bool) {
    && (b.red && !a.red ==> validL) && (b.whiteL && !a.whiteL ==> !validL)
    && (b.green && !a.green ==> validR) && (b.whiteR && !a.whiteR ==> !validR)
  }

  lemma FoilSidesColour(s: Sensor, r: Reading)
    ensures Coloured(s.lamps, FoilLeft(s, r).lamps, s.scanners.validL, s.scanners.validR)
    ensures Coloured(s.lamps, FoilRight(s, r).lamps, s.scanners.validL, s.scanners.validR)
    ensures FoilLeft(s, r).scanners == s.scanners
  {
  }

  lemma FoilDebounceColour(t: Sensor, r: Reading)
    ensures Coloured(t.lamps, FoilDebounce(t, r).lamps, t.scanners.validL, t.scanners.validR)
  {
    var m := t.(timers := FoilMargins(t.timers, r.us));
    FoilSidesColour(m, r);
    FoilSidesColour(FoilLeft(m, r), r);
  }

  lemma FoilColour(s: Sensor, r: Reading)
    ensures Coloured(s.lamps, FoilScan(s, r).lamps, s.scanners.validL, s.scanners.validR)
  {
    FoilDebounceColour(FoilTimed(s, r), r);
  }

  /** In every run, a coloured light goes on in a foil scan only if the reading before it found that side's contact
      valid, and a white one only if it did not; epee and sabre set no white light. */
  lemma ColourTellsValidity(tr: seq<Sensor>, run: seq<Event>, n: nat)
    requires IsRun(tr, run) && n < |run| && run[n].Scan?
    ensures var a, b := Seen(tr[n], run[n].r).lamps, tr[n + 1].lamps;
            if run[n].r.weapon == Foil
            then Coloured(a, b, ValidBefore(tr, run, n, Left), ValidBefore(tr, run, n, Right))
            else b.whiteL == a.whiteL && b.whiteR == a.whiteR
  {
    var r := run[n].r;
    var l := Seen(tr[n], r);
    assert tr[n + 1] == Step(tr[n], run[n]);
    SeenKeepsScanners(tr[n], r);
    match r.weapon {
      case Foil =>
        LastValidity(tr, run, n);
        FoilColour(l, r);
      case Epee => EpeeLightsNoWhite(l, r);
      case Sabre => SabreNeedsContact(l, r);
    }
  }

  // ---- What lights a side ----

  predicate Lit(s: Sensor, side: Side) {
    if side == Left then s.lamps.red || s.lamps.whiteL else s.lamps.green || s.lamps.whiteR
  }

  function ContactTime(w: Scanned): int {
    match w
    case Foil => FOIL_CONTACT_TIME
    case Epee => EPEE_CONTACT_TIME
    case Sabre => SABRE_CONTACT_TIME
  }

  /** The timer of a side's contact. */
  function TimerOf(s: Sensor, side: Side): Timer {
    if s.weapon == Foil then (if side == Left then s.timers.b1 else s.timers.b2)
    else if side == Left then s.timers.c1 else s.timers.c2
  }

  predicate Scanning(s: Sensor) {
    match s.weapon
    case Foil => s.scanners.foil
    case Epee => s.scanners.epee
    case Sabre => s.scanners.sabre
  }

  predicate OnGuard(r: Reading, side: Side) { if side == Left then r.guardL || r.pisteL else r.guardR || r.pisteR }

  predicate WasValid(s: Sensor, side: Side) { if side == Left then s.scanners.validL else s.scanners.validR }

  /** The reading holds the contact of the side back: guard or piste in epee, in foil only if the contact was not
      valid before. In foil the guard of the right fencer holds the left contact back too. */
  predicate HeldBack(s: Sensor, r: Reading, side: Side) {
    match s.weapon
    case Epee => OnGuard(r, side)
    case Foil => (OnGuard(r, side) && !WasValid(s, side)) || (side == Left && OnGuard(r, Right) && !WasValid(s, Right))
    case Sabre => false
  }

  /** A timer that can complete within the contact time, of a press that began no later than `since`. */
  predicate Timing(t: Timer, w: Scanned, since: int, now: int) {
    t.start <= since && (t.start == 0 ==> now <= since) && t.required <= ContactTime(w) && t.margin >= 0
  }

  /** The side is lit, or its press is still timed. */
  predicate Holding(s: Sensor, side: Side, since: int, now: int) {
    Lit(s, side) || (!Signalled(s, side) && Timing(TimerOf(s, side), s.weapon, since, now))
  }

  /** What a scan makes of a held contact. */
  predicate Held(s: Sensor, f: Sensor, r: Reading, side: Side, since: int) {
    && f.weapon == s.weapon && Scanning(f)
    && Holding(f, side, since, since + 1)
    && (Scanning(s) && r.us - since >= ContactTime(s.weapon) ==> Lit(f, side))
  }

  /** The press of the side has been timed in this scan, and is complete if it began at least a contact time ago. */
  predicate Timed(s: Sensor, side: Side, since: int, now: int) {
    var t := TimerOf(s, side);
    && !Signalled(s, side) && t.start != 0 && t.start <= since && t.required <= ContactTime(s.weapon) && t.margin >= 0
    && (now - since >= ContactTime(s.weapon) ==> t.ok)
  }

  /** Lit, or timed and not complete. */
  predicate Settled(s: Sensor, side: Side, since: int, now: int) {
    Lit(s, side) || (Timed(s, side, since, now) && !TimerOf(s, side).ok)
  }

  lemma EpeeTimes(s: Sensor, r: Reading, side: Side, since: int)
    requires s.weapon == Epee && Closed(r, side) && !Lit(s, side) && Holding(s, side, since, r.us)
    ensures Timed(EpeeTimed(s, r), side, since, r.us)
  {
  }

  lemma EpeeMarginsTimed(t: Sensor, us: Micros, side: Side, since: int)
    requires t.weapon == Epee && Timed(t, side, since, us)
    ensures Timed(t.(timers := EpeeMargins(t.timers, us)), side, since, us)
  {
  }

  lemma EpeeOwnSide(m: Sensor, r: Reading, side: Side, since: int)
    requires m.weapon == Epee && Timed(m, side, since, r.us) && !OnGuard(r, side)
    ensures Settled(if side == Left then EpeeLeft(m, r) else EpeeRight(m, r), side, since, r.us)
  {
  }

  lemma EpeeOtherSide(m: Sensor, r: Reading, side: Side)
    ensures var f := if side == Left then EpeeRight(m, r) else EpeeLeft(m, r);
            && f.weapon == m.weapon && (Lit(m, side) ==> Lit(f, side))
            && (m.weapon == Epee ==> TimerOf(f, side) == TimerOf(m, side)) && Signalled(f, side) == Signalled(m, side)
  {
  }

  lemma EpeeDebounceSettles(t: Sensor, r: Reading, side: Side, since: int)
    requires t.weapon == Epee && Timed(t, side, since, r.us) && !OnGuard(r, side)
    ensures Settled(EpeeDebounce(t, r), side, since, r.us)
    ensures EpeeDebounce(t, r).weapon == Epee && EpeeDebounce(t, r).scanners == t.scanners
  {
    var m := t.(timers := EpeeMargins(t.timers, r.us));
    EpeeMarginsTimed(t, r.us, side, since);
    EpeeDebounceConsumes(t, r);
    if side == Left {
      EpeeOwnSide(m, r, side, since);
      EpeeOtherSide(EpeeLeft(m, r), r, side);
    } else {
      EpeeOtherSide(m, r, side);
      EpeeOwnSide(EpeeLeft(m, r), r, side, since);
    }
  }

  lemma EpeeHolds(s: Sensor, r: Reading, side: Side, since: int)
    requires s.weapon == Epee && Closed(r, side) && !HeldBack(s, r, side) && !Lit(s, side) && Holding(s, side, since, r.us)
    ensures Held(s, EpeeScan(s, r), r, side, since)
  {
    EpeeTimes(s, r, side, since);
    if s.scanners.epee {
      EpeeDebounceSettles(EpeeTimed(s, r), r, side, since);
    }
  }

  lemma FoilTimes(s: Sensor, r: Reading, side: Side, since: int)
    requires s.weapon == Foil && Closed(r, side) && !Lit(s, side) && Holding(s, side, since, r.us)
    ensures Timed(FoilTimed(s, r), side, since, r.us)
  {
  }

  lemma FoilMarginsTimed(t: Sensor, us: Micros, side: Side, since: int)
    requires t.weapon == Foil && Timed(t, side, since, us)
    ensures Timed(t.(timers := FoilMargins(t.timers, us)), side, since, us)
  {
  }

  lemma FoilOwnSide(m: Sensor, r: Reading, side: Side, since: int)
    requires m.weapon == Foil && Timed(m, side, since, r.us) && !HeldBack(m, r, side)
    ensures Settled(if side == Left then FoilLeft(m, r) else FoilRight(m, r), side, since, r.us)
  {
  }

  lemma FoilOtherSide(m: Sensor, r: Reading, side: Side)
    requires m.weapon == Foil && !HeldBack(m, r, side)
    ensures var f := if side == Left then FoilRight(m, r) else FoilLeft(m, r);
            && f.weapon == Foil && f.scanners == m.scanners && (Lit(m, side) ==> Lit(f, side))
            && TimerOf(f, side) == TimerOf(m, side) && Signalled(f, side) == Signalled(m, side)
  {
  }

  lemma FoilScannersStay(m: Sensor, r: Reading)
    ensures FoilLeft(m, r).scanners == m.scanners && FoilLeft(m, r).weapon == m.weapon
    ensures FoilRight(m, r).scanners == m.scanners && FoilRight(m, r).weapon == m.weapon
  {
  }

  lemma FoilDebounceSettles(t: Sensor, r: Reading, side: Side, since: int)
    requires t.weapon == Foil && Timed(t, side, since, r.us) && !HeldBack(t, r, side)
    ensures Settled(FoilDebounce(t, r), side, since, r.us)
    ensures FoilDebounce(t, r).weapon == Foil && FoilDebounce(t, r).scanners == t.scanners
  {
    var m := t.(timers := FoilMargins(t.timers, r.us));
    FoilMarginsTimed(t, r.us, side, since);
    FoilScannersStay(m, r);
    FoilScannersStay(FoilLeft(m, r), r);
    if side == Left {
      FoilOwnSide(m, r, side, since);
      FoilOtherSide(FoilLeft(m, r), r, side);
    } else {
      FoilOtherSide(m, r, side);
      FoilOwnSide(FoilLeft(m, r), r, side, since);
    }
  }

  lemma FoilHolds(s: Sensor, r: Reading, side: Side, since: int)
    requires s.weapon == Foil && Closed(r, side) && !HeldBack(s, r, side) && !Lit(s, side) && Holding(s, side, since, r.us)
    ensures Held(s, FoilScan(s, r), r, side, since)
  {
    var t := FoilTimed(s, r);
    FoilTimes(s, r, side, since);
    if s.scanners.foil {
      FoilDebounceSettles(t, r, side, since);
      FoilRemembers(FoilDebounce(t, r), r, side, since);
    }
  }

  lemma FoilRemembers(d: Sensor, r: Reading, side: Side, since: int)
    requires d.weapon == Foil && Settled(d, side, since, r.us)
    ensures Settled(d.(scanners := d.scanners.(validL := r.validL, validR := r.validR)), side, since, r.us)
  {
  }

  lemma SabreHolds(s: Sensor, r: Reading, side: Side, since: int)
    requires s.weapon == Sabre && Closed(r, side) && !Lit(s, side) && Holding(s, side, since, r.us)
    ensures Held(s, SabreScan(s, r), r, side, since)
  {
  }

  lemma WeaponHolds(s: Sensor, r: Reading, side: Side, since: int)
    requires Closed(r, side) && !HeldBack(s, r, side) && !Lit(s, side) && Holding(s, side, since, r.us)
    ensures Held(s, WeaponScan(s, r), r, side, since)
  {
    match s.weapon {
      case Foil => FoilHolds(s, r, side, since);
      case Epee => EpeeHolds(s, r, side, since);
      case Sabre => SabreHolds(s, r, side, since);
    }
  }

  lemma LitStays(s: Sensor, r: Reading, side: Side)
    requires Lit(s, side)
    ensures Lit(WeaponScan(s, r), side) && WeaponScan(s, r).weapon == s.weapon
  {
    var f := WeaponScan(s, r);
    WeaponOutcome(s, r);
    assert Hits(s) <= Hits(f);
    assert Lit(s, side) == (if side == Left then Red in Hits(s) || WhiteL in Hits(s)
                            else Green in Hits(s) || WhiteR in Hits(s));
  }

  /** The reading finds the contact closed, is not held back, and comes before the lock. */
  predicate Counts(s: Sensor, e: Event, w: Scanned, side: Side) {
    e.Scan? && e.r.weapon == w && Closed(e.r, side) && !HeldBack(s, e.r, side) && !IsLocked(s.lock, e.r.ms)
  }

  /** After a counting scan: lit, or the press still timed by a scanner that debounces. */
  predicate Pressing(f: Sensor, w: Scanned, side: Side, since: int) {
    f.weapon == w && (Lit(f, side) || (Scanning(f) && Holding(f, side, since, since + 1)))
  }

  lemma CountingStep(s: Sensor, e: Event, w: Scanned, side: Side, since: int)
    requires s.weapon == w && Counts(s, e, w, side) && Holding(s, side, since, e.r.us)
    ensures Pressing(Step(s, e), w, side, since)
    ensures Scanning(s) && e.r.us - since >= ContactTime(w) ==> Lit(Step(s, e), side)
  {
    assert Seen(s, e.r) == s;
    if Lit(s, side) {
      LitStays(s, e.r, side);
    } else {
      WeaponHolds(s, e.r, side, since);
    }
  }

  /** The same, of a scanner that debounces or of a side that is lit. */
  lemma NextCounting(s: Sensor, e: Event, w: Scanned, side: Side, since: int)
    requires Pressing(s, w, side, since) && Counts(s, e, w, side)
    ensures Pressing(Step(s, e), w, side, since) && (e.r.us - since >= ContactTime(w) ==> Lit(Step(s, e), side))
  {
    if Lit(s, side) {
      LitStays(s, e.r, side);
      assert Seen(s, e.r) == s;
    } else {
      CountingStep(s, e, w, side, since);
    }
  }

  lemma {:induction false} ContactCounts(tr: seq<Sensor>, run: seq<Event>, i: nat, j: nat, side: Side)
    requires IsRun(tr, run) && i < j <= |run| && run[i].Scan? && Holding(tr[i], side, run[i].r.us, run[i].r.us)
    requires forall k: nat | i <= k < j :: Counts(tr[k], run[k], tr[i].weapon, side)
    ensures Pressing(tr[j], tr[i].weapon, side, run[i].r.us)
    decreases j
  {
    if i + 1 == j {
      CountingStep(tr[i], run[i], tr[i].weapon, side, run[i].r.us);
      assert tr[j] == Step(tr[i], run[i]);
    } else {
      ContactCounts(tr, run, i, j - 1, side);
      NextCounting(tr[j - 1], run[j - 1], tr[i].weapon, side, run[i].r.us);
      assert tr[j] == Step(tr[j - 1], run[j - 1]);
    }
  }

  // ---- The timers of every run ----

  predicate Dated(t: Timer, now: int) { t.start <= now && t.margin >= 0 }

  /** No press is dated later than `now`, and the contact timers of the weapon complete within its contact time. */
  predicate Fit(s: Sensor, now: int) {
    && Dated(s.timers.b1, now) && Dated(s.timers.b2, now) && Dated(s.timers.c1, now) && Dated(s.timers.c2, now)
    && TimerOf(s, Left).required <= ContactTime(s.weapon) && TimerOf(s, Right).required <= ContactTime(s.weapon)
  }

  lemma LaterFit(s: Sensor, now: int, later: int)
    requires Fit(s, now) && now <= later
    ensures Fit(s, later)
  {
  }

  lemma SeenFit(s: Sensor, r: Reading)
    requires Fit(s, r.us)
    ensures Fit(Seen(s, r), r.us)
  {
  }

  lemma EpeeSidesFit(m: Sensor, r: Reading)
    requires m.weapon == Epee && Fit(m, r.us)
    ensures Fit(EpeeLeft(m, r), r.us) && EpeeLeft(m, r).weapon == Epee && Fit(EpeeRight(m, r), r.us)
  {
  }

  lemma UpdatedDated(t: Timer, condition: bool, us: Micros)
    requires Dated(t, us)
    ensures Dated(Updated(t, condition, us), us) && Updated(t, condition, us).required == t.required
  {
  }

  lemma MarginDated(t: Timer, us: Micros)
    requires Dated(t, us)
    ensures Dated(WithMargin(t, us), us) && WithMargin(t, us).required <= t.required
  {
  }

  lemma EpeeTimedFit(s: Sensor, r: Reading)
    requires s.weapon == Epee && Fit(s, r.us)
    ensures Fit(EpeeTimed(s, r), r.us) && EpeeTimed(s, r).weapon == Epee
    ensures Fit(EpeeIdleCheck(s, r), r.us)
  {
    UpdatedDated(s.timers.c1, r.left, r.us);
    UpdatedDated(s.timers.c2, r.right, r.us);
    UpdatedDated(s.timers.b1, r.leak, r.us);
    UpdatedDated(s.timers.b2, r.leak, r.us);
  }

  lemma EpeeMarginsFit(t: Sensor, us: Micros)
    requires t.weapon == Epee && Fit(t, us)
    ensures Fit(t.(timers := EpeeMargins(t.timers, us)), us)
  {
    MarginDated(t.timers.c1, us);
    MarginDated(t.timers.c2, us);
  }

  lemma EpeeFit(s: Sensor, r: Reading)
    requires s.weapon == Epee && Fit(s, r.us)
    ensures Fit(EpeeScan(s, r), r.us)
  {
    var t := EpeeTimed(s, r);
    var m := t.(timers := EpeeMargins(t.timers, r.us));
    EpeeTimedFit(s, r);
    EpeeTimedFit(t, r);
    EpeeMarginsFit(t, r.us);
    EpeeSidesFit(m, r);
    EpeeSidesFit(EpeeLeft(m, r), r);
  }

  lemma FoilSidesFit(m: Sensor, r: Reading)
    requires m.weapon == Foil && Fit(m, r.us)
    ensures Fit(FoilLeft(m, r), r.us) && FoilLeft(m, r).weapon == Foil && Fit(FoilRight(m, r), r.us)
  {
  }

  lemma FoilTimedFit(s: Sensor, r: Reading)
    requires s.weapon == Foil && Fit(s, r.us)
    ensures Fit(FoilTimed(s, r), r.us) && FoilTimed(s, r).weapon == Foil
    ensures Fit(FoilIdleCheck(s, r), r.us)
  {
    UpdatedDated(s.timers.b1, r.left && !s.signalL, r.us);
    UpdatedDated(s.timers.b2, r.right && !s.signalR, r.us);
    UpdatedDated(s.timers.c1, r.leak, r.us);
    UpdatedDated(s.timers.c2, r.leak, r.us);
  }

  lemma FoilMarginsFit(t: Sensor, us: Micros)
    requires t.weapon == Foil && Fit(t, us)
    ensures Fit(t.(timers := FoilMargins(t.timers, us)), us)
  {
    MarginDated(t.timers.b1, us);
    MarginDated(t.timers.b2, us);
  }

  lemma FoilDebounceFit(t: Sensor, r: Reading)
    requires t.weapon == Foil && Fit(t, r.us)
    ensures Fit(FoilDebounce(t, r), r.us) && FoilDebounce(t, r).weapon == Foil
  {
    var m := t.(timers := FoilMargins(t.timers, r.us));
    FoilMarginsFit(t, r.us);
    FoilScannersStay(m, r);
    FoilScannersStay(FoilLeft(m, r), r);
    FoilSidesFit(m, r);
    FoilSidesFit(FoilLeft(m, r), r);
  }

  lemma FoilStateFit(t: Sensor, r: Reading)
    requires t.weapon == Foil && Fit(t, r.us)
    ensures Fit(FoilState(t, r), r.us) && FoilState(t, r).weapon == Foil
  {
    FoilTimedFit(t, r);
    FoilDebounceFit(t, r);
  }

  lemma SameTimersFit(s: Sensor, f: Sensor, now: int)
    requires Fit(s, now) && f.timers == s.timers && f.weapon == s.weapon
    ensures Fit(f, now)
  {
  }

  lemma FoilFit(s: Sensor, r: Reading)
    requires s.weapon == Foil && Fit(s, r.us)
    ensures Fit(FoilScan(s, r), r.us)
  {
    var t := FoilTimed(s, r);
    FoilTimedFit(s, r);
    FoilStateFit(t, r);
    SameTimersFit(FoilState(t, r), FoilScan(s, r), r.us);
  }

  lemma SabreFit(s: Sensor, r: Reading)
    requires s.weapon == Sabre && Fit(s, r.us)
    ensures Fit(SabreScan(s, r), r.us)
  {
  }

  lemma StepFit(s: Sensor, e: Event, now: int)
    requires Fit(s, now) && now >= 0 && (e.Scan? ==> now <= e.r.us)
    ensures Fit(Step(s, e), if e.Scan? then e.r.us else now)
  {
    if e.Scan? {
      LaterFit(s, now, e.r.us);
      SeenFit(s, e.r);
      var l := Seen(s, e.r);
      match l.weapon {
        case Foil => FoilFit(l, e.r);
        case Epee => EpeeFit(l, e.r);
        case Sabre => SabreFit(l, e.r);
      }
    }
  }

  predicate InOrder(run: seq<Event>) {
    forall i: nat, j: nat | i < j < |run| && run[i].Scan? && run[j].Scan? :: run[i].r.us <= run[j].r.us
  }

  lemma {:induction false} RunFit(tr: seq<Sensor>, run: seq<Event>, n: nat, now: int)
    requires IsRun(tr, run) && n <= |run| && Fit(tr[0], 0) && InOrder(run) && now >= 0
    requires forall k: nat | k < n && run[k].Scan? :: run[k].r.us <= now
    ensures Fit(tr[n], now)
  {
    if n == 0 {
      LaterFit(tr[0], 0, now);
    } else {
      var before := if run[n - 1].Scan? then run[n - 1].r.us else now;
      RunFit(tr, run, n - 1, before);
      StepFit(tr[n - 1], run[n - 1], before);
      assert tr[n] == Step(tr[n - 1], run[n - 1]);
      LaterFit(tr[n], before, now);
    }
  }

  /** In every run, a contact that is closed in every scan for the contact time of the weapon, at least two scans of
      it, lights its side: as long as the side is not signalled when the contact is first seen, the weapon stays,
      no scan is past the lock, and neither guard nor piste holds the contact back where they count. */
  lemma ContactLightsSide(tr: seq<Sensor>, run: seq<Event>, i: nat, j: nat, side: Side)
    requires IsRun(tr, run) && InOrder(run) && Fit(tr[0], 0) && i < j < |run|
    requires run[i].Scan? && run[j].Scan? && !Signalled(tr[i], side)
    requires forall k: nat | i <= k <= j :: Counts(tr[k], run[k], tr[i].weapon, side)
    requires run[j].r.us - run[i].r.us >= ContactTime(tr[i].weapon)
    ensures Lit(tr[j + 1], side)
  {
    assert Counts(tr[i], run[i], tr[i].weapon, side) && Counts(tr[j], run[j], tr[i].weapon, side);
    RunFit(tr, run, i, run[i].r.us);
    ContactCounts(tr, run, i, j, side);
    NextCounting(tr[j], run[j], tr[i].weapon, side, run[i].r.us);
    assert tr[j + 1] == Step(tr[j], run[j]);
  }

  // ---- When the lights go out ----

  /** A reset sensor times from the scan that resets it, so that scan lights nothing. */
  lemma ResetDarkens(s: Sensor, r: Reading)
    requires Resets(s, r)
    ensures Hits(FullScan(s, r)) == {}
  {
    var l := Seen(s, r);
    assert l.lamps == Dark && !l.signalL && !l.signalR;
    match l.weapon {
      case Foil => FoilStartsDark(l, r);
      case Epee => EpeeStartsDark(l, r);
      case Sabre =>
    }
  }

  lemma FoilStartsDark(s: Sensor, r: Reading)
    requires s.timers.b1 == ClearedTo(s.timers.b1, FOIL_CONTACT_TIME)
    requires s.timers.b2 == ClearedTo(s.timers.b2, FOIL_CONTACT_TIME)
    ensures FoilScan(s, r).lamps == s.lamps
  {
    var t := FoilTimed(s, r);
    assert !t.timers.b1.ok && !t.timers.b2.ok;
  }

  lemma EpeeStartsDark(s: Sensor, r: Reading)
    requires s.timers.c1.start == 0 && !s.timers.c1.ok && s.timers.c1.required > 0
    requires s.timers.c2.start == 0 && !s.timers.c2.ok && s.timers.c2.required > 0
    ensures EpeeScan(s, r).lamps == s.lamps
  {
    var t := EpeeTimed(s, r);
    assert !t.timers.c1.ok && !t.timers.c2.ok;
  }

  /** Past the lock the reset is waited for: with the buzzer until `sounds`, without it until `rests` at the latest. */
  predicate Waiting(s: Sensor, w: Scanned, at: int, sounds: int, rests: int) {
    && s.weapon == w && s.lock.started && s.lock.at == at && s.lock.waiting
    && (if s.lamps.buzz then s.lock.resetAt == sounds else s.lock.resetAt <= rests)
  }

  /** A scan of the same weapon past the lock. */
  predicate LateScan(e: Event, w: Scanned, at: int) { e.Scan? && e.r.weapon == w && e.r.ms > at }

  lemma WaitingStep(s: Sensor, e: Event, w: Scanned, at: int, sounds: int, rests: int)
    requires Waiting(s, w, at, sounds, rests) && NoLeftovers(s) && LateScan(e, w, at) && !Resets(s, e.r)
    requires s.lamps.buzz && e.r.ms > sounds ==> e.r.ms + EXTRA_TIME <= rests
    ensures Waiting(Step(s, e), w, at, sounds, rests)
    ensures e.r.ms > sounds || !s.lamps.buzz ==> !Step(s, e).lamps.buzz
  {
    NoHitPastLock(s, e.r);
    WeaponOutcome(Locking(s, e.r.ms), e.r);
  }

  lemma WaitingStarts(s: Sensor, e: Event, rests: int)
    requires s.lock.started && !s.lock.waiting && s.lamps.buzz && NoLeftovers(s) && LateScan(e, s.weapon, s.lock.at)
    ensures Waiting(Step(s, e), s.weapon, s.lock.at, e.r.ms + s.lightsDuration - LockTime(s.weapon), rests)
  {
    NoHitPastLock(s, e.r);
    WeaponOutcome(Locking(s, e.r.ms), e.r);
  }

  /** Events from `i` on, before `j`, are scans past the lock that do not reset. */
  predicate NoReset(tr: seq<Sensor>, run: seq<Event>, i: nat, j: nat, w: Scanned, at: int)
    requires IsRun(tr, run) && j <= |run|
  {
    forall k: nat | i <= k < j :: LateScan(run[k], w, at) && !Resets(tr[k], run[k].r)
  }

  /** The buzzer is silenced by scans no later than the extra time before `rests`. */
  predicate Silenced(tr: seq<Sensor>, run: seq<Event>, i: nat, j: nat, sounds: int, rests: int)
    requires IsRun(tr, run) && j <= |run|
  {
    forall k: nat | i <= k < j ::
      run[k].Scan? && (tr[k].lamps.buzz && run[k].r.ms > sounds ==> run[k].r.ms + EXTRA_TIME <= rests)
  }

  lemma {:induction false} WaitsOn(tr: seq<Sensor>, run: seq<Event>, i: nat, j: nat,
                                   w: Scanned, at: int, sounds: int, rests: int)
    requires TameRun(tr, run) && i <= j <= |run| && Waiting(tr[i], w, at, sounds, rests)
    requires NoReset(tr, run, i, j, w, at) && Silenced(tr, run, i, j, sounds, rests)
    ensures Waiting(tr[j], w, at, sounds, rests) && (!tr[i].lamps.buzz ==> !tr[j].lamps.buzz)
  {
    if i < j {
      WaitsOn(tr, run, i, j - 1, w, at, sounds, rests);
      RunKeeps(tr, run, j - 1);
      WaitingStep(tr[j - 1], run[j - 1], w, at, sounds, rests);
      assert tr[j] == Step(tr[j - 1], run[j - 1]);
    }
  }

  lemma SomeScanResets(tr: seq<Sensor>, run: seq<Event>, a: nat, b: nat, c: nat)
    requires TameRun(tr, run) && Ordered(run) && a < b < c < |run|
    requires tr[a].lock.started && !tr[a].lock.waiting && tr[a].lamps.buzz
    requires LateScan(run[a], tr[a].weapon, tr[a].lock.at) && NoReset(tr, run, a + 1, c, tr[a].weapon, tr[a].lock.at)
    requires run[b].r.ms > run[a].r.ms + tr[a].lightsDuration - LockTime(tr[a].weapon)
    requires LateScan(run[c], tr[a].weapon, tr[a].lock.at) && run[c].r.ms > run[b].r.ms + EXTRA_TIME
    ensures Resets(tr[c], run[c].r)
  {
    var w, at, sounds := tr[a].weapon, tr[a].lock.at, run[a].r.ms + tr[a].lightsDuration - LockTime(tr[a].weapon);
    var rests := run[b].r.ms + EXTRA_TIME;
    RunKeeps(tr, run, a);
    WaitingStarts(tr[a], run[a], rests);
    assert tr[a + 1] == Step(tr[a], run[a]);
    WaitsOn(tr, run, a + 1, b, w, at, sounds, rests);
    RunKeeps(tr, run, b);
    WaitingStep(tr[b], run[b], w, at, sounds, rests);
    assert tr[b + 1] == Step(tr[b], run[b]);
    StaysSilent(tr, run, b + 1, c, w, at, sounds, rests);
  }

  lemma {:induction false} StaysSilent(tr: seq<Sensor>, run: seq<Event>, i: nat, j: nat,
                                       w: Scanned, at: int, sounds: int, rests: int)
    requires TameRun(tr, run) && i <= j <= |run| && Waiting(tr[i], w, at, sounds, rests) && !tr[i].lamps.buzz
    requires NoReset(tr, run, i, j, w, at)
    ensures Waiting(tr[j], w, at, sounds, rests) && !tr[j].lamps.buzz
  {
    if i < j {
      StaysSilent(tr, run, i, j - 1, w, at, sounds, rests);
      RunKeeps(tr, run, j - 1);
      WaitingStep(tr[j - 1], run[j - 1], w, at, sounds, rests);
      assert tr[j] == Step(tr[j - 1], run[j - 1]);
    }
  }

  /** The lights of a cycle go out: in a tame run of scans of one weapon, the first scan past the lock, one after the
      lights' duration less the lock time from it, and one more than half a second after that one cannot all leave
      the cycle as it is: by the third of them a scan has put out every hit light. */
  lemma LightsGoOut(tr: seq<Sensor>, run: seq<Event>, a: nat, b: nat, c: nat) returns (k: nat)
    requires TameRun(tr, run) && Ordered(run) && a < b < c < |run|
    requires tr[a].lock.started && !tr[a].lock.waiting && tr[a].lamps.buzz
    requires forall i: nat | a <= i <= c :: LateScan(run[i], tr[a].weapon, tr[a].lock.at)
    requires run[a].Scan? && run[b].Scan? && run[b].r.ms > run[a].r.ms + tr[a].lightsDuration - LockTime(tr[a].weapon)
    requires run[c].Scan? && run[c].r.ms > run[b].r.ms + EXTRA_TIME
    ensures a < k <= c && Hits(tr[k + 1]) == {}
  {
    if NoReset(tr, run, a + 1, c, tr[a].weapon, tr[a].lock.at) {
      SomeScanResets(tr, run, a, b, c);
      k := c;
    } else {
      k :| a < k < c && Resets(tr[k], run[k].r);
    }
    ResetDarkens(tr[k], run[k].r);
    assert tr[k + 1] == Step(tr[k], run[k]);
  }
}
