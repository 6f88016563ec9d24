/** The sensor as the object the firmware keeps: its lights, lock, signals and contact timers, changed in place. */
module SensorMachine {
  import opened Fencing
  import opened Debounce
  import opened Sensor
  import opened SensorLaws

  class MultiWeaponSensor {
    const b1: DebounceTimer
    const b2: DebounceTimer
    const c1: DebounceTimer
    const c2: DebounceTimer
    var actualWeapon: Scanned
    var lamps: Lamps
    var lock: Lock
    var signalLeft: bool
    var signalRight: bool
    /** The static variables of the three scanners. */
    var scanners: Scanners
    var lightsDuration: int

    ghost predicate Valid() {
      b1 != b2 && b1 != c1 && b1 != c2 && b2 != c1 && b2 != c2 && c1 != c2
    }

    ghost function View(): Sensor
      reads this, b1, b2, c1, c2
    {
      Sensor(actualWeapon, lamps, lock, signalLeft, signalRight, Timers(b1.View(), b2.View(), c1.View(), c2.View()),
             scanners, lightsDuration)
    }

    constructor (weapon: Scanned, duration: int)
      ensures Valid() && fresh(b1) && fresh(b2) && fresh(c1) && fresh(c2)
      ensures Rested(View()) && FoilUnworn(View()) && Fit(View(), 0) && Quiet(View()) && Hits(View()) == {} && View().lightsDuration == duration
    {
      b1 := new DebounceTimer(FOIL_CONTACT_TIME);
      b2 := new DebounceTimer(FOIL_CONTACT_TIME);
      c1 := new DebounceTimer(EPEE_CONTACT_TIME);
      c2 := new DebounceTimer(EPEE_CONTACT_TIME);
      actualWeapon, lamps, lock, signalLeft, signalRight := weapon, Dark, Lock(false, 0, false, 0), false, false;
      scanners, lightsDuration := Scanners(false, false, false, 0, 0, false, false), duration;
      new;
      DoReset();
    }

    // ---- Lock and reset ----

    method ResetContacts()
      requires Valid()
      modifies b1, b2, c1, c2
      ensures View() == old(View()).(timers := ResetTimers(old(View()).weapon, old(View()).timers))
    {
      match actualWeapon {
        case Foil =>
          b1.ResetTo(FOIL_CONTACT_TIME);
          b2.ResetTo(FOIL_CONTACT_TIME);
          c1.ResetTo(FOIL_LAME_LEAK);
          c2.ResetTo(FOIL_LAME_LEAK);
        case Epee =>
          c1.ResetTo(EPEE_CONTACT_TIME);
          c2.ResetTo(EPEE_CONTACT_TIME);
          c1.SetDosSantosMarginUs(EPEE_DOS_SANTOS);
          c2.SetDosSantosMarginUs(EPEE_DOS_SANTOS);
        case Sabre =>
          c1.ResetTo(SABRE_CONTACT_TIME);
          c2.ResetTo(SABRE_CONTACT_TIME);
      }
    }

    method DoReset()
      requires Valid()
      modifies this, b1, b2, c1, c2
      ensures View() == Reset(old(View()))
    {
      lamps := Dark;
      lock := lock.(waiting := false);
      ResetContacts();
      signalLeft, signalRight := false, false;
      lock := lock.(started := false);
    }

    method SetActualWeapon(w: Scanned)
      requires Valid()
      modifies this, b1, b2, c1, c2
      ensures View() == Step(old(View()), NewWeapon(w))
    {
      actualWeapon := w;
      DoReset();
    }

    method BlockNewHits()
      modifies this
      ensures View() == Step(old(View()), BlockAllNewHits)
    {
      signalLeft, signalRight := true, true;
    }

    method AllowNewHits()
      modifies this
      ensures View() == Step(old(View()), AllowAllNewHits)
    {
      signalLeft, signalRight := false, false;
    }

    method StartLock(timeToLock: int, ms: int)
      modifies this
      ensures View() == old(View()).(lock := if old(lock).started then old(lock)
                                             else old(lock).(started := true, at := ms + timeToLock))
    {
      if !lock.started {
        lock := lock.(started := true, at := ms + timeToLock);
      }
    }

    method OKtoReset(ms: int) returns (ok: bool)
      modifies this
      ensures ok == ResetDue(old(View()), ms)
      ensures View() == if ok then old(View()) else AwaitReset(old(View()), ms)
    {
      if !lock.waiting {
        lock := lock.(waiting := true, resetAt := ms + lightsDuration - LockTime(actualWeapon));
        return false;
      }
      if ms > lock.resetAt {
        if !lamps.buzz {
          return true;
        }
        lamps := lamps.(buzz := false);
        lock := lock.(resetAt := ms + EXTRA_TIME);
      }
      return false;
    }

    method HandleLock(ms: int)
      requires Valid()
      modifies this, b1, b2, c1, c2
      ensures View() == Locking(old(View()), ms)
    {
      if lock.started && ms > lock.at {
        signalLeft, signalRight := true, true;
        var ok := OKtoReset(ms);
        if ok {
          DoReset();
        }
      }
    }

    method LightHit(side: Side, white: bool, ms: int)
      modifies this
      ensures View() == Hit(old(View()), side, white, ms)
    {
      if side == Left {
        lamps := if white then lamps.(whiteL := true) else lamps.(red := true);
        signalLeft := true;
      } else {
        lamps := if white then lamps.(whiteR := true) else lamps.(green := true);
        signalRight := true;
      }
      lamps := lamps.(buzz := true);
      StartLock(LockTime(actualWeapon), ms);
    }

    // ---- Epee ----

    method CheckEpeeLeft(r: Reading)
      requires Valid()
      modifies this, c1
      ensures View() == EpeeLeft(old(View()), r)
    {
      if r.guardL || r.pisteL {
        c1.Reset();
      } else if c1.lastOk {
        LightHit(Left, false, r.ms);
        c1.Reset();
      }
    }

    method CheckEpeeRight(r: Reading)
      requires Valid()
      modifies this, c2
      ensures View() == EpeeRight(old(View()), r)
    {
      if r.guardR || r.pisteR {
        c2.Reset();
      } else if c2.lastOk {
        LightHit(Right, false, r.ms);
        c2.Reset();
      }
    }

    method DebounceEpee(r: Reading)
      requires Valid()
      modifies this, c1, c2
      ensures View() == EpeeDebounce(old(View()), r)
    {
      if c1.lastOk {
        c2.ApplyDosSantosMarginUs(r.us);
      }
      if c2.lastOk {
        c1.ApplyDosSantosMarginUs(r.us);
      }
      assert View() == old(View()).(timers := EpeeMargins(old(View()).timers, r.us));
      CheckEpeeLeft(r);
      CheckEpeeRight(r);
    }

    method CheckEpeeIdle(r: Reading)
      requires Valid()
      modifies this, b1, b2
      ensures View() == EpeeIdleCheck(old(View()), r)
    {
      if scanners.epeeCheck == 0 {
        var _ := b1.Update(r.leak, r.us);
      } else if scanners.epeeCheck == 1 {
        var _ := b2.Update(r.leak, r.us);
      }
      scanners := scanners.(epeeCheck := if scanners.epeeCheck < 3 then scanners.epeeCheck + 1 else 0);
    }

    method TimeEpee(r: Reading)
      requires Valid()
      modifies c1, c2
      ensures View() == EpeeTimed(old(View()), r)
    {
      if !signalLeft {
        var _ := c1.Update(r.left, r.us);
      }
      if !signalRight {
        var _ := c2.Update(r.right, r.us);
      }
    }

    method DoEpee(r: Reading)
      requires Valid()
      modifies this, b1, b2, c1, c2
      ensures View() == EpeeScan(old(View()), r)
    {
      TimeEpee(r);
      if !scanners.epee {
        if r.left || r.right {
          scanners := scanners.(epee := true);
        } else {
          CheckEpeeIdle(r);
        }
      } else if !r.left && !r.right {
        scanners := scanners.(epee := false);
      } else {
        DebounceEpee(r);
      }
    }

    // ---- Foil ----

    method CheckFoilLeft(r: Reading)
      requires Valid()
      modifies this, b1
      ensures View() == FoilLeft(old(View()), r)
    {
      if scanners.validL {
        if b1.lastOk {
          LightHit(Left, false, r.ms);
        }
      } else if r.guardL || r.pisteL {
        b1.Reset();
      } else if b1.lastOk {
        LightHit(Left, true, r.ms);
      }
    }

    method CheckFoilRight(r: Reading)
      requires Valid()
      modifies this, b1
      ensures View() == FoilRight(old(View()), r)
    {
      if scanners.validR {
        if b2.lastOk {
          LightHit(Right, false, r.ms);
        }
      } else if r.guardR || r.pisteR {
        b1.Reset();
      } else if b2.lastOk {
        LightHit(Right, true, r.ms);
      }
    }

    method DebounceFoil(r: Reading)
      requires Valid()
      modifies this, b1, b2
      ensures View() == FoilDebounce(old(View()), r)
    {
      if b1.lastOk {
        b2.ApplyDosSantosMarginUs(r.us);
      }
      if b2.lastOk {
        b1.ApplyDosSantosMarginUs(r.us);
      }
      assert View() == old(View()).(timers := FoilMargins(old(View()).timers, r.us));
      CheckFoilLeft(r);
      CheckFoilRight(r);
    }

    method CheckFoilIdle(r: Reading)
      requires Valid()
      modifies this, c1, c2
      ensures View() == FoilIdleCheck(old(View()), r)
    {
      if scanners.foilCheck == 0 {
        var _ := c1.Update(r.leak, r.us);
      } else if scanners.foilCheck == 1 {
        var _ := c2.Update(r.leak, r.us);
      }
      scanners := scanners.(foilCheck := if scanners.foilCheck < 4 then scanners.foilCheck + 1 else 0);
    }

    method RunFoilState(r: Reading)
      requires Valid()
      modifies this, b1, b2, c1, c2
      ensures View() == FoilState(old(View()), r)
    {
      if !scanners.foil {
        if r.left || r.right {
          scanners := scanners.(foil := true);
        } else {
          CheckFoilIdle(r);
        }
      } else if !r.left && !r.right {
        scanners := scanners.(foil := false);
      } else {
        DebounceFoil(r);
      }
    }

    method DoFoil(r: Reading)
      requires Valid()
      modifies this, b1, b2, c1, c2
      ensures View() == FoilScan(old(View()), r)
    {
      var _ := b1.Update(r.left && !signalLeft, r.us);
      var _ := b2.Update(r.right && !signalRight, r.us);
      assert View() == FoilTimed(old(View()), r);
      RunFoilState(r);
      scanners := scanners.(validL := r.validL, validR := r.validR);
    }

    // ---- Sabre ----

    method DoSabre(r: Reading)
      requires Valid()
      modifies this, c1, c2
      ensures View() == SabreScan(old(View()), r)
    {
      var _ := c1.Update(r.left, r.us);
      var _ := c2.Update(r.right, r.us);
      assert View() == SabreTimed(old(View()), r);
      if !scanners.sabre {
        if r.left || r.right {
          scanners := scanners.(sabre := true);
        }
      } else if !r.left && !r.right {
        scanners := scanners.(sabre := false);
      } else {
        if c1.lastOk && !signalLeft {
          LightHit(Left, false, r.ms);
        }
        if c2.lastOk && !signalRight {
          LightHit(Right, false, r.ms);
        }
      }
    }

    method DoFullScan(r: Reading)
      requires Valid()
      modifies this, b1, b2, c1, c2
      ensures View() == Step(old(View()), Scan(r))
    {
      if actualWeapon != r.weapon {
        actualWeapon := r.weapon;
        DoReset();
      }
      assert View() == WithWeapon(old(View()), r.weapon);
      HandleLock(r.ms);
      match actualWeapon {
        case Foil => DoFoil(r);
        case Epee => DoEpee(r);
        case Sabre => DoSabre(r);
      }
    }
  }
}
