/**
 The countdown of the bout: minutes, seconds and hundredths in bytes, a display-resolution
 counter that decides which ticks are reported, and what the match machine sees of it.
 */
module BoutClock {

  type Byte = x: int | 0 <= x < 256

  datatype Clock = Clock(minutes: Byte, seconds: Byte, hundredths: Byte, ticks: nat, ticksPerHundredth: nat,
                         resolution: Byte, counter: Byte, running: bool, showing: bool) {
    function Value(): nat { (60 * minutes + seconds) * 100 + hundredths }
    predicate ReachedZero() { minutes + seconds + hundredths == 0 }
  }

  /** Setting minutes or seconds leaves 100 hundredths on the clock. */
  function WithMinutes(c: Clock, v: Byte): Clock { c.(minutes := v, ticks := 0, hundredths := 100) }

  function WithSeconds(c: Clock, v: Byte): Clock { c.(seconds := v, ticks := 0, hundredths := 100) }

  /** One call of DoTick: the clock after it, and whether it asks for a display update. */
  datatype Ticked = Ticked(clock: Clock, changed: bool)

  function Tick(c: Clock): Ticked {
    if !c.running then Ticked(c, false)
    else if c.ticks + 1 < c.ticksPerHundredth then Ticked(c.(ticks := c.ticks + 1), false)
    else
      var t := c.(ticks := 1);
      if c.hundredths > 0 then
        var left := (c.counter + 255) % 256;
        if !c.showing then Ticked(t.(hundredths := c.hundredths - 1), false)
        else if left == 0 then Ticked(t.(hundredths := c.hundredths - 1, counter := c.resolution), true)
        else Ticked(t.(hundredths := c.hundredths - 1, counter := left), false)
      else if c.seconds > 0 then
        var show := c.minutes == 0 && c.seconds - 1 < 10;
        Ticked(t.(seconds := c.seconds - 1, hundredths := 99, showing := show), !show)
      else if c.minutes > 0 then
        Ticked(t.(minutes := c.minutes - 1, seconds := 59, hundredths := 99), true)
      else Ticked(t.(running := false), true)
  }

  class FencingTimer {
    var minutes: Byte
    var seconds: Byte
    var hundredths: Byte
    var ticks: nat
    var ticksInOneHundredth: nat
    var displayResolution: Byte
    var resolutionCounter: Byte
    var running: bool
    var showingHundredths: bool

    ghost function View(): Clock
      reads this
    {
      Clock(minutes, seconds, hundredths, ticks, ticksInOneHundredth, displayResolution, resolutionCounter,
            running, showingHundredths)
    }

    constructor (period: nat)
      requires period > 0
      ensures View() == Clock(3, 0, 0, 0, 10 / period, 2, 2, false, false)
    {
      minutes, seconds, hundredths, ticks, ticksInOneHundredth := 3, 0, 0, 0, 10 / period;
      displayResolution, resolutionCounter, running, showingHundredths := 2, 2, false, false;
    }

    method SetMinutes(v: Byte)
      modifies this
      ensures View() == WithMinutes(old(View()), v)
    {
      minutes, ticks, hundredths := v, 0, 100;
    }

    method SetSeconds(v: Byte)
      modifies this
      ensures View() == WithSeconds(old(View()), v)
    {
      seconds, ticks, hundredths := v, 0, 100;
    }

    method SetHundredths(v: Byte)
      modifies this
      ensures View() == old(View()).(hundredths := v)
    {
      hundredths := v;
    }

    method SetDisplayResolution(v: Byte)
      modifies this
      ensures View() == old(View()).(resolution := v, counter := v)
    {
      displayResolution, resolutionCounter := v, v;
    }

    method StartTimer()
      modifies this
      ensures View() == old(View()).(running := true)
    {
      running := true;
    }

    method StopTimer()
      modifies this
      ensures View() == old(View()).(running := false)
    {
      running := false;
    }

    method DoTick() returns (changed: bool)
      modifies this
      ensures Ticked(View(), changed) == Tick(old(View()))
    {
      if !running {
        return false;
      }
      ticks := ticks + 1;
      if ticks < ticksInOneHundredth {
        return false;
      }
      ticks := 1;
      changed := false;
      if hundredths > 0 {
        hundredths := hundredths - 1;
        if showingHundredths {
          resolutionCounter := (resolutionCounter + 255) % 256;
          if resolutionCounter == 0 {
            resolutionCounter := displayResolution;
            changed := true;
          }
        }
      } else {
        changed := true;
        if seconds > 0 {
          seconds := seconds - 1;
          hundredths := 99;
          if minutes == 0 && seconds < 10 {
            showingHundredths := true;
            return false;
          }
          showingHundredths := false;
        } else if minutes > 0 {
          minutes, seconds, hundredths := minutes - 1, 59, 99;
        } else {
          running := false;
        }
      }
    }
  }

  // ---- Counting down ----

  /** The machine ticks every 10 ms, so that each tick is one hundredth. */
  predicate TenMs(c: Clock) { c.ticksPerHundredth <= 1 }

  function AfterTicks(c: Clock, n: nat): Clock {
    if n == 0 then c else Tick(AfterTicks(c, n - 1)).clock
  }

  /** The `k`-th tick reports a change and the clock then stands at zero: what makes the match
      machine end the period. */
  predicate SeesZero(c: Clock, k: nat)
    requires k > 0
  {
    var t := Tick(AfterTicks(c, k - 1));
    t.changed && t.clock.ReachedZero()
  }

  lemma TickDown(c: Clock)
    requires c.running && TenMs(c) && c.Value() > 0
    ensures var t := Tick(c).clock; t.Value() == c.Value() - 1 && t.running && TenMs(t)
  {
  }

  lemma {:induction false} CountsDown(c: Clock, n: nat)
    requires c.running && TenMs(c) && n <= c.Value()
    ensures AfterTicks(c, n).Value() == c.Value() - n && AfterTicks(c, n).running && TenMs(AfterTicks(c, n))
  {
    if n > 0 {
      CountsDown(c, n - 1);
      TickDown(AfterTicks(c, n - 1));
    }
  }

  // ---- Which tick reports zero ----

  /** The hundredths that will be counted down, until zero, while hundredths are shown: those of the last
      ten seconds, and what a flag left over from before adds. */
  function ShownLeft(c: Clock): nat {
    (if c.showing then c.hundredths + (if c.seconds == 0 && c.minutes > 0 then 99 else 0) else 0)
    + if c.minutes == 0 && c.seconds < 10 then 99 * c.seconds else 990
  }

  /** A byte counted down to zero takes 256 steps from zero. */
  function Steps(b: Byte): nat { if b == 0 then 256 else b }

  /** The display counter reports the `n`-th shown hundredth. */
  predicate Due(counter: Byte, resolution: Byte, n: nat) {
    n >= Steps(counter) && (n - Steps(counter)) % Steps(resolution) == 0
  }

  /** The tick on which the clock is seen at zero. */
  function ZeroTick(c: Clock): nat {
    if c.Value() > 0 && Due(c.counter, c.resolution, ShownLeft(c)) then c.Value() else c.Value() + 1
  }

  lemma Distribute(q: int, k: int, p: int)
    ensures (q - k) * p == q * p - k * p
  {
  }

  lemma {:induction false} AtLeast(d: nat, p: nat)
    requires d > 0
    ensures d * p >= p
  {
    if d > 1 {
      AtLeast(d - 1, p);
      Distribute(d, 1, p);
    }
  }

  lemma RemainderIsUnique(p: nat, q: int, r: nat, k: int, x: nat)
    requires r < p && x < p && q * p + r == k * p + x
    ensures r == x
  {
    Distribute(q, k, p);
    Distribute(k, q, p);
    if q > k {
      AtLeast(q - k, p);
    } else if q < k {
      AtLeast(k - q, p);
    }
  }

  lemma ModuloStep(m: nat, p: nat)
    requires m >= p > 0
    ensures m % p == (m - p) % p
  {
    var q, k := m / p, (m - p) / p;
    assert m == q * p + m % p && m - p == k * p + (m - p) % p;
    Distribute(q, 1, p);
    RemainderIsUnique(p, q - 1, m % p, k, (m - p) % p);
  }

  function Left(counter: Byte): Byte { (counter + 255) % 256 }

  /** The display counter after a shown hundredth. */
  function Counted(counter: Byte, resolution: Byte): Byte {
    if Left(counter) == 0 then resolution else Left(counter)
  }

  /** A counter that runs out starts again from the resolution. */
  lemma DueAgain(resolution: Byte, n: nat)
    requires n >= 2
    ensures Due(1, resolution, n) <==> Due(resolution, resolution, n - 1)
  {
    if n - 1 >= Steps(resolution) {
      ModuloStep(n - 1, Steps(resolution));
    }
  }

  lemma DueNext(counter: Byte, resolution: Byte, n: nat)
    requires n >= 2
    ensures Due(counter, resolution, n) <==> Due(Counted(counter, resolution), resolution, n - 1)
  {
    if counter == 1 {
      DueAgain(resolution, n);
    } else {
      assert Steps(Left(counter)) == Steps(counter) - 1;
      assert n - Steps(counter) == n - 1 - Steps(Left(counter));
    }
  }

  /** A tick either shows a hundredth, or leaves the counter and what is still to be shown. */
  lemma ShownNext(c: Clock)
    requires c.running && TenMs(c) && c.Value() > 1
    ensures var t := Tick(c).clock;
            if c.showing && c.hundredths > 0
            then ShownLeft(c) >= 2 && ShownLeft(t) == ShownLeft(c) - 1 && t.counter == Counted(c.counter, c.resolution)
            else ShownLeft(t) == ShownLeft(c) && t.counter == c.counter
    ensures Tick(c).clock.resolution == c.resolution
  {
  }

  lemma DueLater(c: Clock)
    requires c.running && TenMs(c) && c.Value() > 1
    ensures var t := Tick(c).clock;
            Due(c.counter, c.resolution, ShownLeft(c)) <==> Due(t.counter, t.resolution, ShownLeft(t))
  {
    ShownNext(c);
    if c.showing && c.hundredths > 0 {
      DueNext(c.counter, c.resolution, ShownLeft(c));
    }
  }

  lemma {:induction false} AfterFirst(c: Clock, n: nat)
    ensures AfterTicks(c, n + 1) == AfterTicks(Tick(c).clock, n)
  {
    if n > 0 {
      AfterFirst(c, n - 1);
    }
  }

  lemma SeenLater(c: Clock, k: nat)
    requires k > 1
    ensures SeesZero(c, k) <==> SeesZero(Tick(c).clock, k - 1)
  {
    AfterFirst(c, k - 2);
  }

  lemma DueFirst(counter: Byte, resolution: Byte)
    ensures !Due(counter, resolution, 0) && (Due(counter, resolution, 1) <==> counter == 1)
  {
    var p := Steps(resolution);
    assert 0 == 0 * p + 0;
    RemainderIsUnique(p, 0, 0, 0 / p, 0 % p);
  }

  lemma LastTickShown(c: Clock)
    requires c.running && TenMs(c) && c.Value() == 1
    ensures Tick(c).changed <==> Due(c.counter, c.resolution, ShownLeft(c))
    ensures Tick(c).clock.ReachedZero()
  {
    assert ShownLeft(c) == if c.showing then 1 else 0;
    DueFirst(c.counter, c.resolution);
  }

  lemma {:induction false} ReportedWhenDue(c: Clock)
    requires c.running && TenMs(c) && c.Value() > 0
    ensures SeesZero(c, c.Value()) <==> Due(c.counter, c.resolution, ShownLeft(c))
    decreases c.Value()
  {
    if c.Value() == 1 {
      assert AfterTicks(c, 0) == c;
      LastTickShown(c);
    } else {
      var t := Tick(c).clock;
      TickDown(c);
      ReportedWhenDue(t);
      SeenLater(c, c.Value());
      DueLater(c);
    }
  }

  lemma NotYetZero(c: Clock, j: nat)
    requires c.running && TenMs(c) && 0 < j < c.Value()
    ensures !SeesZero(c, j)
  {
    CountsDown(c, j);
    assert AfterTicks(c, j) == Tick(AfterTicks(c, j - 1)).clock;
  }

  lemma TickAtZero(c: Clock)
    requires c.running && TenMs(c) && c.Value() == 0
    ensures Tick(c).changed && Tick(c).clock.ReachedZero() && !Tick(c).clock.running
  {
  }

  /** A running clock at value V shows zero to the match machine for the first time on tick V if the
      display counter is due on it, and otherwise on tick V + 1, on which the clock stops itself. */
  lemma ZeroSeenOnce(c: Clock)
    requires c.running && TenMs(c)
    ensures forall j: nat | 0 < j <= ZeroTick(c) :: SeesZero(c, j) <==> j == ZeroTick(c)
    ensures ZeroTick(c) == c.Value() + 1 ==> !AfterTicks(c, ZeroTick(c)).running
  {
    var v := c.Value();
    forall j: nat | 0 < j < v
      ensures !SeesZero(c, j)
    {
      NotYetZero(c, j);
    }
    if v > 0 {
      ReportedWhenDue(c);
    }
    if ZeroTick(c) == v + 1 {
      CountsDown(c, v);
      TickAtZero(AfterTicks(c, v));
    }
  }

  /** With the resolution the clock is built with, and more than ten seconds to go, that is tick V. */
  lemma FullTimeEndsOnTick(c: Clock)
    requires c.running && TenMs(c) && c.resolution == 2 && c.counter == 2 && !c.showing
    requires c.minutes > 0 || c.seconds >= 10
    ensures ZeroTick(c) == c.Value()
  {
    assert ShownLeft(c) == 990;
  }
}
