/**
 The long-hit detector: four contact channels, a latch per channel so that one press fires
 once, and a three-phase arbitration that merges two fires into one "double" event.
 */
module LongHit {
  import opened Debounce
  import opened Wrappers

  datatype Channel = ValidLeft | ValidRight | InvalidLeft | InvalidRight

  /** One bit per channel. */
  datatype Flags = Flags(vl: bool, vr: bool, il: bool, ir: bool) {
    predicate Has(c: Channel) {
      match c
      case ValidLeft => vl
      case ValidRight => vr
      case InvalidLeft => il
      case InvalidRight => ir
    }

    predicate Any() { vl || vr || il || ir }

    function Count(): nat {
      (if vl then 1 else 0) + (if vr then 1 else 0) + (if il then 1 else 0) + (if ir then 1 else 0)
    }

    function Or(f: Flags): Flags { Flags(vl || f.vl, vr || f.vr, il || f.il, ir || f.ir) }

    function Minus(f: Flags): Flags { Flags(vl && !f.vl, vr && !f.vr, il && !f.il, ir && !f.ir) }
  }

  const NoFlags := Flags(false, false, false, false)

  /** One call of `update`; every timer takes its own reading of the clock. */
  datatype Sample = Sample(vl: Contact, vr: Contact, il: Contact, ir: Contact) {
    function Of(c: Channel): Contact {
      match c
      case ValidLeft => vl
      case ValidRight => vr
      case InvalidLeft => il
      case InvalidRight => ir
    }

    function Raw(): Flags { Flags(vl.pressed, vr.pressed, il.pressed, ir.pressed) }
  }

  datatype Event = Event(bits: Flags, isDouble: bool)

  datatype Latched = Latched(timer: Timer, latch: bool)

  datatype Phase = Idle | OneFired | SingleEmitted

  datatype Detector = Detector(vl: Latched, vr: Latched, il: Latched, ir: Latched, phase: Phase, first: Flags) {
    function Of(c: Channel): Latched {
      match c
      case ValidLeft => vl
      case ValidRight => vr
      case InvalidLeft => il
      case InvalidRight => ir
    }
  }

  // ---- One sample ----

  function ChannelStep(l: Latched, c: Contact): Latched {
    var held := c.pressed && l.latch;
    var t := Updated(l.timer, c.pressed && !held, c.at);
    Latched(t, held || t.ok)
  }

  /** The channel fires when its timer reports a completed hold. */
  function Fired(d: Detector, s: Sample): Flags {
    Flags(ChannelStep(d.vl, s.vl).timer.ok, ChannelStep(d.vr, s.vr).timer.ok,
          ChannelStep(d.il, s.il).timer.ok, ChannelStep(d.ir, s.ir).timer.ok)
  }

  datatype Arbitration = Arbitration(phase: Phase, first: Flags, event: Option<Event>)

  function Arbitrate(phase: Phase, first: Flags, fired: Flags, raw: Flags): Arbitration {
    match phase
    case Idle =>
      if !fired.Any() then Arbitration(Idle, first, None)
      else if fired.Count() >= 2 then Arbitration(Idle, first, Some(Event(fired, true)))
      else if !raw.Minus(fired).Any() then Arbitration(SingleEmitted, fired, Some(Event(fired, false)))
      else Arbitration(OneFired, fired, None)
    case OneFired =>
      if fired.Any() then Arbitration(Idle, first, Some(Event(first.Or(fired), true)))
      else if !raw.Minus(first).Any() then Arbitration(SingleEmitted, first, Some(Event(first, false)))
      else Arbitration(OneFired, first, None)
    case SingleEmitted =>
      if fired.Any() then Arbitration(Idle, first, Some(Event(first.Or(fired), true)))
      else if !raw.Any() then Arbitration(Idle, first, None)
      else Arbitration(SingleEmitted, first, None)
  }

  function Step(d: Detector, s: Sample): Detector {
    var a := Arbitrate(d.phase, d.first, Fired(d, s), s.Raw());
    Detector(ChannelStep(d.vl, s.vl), ChannelStep(d.vr, s.vr), ChannelStep(d.il, s.il), ChannelStep(d.ir, s.ir),
             a.phase, a.first)
  }

  function Emitted(d: Detector, s: Sample): Option<Event> {
    Arbitrate(d.phase, d.first, Fired(d, s), s.Raw()).event
  }

  function WithDuration(d: Detector, us: int): Detector {
    d.(vl := d.vl.(timer := d.vl.timer.(required := us)), vr := d.vr.(timer := d.vr.timer.(required := us)),
       il := d.il.(timer := d.il.timer.(required := us)), ir := d.ir.(timer := d.ir.timer.(required := us)))
  }

  /** Feeds one channel; a latched contact is hidden from its timer until it is broken. */
  method FeedChannel(timer: DebounceTimer, latch: bool, c: Contact) returns (fired: bool, latched: bool)
    modifies timer
    ensures Latched(timer.View(), latched) == ChannelStep(Latched(old(timer.View()), latch), c)
    ensures fired == timer.lastOk
  {
    latched := latch && c.pressed;
    fired := timer.Update(c.pressed && !latched, c.at);
    if fired {
      latched := true;
    }
  }

  class LongHitDetector {
    const timerVL: DebounceTimer
    const timerVR: DebounceTimer
    const timerIL: DebounceTimer
    const timerIR: DebounceTimer
    var latchVL: bool
    var latchVR: bool
    var latchIL: bool
    var latchIR: bool
    var phase: Phase
    var first: Flags
    var last: Event

    ghost predicate Valid() {
      timerVL != timerVR && timerVL != timerIL && timerVL != timerIR &&
      timerVR != timerIL && timerVR != timerIR && timerIL != timerIR
    }

    ghost function View(): Detector
      reads this, timerVL, timerVR, timerIL, timerIR
    {
      Detector(Latched(timerVL.View(), latchVL), Latched(timerVR.View(), latchVR),
               Latched(timerIL.View(), latchIL), Latched(timerIR.View(), latchIR), phase, first)
    }

    constructor ()
      ensures Valid() && fresh(timerVL) && fresh(timerVR) && fresh(timerIL) && fresh(timerIR)
      ensures Quiet(View(), 3000000)
    {
      timerVL := new DebounceTimer(3000000);
      timerVR := new DebounceTimer(3000000);
      timerIL := new DebounceTimer(3000000);
      timerIR := new DebounceTimer(3000000);
      latchVL, latchVR, latchIL, latchIR := false, false, false, false;
      phase, first, last := Idle, NoFlags, Event(NoFlags, false);
    }

    method SetDurationUs(us: int)
      requires Valid()
      modifies timerVL, timerVR, timerIL, timerIR
      ensures View() == WithDuration(old(View()), us)
    {
      timerVL.SetRequiredUs(us);
      timerVR.SetRequiredUs(us);
      timerIL.SetRequiredUs(us);
      timerIR.SetRequiredUs(us);
    }

    method Reset()
      requires Valid()
      modifies this, timerVL, timerVR, timerIL, timerIR
      ensures forall c: Channel :: View().Of(c) == Latched(Cleared(old(View()).Of(c).timer), false)
      ensures View().phase == Idle && last == old(last)
    {
      timerVL.Reset();
      timerVR.Reset();
      timerIL.Reset();
      timerIR.Reset();
      latchVL, latchVR, latchIL, latchIR := false, false, false, false;
      phase := Idle;
    }

    method Update(s: Sample) returns (event: Option<Event>)
      requires Valid()
      modifies this, timerVL, timerVR, timerIL, timerIR
      ensures View() == Step(old(View()), s) && event == Emitted(old(View()), s)
      ensures last == if event.Some? then event.value else old(last)
    {
      var fired := FeedChannels(s);
      event := None;
      if fired.Any() || phase != Idle {
        event := HandleFired(fired, s.Raw());
      }
    }

    method FeedChannels(s: Sample) returns (fired: Flags)
      requires Valid()
      modifies timerVL, timerVR, timerIL, timerIR, `latchVL, `latchVR, `latchIL, `latchIR
      ensures View().vl == ChannelStep(old(View().vl), s.vl) && View().vr == ChannelStep(old(View().vr), s.vr)
      ensures View().il == ChannelStep(old(View().il), s.il) && View().ir == ChannelStep(old(View().ir), s.ir)
      ensures fired == Fired(old(View()), s)
    {
      var vl, vr, il, ir: bool;
      vl, latchVL := FeedChannel(timerVL, latchVL, s.vl);
      vr, latchVR := FeedChannel(timerVR, latchVR, s.vr);
      il, latchIL := FeedChannel(timerIL, latchIL, s.il);
      ir, latchIR := FeedChannel(timerIR, latchIR, s.ir);
      fired := Flags(vl, vr, il, ir);
    }

    method HandleFired(fired: Flags, raw: Flags) returns (event: Option<Event>)
      modifies this`phase, this`first, this`last
      ensures Arbitration(phase, first, event) == Arbitrate(old(phase), old(first), fired, raw)
      ensures last == if event.Some? then event.value else old(last)
    {
      event := None;
      match phase {
        case Idle =>
          if !fired.Any() {
            return;
          }
          if fired.Count() >= 2 {
            event := EmitHit(fired, true);
          } else if !raw.Minus(fired).Any() {
            event := EmitHit(fired, false);
            first := fired;
            phase := SingleEmitted;
          } else {
            first := fired;
            phase := OneFired;
          }
        case OneFired =>
          if fired.Any() {
            event := EmitHit(first.Or(fired), true);
            phase := Idle;
          } else if !raw.Minus(first).Any() {
            event := EmitHit(first, false);
            phase := SingleEmitted;
          }
        case SingleEmitted =>
          if fired.Any() {
            event := EmitHit(first.Or(fired), true);
            phase := Idle;
          } else if !raw.Any() {
            phase := Idle;
          }
      }
    }

    method EmitHit(bits: Flags, isDouble: bool) returns (event: Option<Event>)
      modifies this`last
      ensures event == Some(Event(bits, isDouble)) && last == Event(bits, isDouble)
    {
      last := Event(bits, isDouble);
      event := Some(last);
    }
  }

  // ---- Whole traces ----

  /** No press is running and nothing is pending: the state after construction and after Reset. */
  ghost predicate Quiet(d: Detector, duration: int) {
    d.phase == Idle &&
    forall c: Channel :: d.Of(c).timer.start == 0 && !d.Of(c).latch && d.Of(c).timer.required == duration
  }

  function StateAt(d: Detector, trace: seq<Sample>, n: nat): Detector
    requires n <= |trace|
  {
    if n == 0 then d else Step(StateAt(d, trace, n - 1), trace[n - 1])
  }

  function EventAt(d: Detector, trace: seq<Sample>, k: nat): Option<Event>
    requires k < |trace|
  {
    Emitted(StateAt(d, trace, k), trace[k])
  }

  function FiredAt(d: Detector, trace: seq<Sample>, k: nat): Flags
    requires k < |trace|
  {
    Fired(StateAt(d, trace, k), trace[k])
  }

  function Contacts(trace: seq<Sample>, c: Channel): seq<Contact> {
    seq(|trace|, i requires 0 <= i < |trace| => trace[i].Of(c))
  }

  /** What a channel remembers after sample `k`. */
  ghost predicate ChannelInv(l: Latched, ch: seq<Contact>, k: nat, duration: int)
    requires k < |ch|
  {
    && l.timer.required == duration
    && (!ch[k].pressed ==> l.timer.start == 0 && !l.latch)
    && (ch[k].pressed ==>
          var s := PressStart(ch, k);
          && (l.latch <==> exists j: nat | s <= j <= k :: HeldFor(ch, j, duration))
          && (!l.latch ==> l.timer.start == ch[s].at))
  }

  lemma ChannelStepKeepsInv(l: Latched, ch: seq<Contact>, k: nat, duration: int)
    requires k < |ch|
    requires if k == 0 then l.timer.start == 0 && !l.latch && l.timer.required == duration
             else ChannelInv(l, ch, k - 1, duration)
    ensures ChannelInv(ChannelStep(l, ch[k]), ch, k, duration)
    ensures ChannelStep(l, ch[k]).timer.ok <==> CompletesAt(ch, k, duration)
  {
    if ch[k].pressed {
      var s := PressStart(ch, k);
      if s < k {
        SamePress(ch, k - 1, k);
        assert PressStart(ch, k - 1) == s;
      } else {
        assert !l.latch && l.timer.start == 0;
      }
      assert HeldFor(ch, k, duration) <==> ch[k].at - ch[s].at >= duration;
    }
  }

  /** A channel fires at sample `k` exactly when `k` is the first sample of its press whose age
      reaches the duration: once per unbroken press, never early and never late. */
  lemma {:induction false} FiresOncePerPress(d: Detector, trace: seq<Sample>, k: nat, c: Channel, duration: int)
    requires k < |trace| && Quiet(d, duration)
    ensures FiredAt(d, trace, k).Has(c) <==> CompletesAt(Contacts(trace, c), k, duration)
    ensures ChannelInv(StateAt(d, trace, k + 1).Of(c), Contacts(trace, c), k, duration)
  {
    if k > 0 {
      FiresOncePerPress(d, trace, k - 1, c, duration);
    }
    ChannelStepKeepsInv(StateAt(d, trace, k).Of(c), Contacts(trace, c), k, duration);
    StepOf(StateAt(d, trace, k), trace[k], c);
  }

  lemma StepOf(d: Detector, s: Sample, c: Channel)
    ensures Step(d, s).Of(c) == ChannelStep(d.Of(c), s.Of(c))
    ensures Fired(d, s).Has(c) == Step(d, s).Of(c).timer.ok
  {
  }

  /** What becomes or stays pending in one sample. */
  lemma PendingStep(d: Detector, s: Sample, c: Channel)
    requires Step(d, s).phase != Idle
    ensures Step(d, s).first.Has(c) <==> if d.phase == Idle then Fired(d, s).Has(c) else d.first.Has(c)
  {
  }

  lemma PendingAt(d: Detector, trace: seq<Sample>, n: nat, c: Channel)
    requires n < |trace| && StateAt(d, trace, n + 1).phase != Idle
    ensures StateAt(d, trace, n + 1).first.Has(c) <==>
            if StateAt(d, trace, n).phase == Idle then FiredAt(d, trace, n).Has(c) else StateAt(d, trace, n).first.Has(c)
  {
    PendingStep(StateAt(d, trace, n), trace[n], c);
  }

  /** Between these samples the detector was never in Idle. */
  ghost predicate Busy(d: Detector, trace: seq<Sample>, j: nat, n: nat)
    requires n <= |trace|
  {
    forall m: nat | j < m <= n :: StateAt(d, trace, m).phase != Idle
  }

  lemma BusyOn(d: Detector, trace: seq<Sample>, j: nat, n: nat)
    requires n < |trace| && Busy(d, trace, j, n) && StateAt(d, trace, n + 1).phase != Idle
    ensures Busy(d, trace, j, n + 1)
  {
  }

  lemma FireIsFresh(d: Detector, trace: seq<Sample>, n: nat, c: Channel)
    requires n < |trace| && StateAt(d, trace, n).phase == Idle
    requires StateAt(d, trace, n + 1).phase != Idle && StateAt(d, trace, n + 1).first.Has(c)
    ensures FiredAt(d, trace, n).Has(c) && Busy(d, trace, n, n + 1)
  {
    PendingAt(d, trace, n, c);
  }

  lemma FireIsOlder(d: Detector, trace: seq<Sample>, n: nat, c: Channel)
    requires n < |trace| && StateAt(d, trace, n).phase != Idle
    requires StateAt(d, trace, n + 1).phase != Idle && StateAt(d, trace, n + 1).first.Has(c)
    ensures StateAt(d, trace, n).first.Has(c)
  {
    PendingAt(d, trace, n, c);
  }

  /** While something is pending, every channel in `first` fired since the detector left Idle. */
  lemma {:induction false} PendingFired(d: Detector, trace: seq<Sample>, n: nat, c: Channel) returns (j: nat)
    requires n <= |trace| && d.phase == Idle
    requires StateAt(d, trace, n).phase != Idle && StateAt(d, trace, n).first.Has(c)
    ensures j < n && FiredAt(d, trace, j).Has(c) && Busy(d, trace, j, n)
  {
    assert n > 0;
    var before := StateAt(d, trace, n - 1).phase;
    if before == Idle {
      j := n - 1;
      FireIsFresh(d, trace, j, c);
    } else {
      FireIsOlder(d, trace, n - 1, c);
      j := PendingFired(d, trace, n - 1, c);
      BusyOn(d, trace, j, n - 1);
    }
  }

  /** The channel fired in sample `k`, or earlier with the detector never back in Idle since. */
  ghost predicate FiredSinceIdle(d: Detector, trace: seq<Sample>, k: nat, c: Channel)
    requires k < |trace|
  {
    exists j: nat :: j <= k && FiredAt(d, trace, j).Has(c) && Busy(d, trace, j, k)
  }

  /** A fire that leaves something pending came alone, out of Idle. */
  lemma FireBecomesPending(d: Detector, s: Sample, c: Channel)
    requires Fired(d, s).Has(c) && Step(d, s).phase != Idle
    ensures d.phase == Idle && Fired(d, s).Count() == 1
  {
  }

  lemma FirePends(d: Detector, trace: seq<Sample>, j: nat, c: Channel)
    requires j < |trace| && FiredAt(d, trace, j).Has(c) && StateAt(d, trace, j + 1).phase != Idle
    ensures StateAt(d, trace, j).phase == Idle && StateAt(d, trace, j + 1).first.Has(c)
    ensures FiredAt(d, trace, j).Count() == 1
  {
    FireBecomesPending(StateAt(d, trace, j), trace[j], c);
    PendingAt(d, trace, j, c);
  }

  lemma {:induction false} PendingStays(d: Detector, trace: seq<Sample>, j: nat, n: nat, c: Channel)
    requires j <= n <= |trace| && StateAt(d, trace, j).first.Has(c)
    requires forall m: nat | j <= m <= n :: StateAt(d, trace, m).phase != Idle
    ensures StateAt(d, trace, n).first.Has(c)
    decreases n - j
  {
    if j < n {
      PendingAt(d, trace, j, c);
      PendingStays(d, trace, j + 1, n, c);
    }
  }

  lemma FireStaysPending(d: Detector, trace: seq<Sample>, j: nat, n: nat, c: Channel)
    requires j < n <= |trace| && FiredAt(d, trace, j).Has(c) && Busy(d, trace, j, n)
    ensures StateAt(d, trace, n).first.Has(c)
  {
    FirePends(d, trace, j, c);
    PendingStays(d, trace, j + 1, n, c);
  }

  lemma EventCarries(d: Detector, s: Sample, c: Channel)
    requires Emitted(d, s).Some?
    ensures Emitted(d, s).value.bits.Has(c) <==> Fired(d, s).Has(c) || (d.phase != Idle && d.first.Has(c))
  {
  }

  lemma ReportedHasFired(d: Detector, trace: seq<Sample>, k: nat, c: Channel)
    requires k < |trace| && d.phase == Idle
    requires EventAt(d, trace, k).Some? && EventAt(d, trace, k).value.bits.Has(c)
    ensures FiredSinceIdle(d, trace, k, c)
  {
    EventCarries(StateAt(d, trace, k), trace[k], c);
    if !FiredAt(d, trace, k).Has(c) {
      var j := PendingFired(d, trace, k, c);
      assert FiredAt(d, trace, j).Has(c) && Busy(d, trace, j, k);
    }
  }

  lemma FiredIsReported(d: Detector, trace: seq<Sample>, j: nat, k: nat, c: Channel)
    requires j <= k < |trace| && EventAt(d, trace, k).Some? && FiredAt(d, trace, j).Has(c) && Busy(d, trace, j, k)
    ensures EventAt(d, trace, k).value.bits.Has(c)
  {
    if j < k {
      FireStaysPending(d, trace, j, k, c);
    }
    EventCarries(StateAt(d, trace, k), trace[k], c);
  }

  /** An event carries the bit of a channel if and only if the channel fired in this very sample, or
      earlier without the detector having been back in Idle in between. */
  lemma ReportedBitsFired(d: Detector, trace: seq<Sample>, k: nat, c: Channel)
    requires k < |trace| && d.phase == Idle && EventAt(d, trace, k).Some?
    ensures EventAt(d, trace, k).value.bits.Has(c) <==> FiredSinceIdle(d, trace, k, c)
  {
    if EventAt(d, trace, k).value.bits.Has(c) {
      ReportedHasFired(d, trace, k, c);
    } else if FiredSinceIdle(d, trace, k, c) {
      var j: nat :| j <= k && FiredAt(d, trace, j).Has(c) && Busy(d, trace, j, k);
      FiredIsReported(d, trace, j, k, c);
    }
  }

  /** The fire of sample `j` was put in an event by sample `n`. */
  ghost predicate Reported(d: Detector, trace: seq<Sample>, j: nat, n: nat, c: Channel)
    requires n <= |trace|
  {
    exists k: nat :: j <= k < n && EventAt(d, trace, k).Some? && EventAt(d, trace, k).value.bits.Has(c)
  }

  /** The fire of sample `j` is still waiting for the other side, which has been pressing all along. */
  ghost predicate Awaiting(d: Detector, trace: seq<Sample>, j: nat, n: nat, c: Channel)
    requires n <= |trace|
  {
    && StateAt(d, trace, n).phase == OneFired && StateAt(d, trace, n).first.Has(c)
    && forall m: nat | j <= m < n :: trace[m].Raw().Minus(StateAt(d, trace, n).first).Any()
  }

  /** One sample either reports what is pending or keeps it pending for a reason. */
  lemma ArbitrateKeepsPending(phase: Phase, first: Flags, fired: Flags, raw: Flags, c: Channel)
    requires fired.Has(c) || (phase == OneFired && first.Has(c))
    ensures var a := Arbitrate(phase, first, fired, raw);
            if a.event.Some? then a.event.value.bits.Has(c)
            else a.phase == OneFired && a.first.Has(c) && raw.Minus(a.first).Any() && (phase == OneFired ==> a.first == first)
  {
  }

  /** No fire is lost: it is in an event at once, or as soon as the other side fires or lets go. */
  lemma {:induction false} FiresAreReported(d: Detector, trace: seq<Sample>, j: nat, n: nat, c: Channel)
    requires j < n <= |trace| && FiredAt(d, trace, j).Has(c)
    ensures Reported(d, trace, j, n, c) || Awaiting(d, trace, j, n, c)
  {
    var before := StateAt(d, trace, n - 1);
    if j + 1 < n {
      FiresAreReported(d, trace, j, n - 1, c);
      if Reported(d, trace, j, n - 1, c) {
        return;
      }
    }
    ArbitrateKeepsPending(before.phase, before.first, Fired(before, trace[n - 1]), trace[n - 1].Raw(), c);
    assert StateAt(d, trace, n) == Step(before, trace[n - 1]);
    assert EventAt(d, trace, n - 1) == Emitted(before, trace[n - 1]);
  }

  /** The channel completed a full unbroken hold in sample `k`, or earlier with the detector never back
      in Idle since. */
  ghost predicate HeldSinceIdle(d: Detector, trace: seq<Sample>, k: nat, c: Channel, duration: int)
    requires k < |trace|
  {
    exists j: nat :: j <= k && CompletesAt(Contacts(trace, c), j, duration) && Busy(d, trace, j, k)
  }

  lemma FiredIsHeld(d: Detector, trace: seq<Sample>, k: nat, c: Channel, duration: int)
    requires k < |trace| && Quiet(d, duration)
    ensures FiredSinceIdle(d, trace, k, c) <==> HeldSinceIdle(d, trace, k, c, duration)
  {
    forall j: nat | j <= k
      ensures FiredAt(d, trace, j).Has(c) <==> CompletesAt(Contacts(trace, c), j, duration)
    {
      FiresOncePerPress(d, trace, j, c, duration);
    }
  }

  /** The last fire of two sides since Idle is in this very sample. */
  lemma SecondFireIsNow(d: Detector, trace: seq<Sample>, k: nat, j: nat, i: nat, a: Channel, b: Channel)
    requires i <= j <= k < |trace| && a != b && FiredAt(d, trace, i).Has(a) && FiredAt(d, trace, j).Has(b)
    requires Busy(d, trace, i, k)
    ensures j == k
  {
    if j < k {
      assert StateAt(d, trace, j + 1).phase != Idle;
      FirePends(d, trace, j, b);
    }
  }

  lemma FireMakesDouble(d: Detector, s: Sample, a: Channel, b: Channel)
    requires a != b && Fired(d, s).Has(b) && (Fired(d, s).Has(a) || (d.phase != Idle && d.first.Has(a)))
    ensures Emitted(d, s).Some? && Emitted(d, s).value.isDouble
    ensures Emitted(d, s).value.bits.Has(a) && Emitted(d, s).value.bits.Has(b)
  {
  }

  lemma TwoFiresMakeDouble(d: Detector, trace: seq<Sample>, k: nat, i: nat, j: nat, a: Channel, b: Channel)
    requires i <= j <= k < |trace| && a != b && FiredAt(d, trace, i).Has(a) && FiredAt(d, trace, j).Has(b)
    requires Busy(d, trace, i, k)
    ensures EventAt(d, trace, k).Some?
    ensures var e := EventAt(d, trace, k).value; e.isDouble && e.bits.Has(a) && e.bits.Has(b)
  {
    SecondFireIsNow(d, trace, k, j, i, a, b);
    if i < k {
      FireStaysPending(d, trace, i, k, a);
    }
    FireMakesDouble(StateAt(d, trace, k), trace[k], a, b);
  }

  /** The event that the automatic referee acts on: marked double, with both valid bits. */
  predicate BothSides(e: Option<Event>) { e.Some? && e.value.isDouble && e.value.bits.vl && e.value.bits.vr }

  lemma BothFired(d: Detector, trace: seq<Sample>, k: nat)
    requires k < |trace| && FiredSinceIdle(d, trace, k, ValidLeft) && FiredSinceIdle(d, trace, k, ValidRight)
    ensures BothSides(EventAt(d, trace, k))
  {
    var l: nat :| l <= k && FiredAt(d, trace, l).Has(ValidLeft) && Busy(d, trace, l, k);
    var r: nat :| r <= k && FiredAt(d, trace, r).Has(ValidRight) && Busy(d, trace, r, k);
    if l <= r {
      TwoFiresMakeDouble(d, trace, k, l, r, ValidLeft, ValidRight);
    } else {
      TwoFiresMakeDouble(d, trace, k, r, l, ValidRight, ValidLeft);
    }
  }

  /** A sample ends in an event that carries both valid bits if and only if each side completed a full
      unbroken hold, in this sample or since the detector last left Idle; such an event is marked double. */
  lemma BothSidesHeld(d: Detector, trace: seq<Sample>, k: nat, duration: int)
    requires k < |trace| && Quiet(d, duration)
    ensures EventAt(d, trace, k).Some? && EventAt(d, trace, k).value.bits.vl && EventAt(d, trace, k).value.bits.vr
            <==> HeldSinceIdle(d, trace, k, ValidLeft, duration) && HeldSinceIdle(d, trace, k, ValidRight, duration)
    ensures EventAt(d, trace, k).Some? && EventAt(d, trace, k).value.bits.vl && EventAt(d, trace, k).value.bits.vr
            <==> BothSides(EventAt(d, trace, k))
  {
    FiredIsHeld(d, trace, k, ValidLeft, duration);
    FiredIsHeld(d, trace, k, ValidRight, duration);
    if FiredSinceIdle(d, trace, k, ValidLeft) && FiredSinceIdle(d, trace, k, ValidRight) {
      BothFired(d, trace, k);
    }
    if EventAt(d, trace, k).Some? {
      ReportedBitsFired(d, trace, k, ValidLeft);
      ReportedBitsFired(d, trace, k, ValidRight);
    }
  }

  lemma LeavesIdle(d: Detector, s: Sample)
    requires d.phase == Idle && Step(d, s).phase != Idle
    ensures Fired(d, s).Any()
  {
  }

  lemma FireLeftIdle(d: Detector, trace: seq<Sample>, n: nat)
    requires n < |trace| && StateAt(d, trace, n).phase == Idle && StateAt(d, trace, n + 1).phase != Idle
    ensures FiredAt(d, trace, n).Any() && Busy(d, trace, n, n + 1)
  {
    LeavesIdle(StateAt(d, trace, n), trace[n]);
  }

  lemma {:induction false} LeftIdle(d: Detector, trace: seq<Sample>, n: nat) returns (j: nat)
    requires n <= |trace| && d.phase == Idle && StateAt(d, trace, n).phase != Idle
    ensures j < n && FiredAt(d, trace, j).Any() && Busy(d, trace, j, n)
  {
    assert n > 0;
    var before := StateAt(d, trace, n - 1).phase;
    if before == Idle {
      j := n - 1;
      FireLeftIdle(d, trace, j);
    } else {
      j := LeftIdle(d, trace, n - 1);
      BusyOn(d, trace, j, n - 1);
    }
  }

  /** Some channel fired before sample `k`, with the detector never back in Idle since. */
  ghost predicate FiredBefore(d: Detector, trace: seq<Sample>, k: nat)
    requires k < |trace|
  {
    exists j: nat :: j < k && FiredAt(d, trace, j).Any() && Busy(d, trace, j, k)
  }

  lemma DoubleMarked(d: Detector, s: Sample)
    requires Emitted(d, s).Some?
    ensures Emitted(d, s).value.isDouble <==> Fired(d, s).Count() >= 2 || (Fired(d, s).Any() && d.phase != Idle)
  {
  }

  /** The "double" mark says that two fires came together: two channels in this sample, or one after an
      earlier fire of any channel, the same one included. */
  lemma DoubleIsTwoFires(d: Detector, trace: seq<Sample>, k: nat)
    requires k < |trace| && d.phase == Idle && EventAt(d, trace, k).Some?
    ensures EventAt(d, trace, k).value.isDouble <==>
            FiredAt(d, trace, k).Count() >= 2 || (FiredAt(d, trace, k).Any() && FiredBefore(d, trace, k))
  {
    DoubleMarked(StateAt(d, trace, k), trace[k]);
    if StateAt(d, trace, k).phase != Idle {
      var j := LeftIdle(d, trace, k);
      assert FiredAt(d, trace, j).Any();
    }
  }

  /** A contact that is touched in a single sample never counts as held. */
  lemma TouchIsNotHeld(ch: seq<Contact>, touch: nat, d: int)
    requires d > 0 && forall i: nat | i < |ch| && i != touch :: !ch[i].pressed
    ensures forall k: nat :: !CompletesAt(ch, k, d)
  {
    forall k: nat
      ensures !HeldFor(ch, k, d)
    {
      if k < |ch| && ch[k].pressed {
        assert ch[PressStart(ch, k)].pressed;
      }
    }
  }

  /** So the mark proves nothing about the other side: one side firing twice around a short touch of the
      other is enough. */
  lemma DoubleFromOneSide(d: Detector) returns (trace: seq<Sample>)
    requires Quiet(d, 3)
    ensures |trace| == 5 && EventAt(d, trace, 4) == Some(Event(Flags(true, false, false, false), true))
    ensures forall k: nat | k < |trace| :: !CompletesAt(Contacts(trace, ValidRight), k, 3)
  {
    var off := (t: Micros) => Contact(t, false);
    var on := (t: Micros) => Contact(t, true);
    trace := [Sample(on(1), off(1), off(1), off(1)), Sample(on(4), off(4), off(4), off(4)),
              Sample(off(5), on(5), off(5), off(5)), Sample(on(6), off(6), off(6), off(6)),
              Sample(on(9), off(9), off(9), off(9))];
    TouchIsNotHeld(Contacts(trace, ValidRight), 2, 3);
    DoubleAfterTouch(d, trace[0], trace[1], trace[2], trace[3], trace[4]);
    assert trace == [trace[0], trace[1], trace[2], trace[3], trace[4]];
  }

  lemma DoubleAfterTouch(d: Detector, a: Sample, b: Sample, c: Sample, e: Sample, f: Sample)
    requires Quiet(d, 3)
    requires a.Raw() == b.Raw() == e.Raw() == f.Raw() == Flags(true, false, false, false)
    requires c.Raw() == Flags(false, true, false, false)
    requires a.vl.at == 1 && b.vl.at == 4 && e.vl.at == 6 && f.vl.at == 9
    ensures EventAt(d, [a, b, c, e, f], 4) == Some(Event(Flags(true, false, false, false), true))
  {
    assert d.Of(ValidLeft) == d.vl && d.Of(ValidRight) == d.vr && d.Of(InvalidLeft) == d.il && d.Of(InvalidRight) == d.ir;
    var s1 := Step(d, a);
    assert s1.phase == Idle && s1.vl.timer.start == 1;
    var s2 := Step(s1, b);
    assert s2.phase == SingleEmitted;
    var s3 := Step(s2, c);
    assert s3.phase == SingleEmitted;
    var s4 := Step(s3, e);
    assert s4.phase == SingleEmitted;
    StatesOfFive(d, a, b, c, e, f);
  }

  lemma StatesOfFive(d: Detector, a: Sample, b: Sample, c: Sample, e: Sample, f: Sample)
    ensures StateAt(d, [a, b, c, e, f], 4) == Step(Step(Step(Step(d, a), b), c), e)
  {
    var trace := [a, b, c, e, f];
    assert StateAt(d, trace, 1) == Step(StateAt(d, trace, 0), a);
    assert StateAt(d, trace, 2) == Step(StateAt(d, trace, 1), b);
    assert StateAt(d, trace, 3) == Step(StateAt(d, trace, 2), c);
  }
}
