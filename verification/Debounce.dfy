/**
 The contact timer that every press in the apparatus goes through, and what "a press held
 long enough" means on a trace of samples.
 */
module Debounce {

  /** Microseconds since boot. The timer uses 0 for "no press running". */
  type Micros = t: int | 0 < t witness 1

  datatype Timer = Timer(start: int, ok: bool, required: int, margin: int, applied: bool)

  function Updated(t: Timer, condition: bool, now: Micros): Timer {
    if condition then
      var start := if t.start == 0 then now else t.start;
      t.(start := start, ok := now - start >= t.required)
    else
      t.(start := 0, ok := false)
  }

  /** Clears the press but keeps `required`, even after the margin has been taken off it. */
  function Cleared(t: Timer): Timer {
    t.(start := 0, ok := false, applied := false)
  }

  function ClearedTo(t: Timer, us: int): Timer {
    Cleared(t).(required := us)
  }

  function WithMargin(t: Timer, now: Micros): Timer {
    if t.applied then t
    else Updated(t.(required := t.required - t.margin), true, now).(applied := true)
  }

  class DebounceTimer {
    var startTime: int
    var lastOk: bool
    var requiredUs: int
    var dosSantosMargin: int
    var dosSantosApplied: bool

    ghost function View(): Timer
      reads this
    {
      Timer(startTime, lastOk, requiredUs, dosSantosMargin, dosSantosApplied)
    }

    constructor (required: int)
      ensures View() == Timer(0, false, required, 0, false)
    {
      startTime, lastOk := 0, false;
      requiredUs, dosSantosMargin, dosSantosApplied := required, 0, false;
    }

    method Update(condition: bool, now: Micros) returns (ok: bool)
      modifies this
      ensures View() == Updated(old(View()), condition, now)
      ensures ok == lastOk
    {
      if condition {
        if startTime == 0 {
          startTime := now;
        }
        lastOk := now - startTime >= requiredUs;
      } else {
        lastOk := false;
        startTime := 0;
      }
      ok := lastOk;
    }

    method Reset()
      modifies this
      ensures View() == Cleared(old(View()))
    {
      startTime, lastOk, dosSantosApplied := 0, false, false;
    }

    method ResetTo(us: int)
      modifies this
      ensures View() == ClearedTo(old(View()), us)
    {
      Reset();
      requiredUs := us;
    }

    method SetRequiredUs(us: int)
      modifies this`requiredUs
      ensures View() == old(View()).(required := us)
    {
      requiredUs := us;
    }

    method SetDosSantosMarginUs(us: int)
      modifies this`dosSantosMargin
      ensures View() == old(View()).(margin := us)
    {
      dosSantosMargin := us;
    }

    method ApplyDosSantosMarginUs(now: Micros)
      modifies this
      ensures View() == WithMargin(old(View()), now)
    {
      if !dosSantosApplied {
        requiredUs := requiredUs - dosSantosMargin;
        var _ := Update(true, now);
        dosSantosApplied := true;
      }
    }
  }

  // ---- Presses on a trace ----

  datatype Contact = Contact(at: Micros, pressed: bool)

  /** The sample at which the unbroken press that covers sample `k` began. */
  function PressStart(ch: seq<Contact>, k: nat): (s: nat)
    requires k < |ch| && ch[k].pressed
    ensures s <= k && (forall j | s <= j <= k :: ch[j].pressed)
    ensures s == 0 || !ch[s - 1].pressed
  {
    if k == 0 || !ch[k - 1].pressed then k else PressStart(ch, k - 1)
  }

  /** At sample `k` the contact has been pressed without a break for at least `d`. */
  predicate HeldFor(ch: seq<Contact>, k: nat, d: int) {
    k < |ch| && ch[k].pressed && ch[k].at - ch[PressStart(ch, k)].at >= d
  }

  /** `k` is the first sample of its press whose age reaches `d`. */
  ghost predicate CompletesAt(ch: seq<Contact>, k: nat, d: int) {
    HeldFor(ch, k, d) && forall j: nat | PressStart(ch, k) <= j < k :: !HeldFor(ch, j, d)
  }

  lemma {:induction false} SamePress(ch: seq<Contact>, j: nat, k: nat)
    requires k < |ch| && ch[k].pressed && PressStart(ch, k) <= j <= k
    ensures PressStart(ch, j) == PressStart(ch, k)
  {
    if j < k {
      SamePress(ch, j, k - 1);
    }
  }

  /** A completed hold is completed once: two completions lie in different presses. */
  lemma CompletesOncePerPress(ch: seq<Contact>, i: nat, k: nat, d: int)
    requires i < k && CompletesAt(ch, i, d) && CompletesAt(ch, k, d)
    ensures exists b :: i < b < k && !ch[b].pressed
  {
    assert HeldFor(ch, i, d);
    var b := PressStart(ch, k) - 1;
    assert ch[i].pressed && !ch[b].pressed;
  }
}
