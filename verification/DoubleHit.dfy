/**
 The double-hit ("tap-tap") detector, and its meaning on the whole input trace.
 */
module DoubleHit {
  import opened Wrappers

  datatype Hits = Hits(validL: bool, validR: bool, invalidL: bool, invalidR: bool) {
    predicate Any() { validL || validR || invalidL || invalidR }
    predicate Left() { validL || invalidL }
    predicate Right() { validR || invalidR }
    function Union(h: Hits): Hits {
      Hits(validL || h.validL, validR || h.validR, invalidL || h.invalidL, invalidR || h.invalidR)
    }
  }

  const NoHits := Hits(false, false, false, false)

  datatype Sample = Sample(now: int, hits: Hits)

  datatype Limits = Limits(minHit: int, maxHit: int, maxGap: int)

  /** 5 ms, 500 ms and 400 ms, in microseconds. */
  const DefaultLimits := Limits(5000, 500000, 400000)

  datatype State = Idle | FirstPressed | FirstReleased | SecondPressed | Abort

  datatype Detector = Detector(state: State, pressStart: int, releaseTime: int, first: Hits, second: Hits)

  /** One fencer made both taps: the same side was active at the start of each. */
  predicate SameSide(first: Hits, second: Hits) {
    (first.Left() && second.Left()) || (first.Right() && second.Right())
  }

  function Step(lim: Limits, d: Detector, s: Sample): Detector {
    match d.state
    case Idle =>
      if s.hits.Any() then d.(state := FirstPressed, pressStart := s.now, first := s.hits) else d
    case FirstPressed =>
      var held := s.now - d.pressStart;
      if held > lim.maxHit then d.(state := Abort)
      else if s.hits.Any() then d
      else if held >= lim.minHit then d.(state := FirstReleased, releaseTime := s.now)
      else d.(state := Idle)
    case FirstReleased =>
      if s.now - d.releaseTime > lim.maxGap then d.(state := Idle)
      else if s.hits.Any() then d.(state := SecondPressed, pressStart := s.now, second := s.hits)
      else d
    case SecondPressed =>
      if s.now - d.pressStart > lim.maxHit then d.(state := Abort)
      else if s.hits.Any() then d
      else d.(state := Idle)
    case Abort =>
      if s.hits.Any() then d else d.(state := Idle)
  }

  function Emitted(lim: Limits, d: Detector, s: Sample): Option<Hits> {
    var held := s.now - d.pressStart;
    if d.state == SecondPressed && lim.minHit <= held <= lim.maxHit && !s.hits.Any() && SameSide(d.first, d.second)
    then Some(d.first.Union(d.second)) else None
  }

  class DoubleHitDetector {
    var minHitUs: int
    var maxHitUs: int
    var maxGapUs: int
    var state: State
    var pressStart: int
    var releaseTime: int
    var first: Hits
    var second: Hits
    var last: Hits

    ghost function View(): Detector
      reads this
    {
      Detector(state, pressStart, releaseTime, first, second)
    }

    ghost function Configured(): Limits
      reads this
    {
      Limits(minHitUs, maxHitUs, maxGapUs)
    }

    constructor ()
      ensures Configured() == DefaultLimits && View() == Detector(Idle, 0, 0, NoHits, NoHits)
    {
      minHitUs, maxHitUs, maxGapUs := 5000, 500000, 400000;
      state, pressStart, releaseTime := Idle, 0, 0;
      first, second, last := NoHits, NoHits, NoHits;
    }

    method Reset()
      modifies this
      ensures Configured() == old(Configured()) && View() == Detector(Idle, 0, 0, NoHits, NoHits)
    {
      state, pressStart, releaseTime := Idle, 0, 0;
      first, second, last := NoHits, NoHits, NoHits;
    }

    method Update(s: Sample) returns (event: Option<Hits>)
      modifies this
      ensures Configured() == old(Configured())
      ensures View() == Step(Configured(), old(View()), s) && event == Emitted(Configured(), old(View()), s)
      ensures last == if event.Some? then event.value else old(last)
    {
      var anyActive := s.hits.Any();
      event := None;
      match state {
        case Idle =>
          if anyActive {
            pressStart := s.now;
            first := s.hits;
            state := FirstPressed;
          }
        case FirstPressed =>
          var held := s.now - pressStart;
          if held > maxHitUs {
            state := Abort;
          } else if !anyActive {
            if held >= minHitUs {
              releaseTime := s.now;
              state := FirstReleased;
            } else {
              state := Idle;
            }
          }
        case FirstReleased =>
          if s.now - releaseTime > maxGapUs {
            state := Idle;
          } else if anyActive {
            pressStart := s.now;
            second := s.hits;
            state := SecondPressed;
          }
        case SecondPressed =>
          var held := s.now - pressStart;
          if held > maxHitUs {
            state := Abort;
          } else if !anyActive {
            if held >= minHitUs && SameSide(first, second) {
              last := first.Union(second);
              event := Some(last);
            }
            state := Idle;
          }
        case Abort =>
          if !anyActive {
            state := Idle;
          }
      }
    }
  }

  // ---- Whole traces ----

  ghost predicate Monotone(trace: seq<Sample>) {
    forall i: nat, j: nat | i <= j < |trace| :: trace[i].now <= trace[j].now
  }

  function StateAt(lim: Limits, d: Detector, trace: seq<Sample>, n: nat): Detector
    requires n <= |trace|
  {
    if n == 0 then d else Step(lim, StateAt(lim, d, trace, n - 1), trace[n - 1])
  }

  function EventAt(lim: Limits, d: Detector, trace: seq<Sample>, k: nat): Option<Hits>
    requires k < |trace|
  {
    Emitted(lim, StateAt(lim, d, trace, k), trace[k])
  }

  /** Some channel is active in every sample of [a, b). */
  ghost predicate Active(trace: seq<Sample>, a: nat, b: nat) {
    a <= b <= |trace| && forall i: nat | a <= i < b :: trace[i].hits.Any()
  }

  /** A press that begins at `a`, is released at `b`, and has the length of a tap. */
  ghost predicate Tap(lim: Limits, trace: seq<Sample>, a: nat, b: nat) {
    && a < b < |trace| && Active(trace, a, b) && !trace[b].hits.Any()
    && lim.minHit <= trace[b].now - trace[a].now <= lim.maxHit
  }

  /** Nothing is active from the release at `b` until the next press at `c`, soon enough after it. */
  ghost predicate Gap(lim: Limits, trace: seq<Sample>, b: nat, c: nat) {
    && b < c < |trace| && (forall i: nat | b <= i < c :: !trace[i].hits.Any()) && trace[c].hits.Any()
    && trace[c].now - trace[b].now <= lim.maxGap
  }

  /** The detector is idle before `a`; a tap [a, b], a short gap, and a tap [c, k] by the same side follow. */
  ghost predicate TapTap(lim: Limits, d: Detector, trace: seq<Sample>, a: nat, b: nat, c: nat, k: nat) {
    && Tap(lim, trace, a, b) && Gap(lim, trace, b, c) && Tap(lim, trace, c, k)
    && StateAt(lim, d, trace, a).state == Idle
    && SameSide(trace[a].hits, trace[c].hits)
  }

  /** The detector has seen the first press begin at `a` and nothing else before `n`. */
  ghost predicate InFirstPress(lim: Limits, d: Detector, trace: seq<Sample>, a: nat, n: nat) {
    && a < n <= |trace| && StateAt(lim, d, trace, a).state == Idle && Active(trace, a, n)
    && var s := StateAt(lim, d, trace, n); s.state == FirstPressed && s.pressStart == trace[a].now && s.first == trace[a].hits
  }

  ghost predicate InGap(lim: Limits, d: Detector, trace: seq<Sample>, a: nat, b: nat, n: nat) {
    && b < n <= |trace| && Tap(lim, trace, a, b) && StateAt(lim, d, trace, a).state == Idle
    && (forall i: nat | b <= i < n :: !trace[i].hits.Any())
    && var s := StateAt(lim, d, trace, n); s.state == FirstReleased && s.releaseTime == trace[b].now && s.first == trace[a].hits
  }

  ghost predicate InSecondPress(lim: Limits, d: Detector, trace: seq<Sample>, a: nat, b: nat, c: nat, n: nat) {
    && c < n <= |trace| && Tap(lim, trace, a, b) && Gap(lim, trace, b, c) && Active(trace, c, n)
    && StateAt(lim, d, trace, a).state == Idle
    && var s := StateAt(lim, d, trace, n);
       s.state == SecondPressed && s.pressStart == trace[c].now && s.first == trace[a].hits && s.second == trace[c].hits
  }

  // From the trace to the state: a tap-tap drives the detector through its phases.

  lemma {:induction false} FirstPressLasts(lim: Limits, d: Detector, trace: seq<Sample>, a: nat, b: nat, n: nat)
    requires Monotone(trace) && Tap(lim, trace, a, b) && StateAt(lim, d, trace, a).state == Idle && a < n <= b
    ensures InFirstPress(lim, d, trace, a, n)
  {
    if a + 1 < n {
      FirstPressLasts(lim, d, trace, a, b, n - 1);
      assert trace[n - 1].now <= trace[b].now;
    }
  }

  lemma {:induction false} GapLasts(lim: Limits, d: Detector, trace: seq<Sample>, a: nat, b: nat, c: nat, n: nat)
    requires Monotone(trace) && Tap(lim, trace, a, b) && Gap(lim, trace, b, c)
    requires StateAt(lim, d, trace, a).state == Idle && b < n <= c
    ensures InGap(lim, d, trace, a, b, n)
  {
    if b + 1 < n {
      GapLasts(lim, d, trace, a, b, c, n - 1);
      assert trace[n - 1].now <= trace[c].now;
    } else {
      FirstPressLasts(lim, d, trace, a, b, b);
    }
  }

  lemma {:induction false} SecondPressLasts(lim: Limits, d: Detector, trace: seq<Sample>, a: nat, b: nat, c: nat, k: nat, n: nat)
    requires Monotone(trace) && Tap(lim, trace, a, b) && Gap(lim, trace, b, c) && Tap(lim, trace, c, k)
    requires StateAt(lim, d, trace, a).state == Idle && c < n <= k
    ensures InSecondPress(lim, d, trace, a, b, c, n)
  {
    if c + 1 < n {
      SecondPressLasts(lim, d, trace, a, b, c, k, n - 1);
      assert trace[n - 1].now <= trace[k].now;
    } else {
      GapLasts(lim, d, trace, a, b, c, c);
    }
  }

  // From the state to the trace: each phase can only have been reached in one way.

  lemma {:induction false} FirstPressOrigin(lim: Limits, d: Detector, trace: seq<Sample>, n: nat) returns (a: nat)
    requires n <= |trace| && d.state == Idle && StateAt(lim, d, trace, n).state == FirstPressed
    ensures InFirstPress(lim, d, trace, a, n)
  {
    if StateAt(lim, d, trace, n - 1).state == Idle {
      a := n - 1;
    } else {
      a := FirstPressOrigin(lim, d, trace, n - 1);
    }
  }

  lemma {:induction false} GapOrigin(lim: Limits, d: Detector, trace: seq<Sample>, n: nat) returns (a: nat, b: nat)
    requires n <= |trace| && d.state == Idle && StateAt(lim, d, trace, n).state == FirstReleased
    ensures InGap(lim, d, trace, a, b, n)
  {
    if StateAt(lim, d, trace, n - 1).state == FirstPressed {
      a := FirstPressOrigin(lim, d, trace, n - 1);
      b := n - 1;
    } else {
      a, b := GapOrigin(lim, d, trace, n - 1);
    }
  }

  lemma {:induction false} SecondPressOrigin(lim: Limits, d: Detector, trace: seq<Sample>, n: nat)
    returns (a: nat, b: nat, c: nat)
    requires n <= |trace| && d.state == Idle && StateAt(lim, d, trace, n).state == SecondPressed
    ensures InSecondPress(lim, d, trace, a, b, c, n)
  {
    if StateAt(lim, d, trace, n - 1).state == FirstReleased {
      a, b := GapOrigin(lim, d, trace, n - 1);
      c := n - 1;
    } else {
      a, b, c := SecondPressOrigin(lim, d, trace, n - 1);
    }
  }

  /** An event at `k` is a tap-tap that ends at `k`, and reports the union of the two press-start
      snapshots. */
  lemma EventIsTapTap(lim: Limits, d: Detector, trace: seq<Sample>, k: nat) returns (a: nat, b: nat, c: nat)
    requires k < |trace| && d.state == Idle && EventAt(lim, d, trace, k).Some?
    ensures TapTap(lim, d, trace, a, b, c, k)
    ensures EventAt(lim, d, trace, k) == Some(trace[a].hits.Union(trace[c].hits))
  {
    a, b, c := SecondPressOrigin(lim, d, trace, k);
  }

  /** Every tap-tap is detected, at its last sample. */
  lemma TapTapIsEvent(lim: Limits, d: Detector, trace: seq<Sample>, a: nat, b: nat, c: nat, k: nat)
    requires Monotone(trace) && TapTap(lim, d, trace, a, b, c, k)
    ensures EventAt(lim, d, trace, k) == Some(trace[a].hits.Union(trace[c].hits))
  {
    SecondPressLasts(lim, d, trace, a, b, c, k, k);
  }

  /** The detector emits at sample `k` if and only if a tap-tap ends at `k`. */
  lemma EmitsIffTapTap(lim: Limits, d: Detector, trace: seq<Sample>, k: nat)
    requires Monotone(trace) && k < |trace| && d.state == Idle
    ensures EventAt(lim, d, trace, k).Some? <==> exists a, b, c :: TapTap(lim, d, trace, a, b, c, k)
  {
    if EventAt(lim, d, trace, k).Some? {
      var a, b, c := EventIsTapTap(lim, d, trace, k);
    } else if exists a, b, c :: TapTap(lim, d, trace, a, b, c, k) {
      var a, b, c :| TapTap(lim, d, trace, a, b, c, k);
      TapTapIsEvent(lim, d, trace, a, b, c, k);
    }
  }
}
