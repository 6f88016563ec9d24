/**
 The passivity stopwatch (unwillingness to fight): start, stop, reset with a one-deep backup,
 restore and seed, and its meaning as a sum of run intervals.
 */
module Passivity {

  datatype Stopwatch = Stopwatch(total: int, backup: int, started: int, running: bool) {
    /** Milliseconds shown at time `now`. */
    function Elapsed(now: int): int {
      if running then total + now - started else total
    }

    /** Whole seconds; the division truncates. */
    function Seconds(now: int): int {
      var ms := Elapsed(now);
      if ms >= 0 then ms / 1000 else -(-ms / 1000)
    }
  }

  const Fresh := Stopwatch(0, 0, 0, false)

  datatype Op = Start | Stop | Reset | Restore | Seed(ms: int)

  datatype TimedOp = TimedOp(at: int, op: Op)

  function Stopped(w: Stopwatch, now: int): Stopwatch { w.(total := w.Elapsed(now), running := false) }

  function Apply(w: Stopwatch, o: TimedOp): Stopwatch {
    match o.op
    case Start => w.(started := o.at, running := true)
    case Stop => Stopped(w, o.at)
    case Reset =>
      var s := Stopped(w, o.at);
      s.(backup := if s.total > 0 then s.total else s.backup, total := 0)
    case Restore => w.(total := w.backup)
    case Seed(ms) => w.(total := ms)
  }

  /** The stopwatch after a history of calls. */
  function Run(log: seq<TimedOp>): Stopwatch {
    if log == [] then Fresh else Apply(Run(log[..|log| - 1]), log[|log| - 1])
  }

  class UW2FTimer {
    var totalTime: int
    var totalTimeBackup: int
    var timeStarted: int
    var timeStopped: int
    var running: bool

    ghost function View(): Stopwatch
      reads this
    {
      Stopwatch(totalTime, totalTimeBackup, timeStarted, running)
    }

    constructor ()
      ensures View() == Fresh
    {
      totalTime, totalTimeBackup, timeStarted, timeStopped, running := 0, 0, 0, 0, false;
    }

    method Start(now: int)
      modifies this
      ensures View() == Apply(old(View()), TimedOp(now, Op.Start))
    {
      timeStarted, running := now, true;
    }

    method Stop(now: int)
      modifies this
      ensures View() == Apply(old(View()), TimedOp(now, Op.Stop))
    {
      timeStopped := now;
      if running {
        totalTime := totalTime + timeStopped - timeStarted;
      }
      running := false;
    }

    method Reset(now: int)
      modifies this
      ensures View() == Apply(old(View()), TimedOp(now, Op.Reset))
    {
      Stop(now);
      if totalTime > 0 {
        totalTimeBackup := totalTime;
      }
      totalTime, running := 0, false;
    }

    method RestorePreviousState()
      modifies this
      ensures forall now :: View() == Apply(old(View()), TimedOp(now, Restore))
    {
      totalTime := totalTimeBackup;
    }

    method SeedTotal(ms: int)
      modifies this
      ensures forall now :: View() == Apply(old(View()), TimedOp(now, Seed(ms)))
    {
      totalTime := ms;
    }

    method GetIntermediateTime(now: int) returns (seconds: int)
      ensures seconds == View().Seconds(now)
    {
      var ms := if running then totalTime + now - timeStarted else totalTime;
      seconds := if ms >= 0 then ms / 1000 else -(-ms / 1000);
    }
  }

  // ---- What a history means ----

  /** After this history the stopwatch runs: its last Start has not been followed by a Stop or Reset. */
  predicate IsRunning(log: seq<TimedOp>) {
    log != [] &&
    match log[|log| - 1].op
    case Start => true
    case Stop => false
    case Reset => false
    case _ => IsRunning(log[..|log| - 1])
  }

  /** Start, Restore and Seed are called only while the stopwatch stands still. */
  predicate Disciplined(log: seq<TimedOp>) {
    log != [] ==>
      var before, op := log[..|log| - 1], log[|log| - 1].op;
      Disciplined(before) && (op.Start? || op.Restore? || op.Seed? ==> !IsRunning(before))
  }

  /** The time held by the last Reset that had any time to throw away. */
  function LastHeld(log: seq<TimedOp>): int {
    if log == [] then 0
    else
      var before, last := log[..|log| - 1], log[|log| - 1];
      if last.op.Reset? && RunTime(before, last.at) > 0 then RunTime(before, last.at) else LastHeld(before)
  }

  /** The sum of the run intervals since the last Reset, up to `now`, on top of the amount put
      back by a Restore or a Seed. */
  function RunTime(log: seq<TimedOp>, now: int): int {
    if log == [] then 0
    else
      var before, last := log[..|log| - 1], log[|log| - 1];
      match last.op
      case Reset => 0
      case Restore => LastHeld(before)
      case Seed(ms) => ms
      case Stop => RunTime(before, last.at)
      case Start => RunTime(before, last.at) + (now - last.at)
  }

  /** The stopwatch shows exactly the accumulated run time, and its backup is exactly what the
      last non-empty Reset threw away, however many empty Resets followed it. */
  lemma {:induction false} ShowsRunTime(log: seq<TimedOp>, now: int)
    requires Disciplined(log)
    ensures Run(log).running == IsRunning(log)
    ensures Run(log).Elapsed(now) == RunTime(log, now)
    ensures Run(log).backup == LastHeld(log)
  {
    if log != [] {
      ShowsRunTime(log[..|log| - 1], log[|log| - 1].at);
    }
  }

  /** Restore undoes the last non-empty Reset: any calls may follow that Reset as long as no later
      Reset throws time away. */
  lemma {:induction false} RestoreUndoesReset(log: seq<TimedOp>, reset: int, more: seq<TimedOp>, at: int, now: int)
    requires Disciplined(log + [TimedOp(reset, Op.Reset)] + more + [TimedOp(at, Restore)])
    requires RunTime(log, reset) > 0
    requires forall i: nat | i < |more| :: more[i].op.Reset? || more[i].op.Stop?
    ensures Run(log + [TimedOp(reset, Op.Reset)] + more + [TimedOp(at, Restore)]).Elapsed(now) == RunTime(log, reset)
  {
    var emptied := log + [TimedOp(reset, Op.Reset)];
    var full := emptied + more + [TimedOp(at, Restore)];
    assert full[..|full| - 1] == emptied + more;
    ShowsRunTime(full, now);
    StandsStill(log, reset, more, at);
  }

  lemma {:induction false} StandsStill(log: seq<TimedOp>, reset: int, more: seq<TimedOp>, now: int)
    requires forall i: nat | i < |more| :: more[i].op.Reset? || more[i].op.Stop?
    requires RunTime(log, reset) > 0
    ensures var after := log + [TimedOp(reset, Op.Reset)] + more;
            RunTime(after, now) == 0 && LastHeld(after) == RunTime(log, reset)
  {
    var emptied := log + [TimedOp(reset, Op.Reset)];
    assert emptied[..|emptied| - 1] == log;
    if more == [] {
      assert emptied + more == emptied;
    } else {
      var after := emptied + more;
      assert after[..|after| - 1] == emptied + more[..|more| - 1];
      StandsStill(log, reset, more[..|more| - 1], more[|more| - 1].at);
    }
  }

  /** Starting a stopwatch that already runs loses the interval under way: the discipline matters. */
  lemma DoubleStartLosesTime()
    ensures var log := [TimedOp(0, Op.Start), TimedOp(5000, Op.Start)];
            !Disciplined(log) && Run(log).Elapsed(7000) == 2000 && RunTime(log, 7000) == 7000
  {
    var log := [TimedOp(0, Op.Start), TimedOp(5000, Op.Start)];
    assert log[..1] == [TimedOp(0, Op.Start)];
    assert Run([]) == Fresh;
    assert log[..1][..0] == [];
    assert Run(log[..1]) == Apply(Fresh, TimedOp(0, Op.Start));
    assert RunTime(log[..1], 5000) == 5000;
  }
}
