/**
 The replication of a piste to a repeater: numbered packets over a radio link that loses and
 duplicates them, mirroring at the receiver, and the periodic broadcast of the full state.
 */
module Repeater {
  import opened Wrappers
  import opened Fencing
  import opened BoutClock
  import opened Match

  const REPETITIONS := 4
  const DIVIDER := 7
  const TYPE := 0x100_0000

  /** Main types of events: the highest byte of the word. */
  const LIGHTS := 0x00
  const TIMER := 0x01
  const ROUND := 0x02
  const SCORE_LEFT := 0x07
  const SCORE_RIGHT := 0x08
  const PRIO := 0x09
  const YELLOW_LEFT := 0x0a
  const YELLOW_RIGHT := 0x0b
  const RED_LEFT := 0x0c
  const RED_RIGHT := 0x0d
  const P_CARD := 0x12

  datatype Event = Event(main: nat, data: nat)

  datatype Packet = Packet(piste: int, number: nat, event: Event)

  // ---- Sending ----

  /** The sender, the packets it has put on the air, and the events it was given. */
  datatype Sender = Sender(message: Packet, count: nat, resend: nat, nextResend: int, sent: seq<Packet>, given: seq<Event>)

  const RESEND_DELTA := [5, 3, 2, 1, 2, 1, 2]

  /** Static storage is zero until the first event. */
  function NewSender(piste: int): Sender {
    Sender(Packet(piste, 0, Event(LIGHTS, 0)), 0, REPETITIONS, 0, [], [])
  }

  /** A new event takes the next number, goes out at once and is due for repetition. */
  function Given(s: Sender, e: Event): Sender {
    var p := s.message.(number := s.count, event := e);
    Sender(p, s.count + 1, REPETITIONS, 0, s.sent + [p], s.given + [e])
  }

  predicate RepeatDue(s: Sender, now: int) { 0 < s.resend && now > s.nextResend }

  function Repeated(s: Sender, now: int): Sender
    requires s.resend <= REPETITIONS
  {
    if RepeatDue(s, now) then
      s.(sent := s.sent + [s.message], resend := s.resend - 1, nextResend := now + RESEND_DELTA[s.resend - 1])
    else s
  }

  class RepeaterSender {
    var message: Packet
    var currentNewMessageCount: nat
    var resendCount: nat
    var nextResendTime: int
    /** The packets handed to the radio, and the events to send. */
    ghost var sent: seq<Packet>
    ghost var given: seq<Event>

    ghost function View(): Sender
      reads this
    {
      Sender(message, currentNewMessageCount, resendCount, nextResendTime, sent, given)
    }

    constructor (piste: int)
      ensures View() == NewSender(piste)
    {
      message, currentNewMessageCount := Packet(piste, 0, Event(LIGHTS, 0)), 0;
      resendCount, nextResendTime, sent, given := REPETITIONS, 0, [], [];
    }

    /** Both comparisons of the firmware's choice of repetitions are constant, so every event is
        repeated four times. */
    method Update(e: Event)
      modifies this
      ensures View() == Given(old(View()), e)
    {
      message := message.(number := currentNewMessageCount);
      currentNewMessageCount := currentNewMessageCount + 1;
      message := message.(event := e);
      sent, given := sent + [message], given + [e];
      nextResendTime := 0;
      resendCount := REPETITIONS;
    }

    method RepeatLastMessage(now: int)
      requires resendCount <= REPETITIONS
      modifies this
      ensures View() == Repeated(old(View()), now)
    {
      if resendCount > 0 && now > nextResendTime {
        sent := sent + [message];
        resendCount := resendCount - 1;
        nextResendTime := now + RESEND_DELTA[resendCount];
      }
    }
  }

  datatype SenderOp = Send(e: Event) | Tick(now: int)

  function SenderAfter(s: Sender, ops: seq<SenderOp>): (r: Sender)
    requires s.resend <= REPETITIONS
    ensures r.resend <= REPETITIONS
  {
    if ops == [] then s
    else
      var before := SenderAfter(s, ops[..|ops| - 1]);
      match ops[|ops| - 1] case Send(e) => Given(before, e) case Tick(now) => Repeated(before, now)
  }

  /** The packet carries the event that its number counts. */
  predicate Genuine(p: Packet, given: seq<Event>) { p.number < |given| && p.event == given[p.number] }

  /** No packet is sent after one with a higher number. */
  predicate InOrder(ps: seq<Packet>) { forall i: nat, j: nat | i < j < |ps| :: ps[i].number <= ps[j].number }

  /** What every run of the sender keeps: the last message has the last number given out. */
  ghost predicate SenderInv(s: Sender, piste: int) {
    && s.count == |s.given| && s.message.piste == piste
    && s.message.number == (if s.count == 0 then 0 else s.count - 1)
    && (s.count > 0 ==> Genuine(s.message, s.given))
    && forall i: nat | i < |s.sent| ::
         && s.sent[i].piste == piste && s.sent[i].number <= s.message.number
         && (s.sent[i].number > 0 ==> Genuine(s.sent[i], s.given))
  }

  /** Whenever events are given and repetitions are due, what goes on the air carries non-decreasing
      numbers, and every packet but those numbered 0, which may precede the first event, carries the
      event that its number counts. */
  lemma {:induction false} SentInOrder(piste: int, ops: seq<SenderOp>)
    ensures var s := SenderAfter(NewSender(piste), ops); InOrder(s.sent) && SenderInv(s, piste)
  {
    if ops != [] {
      SentInOrder(piste, ops[..|ops| - 1]);
    }
  }

  // ---- Receiving ----

  /** Whether a packet is passed on: it is from the piste we follow and numbered above the last one. */
  predicate Passes(master: int, last: int, p: Packet) { p.piste == master && p.number > last }

  function LastAfter(master: int, last: int, p: Packet): int { if p.piste == master then p.number else last }

  function Forwarded(master: int, last: int, ps: seq<Packet>): seq<Packet>
    decreases |ps|
  {
    if ps == [] then []
    else (if Passes(master, last, ps[0]) then [ps[0]] else []) + Forwarded(master, LastAfter(master, last, ps[0]), ps[1..])
  }

  class RepeaterReceiver {
    const masterPiste: int
    var lastNumber: int

    constructor (piste: int)
      ensures masterPiste == piste && lastNumber == 0
    {
      masterPiste, lastNumber := piste, 0;
    }

    method OnDataRecv(p: Packet) returns (event: Option<Event>)
      modifies this
      ensures lastNumber == LastAfter(masterPiste, old(lastNumber), p)
      ensures event == if Passes(masterPiste, old(lastNumber), p) then Some(p.event) else None
    {
      event := None;
      if p.piste == masterPiste {
        var difference := p.number - lastNumber;
        if difference > 0 {
          event := Some(p.event);
        }
        lastNumber := p.number;
      }
    }
  }

  // ---- Any stream of arrivals ----

  /** The number of the piste's last arrival before index `i`, or `last` if there is none. */
  function Before(master: int, last: int, ps: seq<Packet>, i: nat): int
    requires i <= |ps|
  {
    if i == 0 then last else LastAfter(master, Before(master, last, ps, i - 1), ps[i - 1])
  }

  /** Arrival `i` is of the piste and numbered above the piste's arrival before it. */
  predicate Climbs(master: int, last: int, ps: seq<Packet>, i: nat) {
    i < |ps| && Passes(master, Before(master, last, ps, i), ps[i])
  }

  lemma {:induction false} BeforeShifts(master: int, last: int, ps: seq<Packet>, i: nat)
    requires i < |ps|
    ensures Before(master, last, ps, i + 1) == Before(master, LastAfter(master, last, ps[0]), ps[1..], i)
  {
    if i > 0 {
      BeforeShifts(master, last, ps, i - 1);
    }
  }

  lemma {:induction false} BeforePrefix(master: int, last: int, ps: seq<Packet>, n: nat, i: nat)
    requires i <= n <= |ps|
    ensures Before(master, last, ps[..n], i) == Before(master, last, ps, i)
  {
    if i > 0 {
      BeforePrefix(master, last, ps, n, i - 1);
    }
  }

  function ForwardedFirst(master: int, last: int, p: Packet): seq<Packet> { if Passes(master, last, p) then [p] else [] }

  function ForwardedLast(master: int, last: int, ps: seq<Packet>): seq<Packet>
    requires ps != []
  {
    if Climbs(master, last, ps, |ps| - 1) then [ps[|ps| - 1]] else []
  }

  lemma ForwardedUnfolds(master: int, last: int, ps: seq<Packet>)
    requires ps != []
    ensures Forwarded(master, last, ps) ==
            ForwardedFirst(master, last, ps[0]) + Forwarded(master, LastAfter(master, last, ps[0]), ps[1..])
  {
  }

  lemma LastClimbsAlike(master: int, last: int, ps: seq<Packet>)
    requires |ps| > 1
    ensures ForwardedLast(master, last, ps) == ForwardedLast(master, LastAfter(master, last, ps[0]), ps[1..])
  {
    BeforeShifts(master, last, ps, |ps| - 2);
  }

  lemma Joined(a: seq<Packet>, b: seq<Packet>, c: seq<Packet>)
    ensures a + (b + c) == (a + b) + c
  {
  }

  /** The last arrival is forwarded if and only if it climbs. */
  lemma {:induction false} ForwardedIfClimbs(master: int, last: int, ps: seq<Packet>)
    requires ps != []
    ensures Forwarded(master, last, ps) == Forwarded(master, last, ps[..|ps| - 1]) + ForwardedLast(master, last, ps)
    decreases |ps|
  {
    ForwardedUnfolds(master, last, ps);
    if |ps| > 1 {
      var next, rest, n := LastAfter(master, last, ps[0]), ps[1..], |ps| - 1;
      ForwardedIfClimbs(master, next, rest);
      LastClimbsAlike(master, last, ps);
      ForwardedUnfolds(master, last, ps[..n]);
      assert ps[..n][1..] == rest[..n - 1];
      Joined(ForwardedFirst(master, last, ps[0]), Forwarded(master, next, rest[..n - 1]), ForwardedLast(master, last, ps));
    }
  }

  /** `from` names the arrivals that were forwarded, in order: exactly those that climb. */
  predicate Names(master: int, last: int, ps: seq<Packet>, from: seq<nat>) {
    var f := Forwarded(master, last, ps);
    && |from| == |f|
    && (forall a: nat | a < |f| :: Climbs(master, last, ps, from[a]) && f[a] == ps[from[a]])
    && (forall a: nat, b: nat | a < b < |from| :: from[a] < from[b])
    && (forall i: nat | i < |ps| && Climbs(master, last, ps, i) :: i in from)
  }

  /** Whatever arrives, in whatever order: an arrival is forwarded if and only if it climbs. */
  lemma {:induction false} ForwardedAreTheClimbs(master: int, last: int, ps: seq<Packet>) returns (from: seq<nat>)
    ensures Names(master, last, ps, from)
  {
    if ps == [] {
      from := [];
    } else {
      var n := |ps| - 1;
      from := ForwardedAreTheClimbs(master, last, ps[..n]);
      ForwardedIfClimbs(master, last, ps);
      forall i: nat | i <= n
        ensures Climbs(master, last, ps[..n], i) <==> i < n && Climbs(master, last, ps, i)
      {
        BeforePrefix(master, last, ps, n, i);
      }
      if Climbs(master, last, ps, n) {
        from := from + [n];
      }
    }
  }

  predicate ClimbsTo(master: int, last: int, ps: seq<Packet>, i: nat, k: nat) {
    Climbs(master, last, ps, i) && ps[i].number == k
  }

  /** Some packet with this number is forwarded. */
  ghost predicate ForwardsNumber(f: seq<Packet>, k: nat) { exists i: nat :: i < |f| && f[i].number == k }

  ghost predicate ForwardsTwice(f: seq<Packet>, k: nat) {
    exists i: nat, j: nat :: i < j < |f| && f[i].number == k && f[j].number == k
  }

  ghost predicate ClimbsTwice(master: int, last: int, ps: seq<Packet>, k: nat) {
    exists i: nat, j: nat :: i < j && ClimbsTo(master, last, ps, i, k) && ClimbsTo(master, last, ps, j, k)
  }

  /** A number is forwarded if and only if the stream climbs to it, and more than once if and only if it
      climbs to it more than once. */
  lemma WhenNumbersAreForwarded(master: int, last: int, ps: seq<Packet>, k: nat)
    ensures var f := Forwarded(master, last, ps);
            && (ForwardsNumber(f, k) <==> exists i: nat :: ClimbsTo(master, last, ps, i, k))
            && (ForwardsTwice(f, k) <==> ClimbsTwice(master, last, ps, k))
  {
    var f := Forwarded(master, last, ps);
    var from := ForwardedAreTheClimbs(master, last, ps);
    if ForwardsNumber(f, k) {
      var a: nat :| a < |f| && f[a].number == k;
      assert ClimbsTo(master, last, ps, from[a], k);
    }
    if i: nat :| ClimbsTo(master, last, ps, i, k) {
      var a: nat :| a < |from| && from[a] == i;
      assert f[a].number == k;
    }
    if ForwardsTwice(f, k) {
      var a: nat, b: nat :| a < b < |f| && f[a].number == k && f[b].number == k;
      assert ClimbsTo(master, last, ps, from[a], k) && ClimbsTo(master, last, ps, from[b], k);
    }
    if ClimbsTwice(master, last, ps, k) {
      TwiceForwarded(master, last, ps, k, from);
    }
  }

  lemma TwiceForwarded(master: int, last: int, ps: seq<Packet>, k: nat, from: seq<nat>)
    requires Names(master, last, ps, from) && ClimbsTwice(master, last, ps, k)
    ensures ForwardsTwice(Forwarded(master, last, ps), k)
  {
    var f := Forwarded(master, last, ps);
    var i: nat, j: nat :| i < j && ClimbsTo(master, last, ps, i, k) && ClimbsTo(master, last, ps, j, k);
    var a: nat :| a < |from| && from[a] == i;
    var b: nat :| b < |from| && from[b] == j;
    assert a < b && f[a].number == k && f[b].number == k;
  }

  /** So reordering breaks it: in 2, 1, 2 the stream climbs to 2 twice. */
  lemma ReorderingForwardsTwice(piste: int, e: Event, f: Event)
    ensures ForwardsTwice(Forwarded(piste, 0, [Packet(piste, 2, e), Packet(piste, 1, f), Packet(piste, 2, e)]), 2)
  {
    var ps := [Packet(piste, 2, e), Packet(piste, 1, f), Packet(piste, 2, e)];
    assert Before(piste, 0, ps, 1) == 2 && Before(piste, 0, ps, 2) == 1;
    assert ClimbsTo(piste, 0, ps, 0, 2) && ClimbsTo(piste, 0, ps, 2, 2);
    WhenNumbersAreForwarded(piste, 0, ps, 2);
  }

  // ---- Arrivals in order ----

  /** The packets of our piste arrive in the order of their numbers, each any number of times or never. */
  predicate ArriveInOrder(master: int, last: int, ps: seq<Packet>) {
    && (forall i: nat, j: nat | i < j < |ps| && ps[i].piste == master && ps[j].piste == master :: ps[i].number <= ps[j].number)
    && (forall i: nat | i < |ps| && ps[i].piste == master :: last <= ps[i].number)
  }

  predicate Increasing(ps: seq<Packet>) { forall i: nat, j: nat | i < j < |ps| :: ps[i].number < ps[j].number }

  predicate Arrives(master: int, ps: seq<Packet>, p: Packet) { p in ps && p.piste == master }

  /** What precedes an arrival is `last` or an earlier arrival of the piste, the latest of them. */
  lemma {:induction false} BeforeIsLatest(master: int, last: int, ps: seq<Packet>, i: nat)
    requires i <= |ps|
    ensures Before(master, last, ps, i) == last || exists h: nat ::
              h < i && ps[h].piste == master && ps[h].number == Before(master, last, ps, i)
    ensures ArriveInOrder(master, last, ps) ==>
            forall h: nat | h < i && ps[h].piste == master :: last <= ps[h].number <= Before(master, last, ps, i)
    ensures ArriveInOrder(master, last, ps) ==> last <= Before(master, last, ps, i)
  {
    if i > 0 {
      BeforeIsLatest(master, last, ps, i - 1);
    }
  }

  /** Only arrived packets are forwarded, and in order only those numbered above the last one. */
  lemma OnlyArrivedForwarded(master: int, last: int, ps: seq<Packet>)
    requires ArriveInOrder(master, last, ps)
    ensures forall p | p in Forwarded(master, last, ps) :: Arrives(master, ps, p) && p.number > last
  {
    var f := Forwarded(master, last, ps);
    var from := ForwardedAreTheClimbs(master, last, ps);
    forall p | p in f
      ensures Arrives(master, ps, p) && p.number > last
    {
      var a: nat :| a < |f| && f[a] == p;
      BeforeIsLatest(master, last, ps, from[a]);
    }
  }

  lemma ForwardedIncreases(master: int, last: int, ps: seq<Packet>)
    requires ArriveInOrder(master, last, ps)
    ensures Increasing(Forwarded(master, last, ps))
  {
    var f := Forwarded(master, last, ps);
    var from := ForwardedAreTheClimbs(master, last, ps);
    forall a: nat, b: nat | a < b < |f|
      ensures f[a].number < f[b].number
    {
      BeforeIsLatest(master, last, ps, from[b]);
    }
  }

  /** Some copy of the packet with this number arrives. */
  ghost predicate ArrivesNumber(master: int, ps: seq<Packet>, k: nat) { exists p :: Arrives(master, ps, p) && p.number == k }

  /** The first copy of a number climbs. */
  lemma {:induction false} FirstCopyClimbs(master: int, last: int, ps: seq<Packet>, k: nat, i: nat) returns (j: nat)
    requires ArriveInOrder(master, last, ps) && i < |ps| && ps[i].piste == master && ps[i].number == k > last
    ensures ClimbsTo(master, last, ps, j, k)
  {
    BeforeIsLatest(master, last, ps, i);
    if Climbs(master, last, ps, i) {
      j := i;
    } else {
      var h: nat :| h < i && ps[h].piste == master && ps[h].number == Before(master, last, ps, i);
      j := FirstCopyClimbs(master, last, ps, k, h);
    }
  }

  /** Over a link that loses and duplicates but does not reorder, number k above `last` is forwarded
      exactly if some copy of it arrives, at most once, and in the order of the numbers. */
  lemma ForwardsOnceInOrder(master: int, last: int, ps: seq<Packet>)
    requires ArriveInOrder(master, last, ps)
    ensures Increasing(Forwarded(master, last, ps))
    ensures forall k: nat :: ForwardsNumber(Forwarded(master, last, ps), k) <==> k > last && ArrivesNumber(master, ps, k)
  {
    ForwardedIncreases(master, last, ps);
    OnlyArrivedForwarded(master, last, ps);
    forall k: nat | k > last && ArrivesNumber(master, ps, k)
      ensures ForwardsNumber(Forwarded(master, last, ps), k)
    {
      var p :| Arrives(master, ps, p) && p.number == k;
      var i: nat :| i < |ps| && ps[i] == p;
      var _ := FirstCopyClimbs(master, last, ps, k, i);
      WhenNumbersAreForwarded(master, last, ps, k);
    }
  }

  /** `arrived` is what the link makes of `sent`: each arrival is a copy of the packet that `from` names,
      and no packet overtakes another; packets may be lost or multiplied. */
  predicate Carried(sent: seq<Packet>, arrived: seq<Packet>, from: seq<nat>) {
    && |from| == |arrived| && (forall i: nat | i < |arrived| :: from[i] < |sent| && arrived[i] == sent[from[i]])
    && forall i: nat, j: nat | i < j < |from| :: from[i] <= from[j]
  }

  /** From the first packet of a new sender to a new receiver: over any such link the receiver forwards
      exactly the numbers above 0 of which a copy arrives, once each, in order, and with each number
      the event that the sender was given under it. */
  lemma ReplicationIsFaithful(piste: int, ops: seq<SenderOp>, arrived: seq<Packet>, from: seq<nat>)
    requires Carried(SenderAfter(NewSender(piste), ops).sent, arrived, from)
    ensures var given, f := SenderAfter(NewSender(piste), ops).given, Forwarded(piste, 0, arrived);
            && Increasing(f) && (forall i: nat | i < |f| :: Genuine(f[i], given))
            && forall k: nat :: ForwardsNumber(f, k) <==> k > 0 && ArrivesNumber(piste, arrived, k)
  {
    var s, f := SenderAfter(NewSender(piste), ops), Forwarded(piste, 0, arrived);
    SentInOrder(piste, ops);
    CarriedInOrder(s.sent, arrived, from, piste);
    ForwardsOnceInOrder(piste, 0, arrived);
    OnlyArrivedForwarded(piste, 0, arrived);
    forall i: nat | i < |f|
      ensures Genuine(f[i], s.given)
    {
      assert f[i] in f;
      var j: nat :| j < |arrived| && arrived[j] == f[i];
      assert arrived[j] == s.sent[from[j]];
    }
  }

  lemma CarriedInOrder(sent: seq<Packet>, arrived: seq<Packet>, from: seq<nat>, master: int)
    requires Carried(sent, arrived, from) && InOrder(sent)
    ensures ArriveInOrder(master, 0, arrived)
  {
    forall i: nat, j: nat | i < j < |arrived|
      ensures arrived[i].number <= arrived[j].number
    {
      assert from[i] <= from[j];
      if from[i] < from[j] {
        assert sent[from[i]].number <= sent[from[j]].number;
      }
    }
  }

  // ---- Mirroring ----

  function MirroredMain(main: nat): nat {
    match main
    case 0x07 => SCORE_RIGHT
    case 0x08 => SCORE_LEFT
    case 0x0a => YELLOW_RIGHT
    case 0x0b => YELLOW_LEFT
    case 0x0c => RED_RIGHT
    case 0x0d => RED_LEFT
    case _ => main
  }

  /** The two lowest bytes exchanged. */
  function BytesSwapped(data: nat): nat {
    data / 0x1_0000 * 0x1_0000 + data % 0x100 * 0x100 + data / 0x100 % 0x100
  }

  /** What a mirroring receiver makes of an event other than the lights. */
  function Mirrored(e: Event): Event {
    match e.main
    case 0x09 => Event(PRIO, if e.data == 1 then 2 else if e.data == 2 then 1 else e.data)
    case 0x12 => Event(P_CARD, BytesSwapped(e.data))
    case _ => Event(MirroredMain(e.main), e.data)
  }

  /** The lights of a mirrored display: sides exchanged, marked as reversed, without buzzer. */
  function SwapLights(l: Mask): Mask {
    {ReverseColors} + (set x | x in l && x in {Red, Green, WhiteL, WhiteR, OrangeL, OrangeR} :: Opposite(x))
  }

  function Opposite(x: Light): Light {
    match x
    case Red => Green
    case Green => Red
    case WhiteL => WhiteR
    case WhiteR => WhiteL
    case OrangeL => OrangeR
    case OrangeR => OrangeL
    case _ => x
  }

  /** Each light of a fencer shows on the other side, and mirroring twice gives them back. */
  lemma SwapIsMirror(l: Mask, x: Light)
    requires x in {Red, Green, WhiteL, WhiteR, OrangeL, OrangeR}
    ensures Opposite(x) in SwapLights(l) <==> x in l
    ensures x in SwapLights(SwapLights(l)) <==> x in l
  {
    OppositeTwice(x);
    assert Opposite(x) in SwapLights(l) <==> x in l by {
      if Opposite(x) in SwapLights(l) {
        var y :| y in l && y in {Red, Green, WhiteL, WhiteR, OrangeL, OrangeR} && Opposite(y) == Opposite(x);
        OppositeTwice(y);
      }
    }
    if x in SwapLights(SwapLights(l)) {
      var y :| y in SwapLights(l) && y in {Red, Green, WhiteL, WhiteR, OrangeL, OrangeR} && Opposite(y) == x;
      OppositeTwice(y);
    }
  }

  lemma OppositeTwice(x: Light)
    ensures Opposite(Opposite(x)) == x
  {
  }

  // ---- The display at the other end ----

  /** What the displays keep of the events: of cards only whether there are any. */
  datatype Replica = Replica(scoreLeft: nat, scoreRight: nat, yellowLeft: bool, yellowRight: bool, redLeft: bool, redRight: bool,
                             pCardLeft: nat, pCardRight: nat, round: nat, rounds: nat,
                             minutes: nat, seconds: nat, hundredths: nat)

  /** A count of P-cards that the display knows replaces the one shown. */
  function PCardShown(before: nat, count: nat): nat { if count in {0, 1, 2, 4} then count else before }

  function Shown(r: Replica, e: Event): Replica {
    match e.main
    case 0x07 => r.(scoreLeft := e.data)
    case 0x08 => r.(scoreRight := e.data)
    case 0x0a => r.(yellowLeft := e.data != 0)
    case 0x0b => r.(yellowRight := e.data != 0)
    case 0x0c => r.(redLeft := e.data != 0)
    case 0x0d => r.(redRight := e.data != 0)
    case 0x12 =>
      r.(pCardLeft := PCardShown(r.pCardLeft, e.data % 0x100), pCardRight := PCardShown(r.pCardRight, e.data / 0x100 % 0x100))
    case 0x02 => r.(round := e.data % 0x100, rounds := e.data / 0x100 % 0x100)
    case 0x01 => r.(minutes := e.data / 0x1_0000 % 0x100, seconds := e.data / 0x100 % 0x100, hundredths := e.data % 0x100)
    case _ => r
  }

  function AllShown(r: Replica, mirror: bool, es: seq<Event>): Replica {
    if es == [] then r
    else Shown(AllShown(r, mirror, es[..|es| - 1]), if mirror then Mirrored(es[|es| - 1]) else es[|es| - 1])
  }

  // ---- The full broadcast ----

  /** The counts fit the bytes of their events. */
  predicate Fits(m: Match) {
    && 0 <= m.left.score < TYPE && 0 <= m.right.score < TYPE
    && 0 <= m.left.yellow < TYPE && 0 <= m.right.yellow < TYPE && 0 <= m.left.red < TYPE && 0 <= m.right.red < TYPE
    && 0 <= m.left.pCard < 0x100 && 0 <= m.right.pCard < 0x100
    && 0 <= m.period.round < 0x100 && 0 <= m.period.rounds < 0x100
  }

  function StateEvents(m: Match): (es: seq<Event>)
    requires Fits(m)
    ensures |es| == 9
  {
    [Event(SCORE_LEFT, m.left.score), Event(YELLOW_LEFT, m.left.yellow), Event(RED_LEFT, m.left.red),
     Event(P_CARD, m.left.pCard + m.right.pCard * 0x100),
     Event(SCORE_RIGHT, m.right.score), Event(YELLOW_RIGHT, m.right.yellow), Event(RED_RIGHT, m.right.red),
     Event(ROUND, m.period.round + m.period.rounds * 0x100),
     Event(TIMER, m.clock.minutes * 0x1_0000 + m.clock.seconds * 0x100 + m.clock.hundredths)]
  }

  /** Every call sends the lights; every seventh one also sends the state, if the clock stands still. */
  function Broadcast(m: Match, lights: nat, divider: nat): seq<Event>
    requires Fits(m)
  {
    [Event(LIGHTS, lights)] + if divider == 1 && !m.clock.running then StateEvents(m) else []
  }

  function DividerAfter(divider: nat): nat
    requires divider > 0
  {
    if divider == 1 then DIVIDER else divider - 1
  }

  /** The sending side of the broadcast. */
  class Broadcaster {
    var lowPrioDivider: nat

    constructor ()
      ensures lowPrioDivider == DIVIDER
    {
      lowPrioDivider := DIVIDER;
    }

    method TransmitFullStateToDisplay(m: Match, lights: nat, sender: RepeaterSender)
      requires Fits(m) && lowPrioDivider > 0
      modifies this, sender
      ensures lowPrioDivider == DividerAfter(old(lowPrioDivider))
      ensures sender.given == old(sender.given) + Broadcast(m, lights, old(lowPrioDivider))
      ensures sender.currentNewMessageCount == old(sender.currentNewMessageCount) + |Broadcast(m, lights, old(lowPrioDivider))|
    {
      sender.Update(Event(LIGHTS, lights));
      lowPrioDivider := lowPrioDivider - 1;
      if lowPrioDivider != 0 {
        return;
      }
      lowPrioDivider := DIVIDER;
      if m.clock.running {
        return;
      }
      var es := StateEvents(m);
      for i := 0 to |es|
        invariant lowPrioDivider == DIVIDER
        invariant sender.given == old(sender.given) + [Event(LIGHTS, lights)] + es[..i]
        invariant sender.currentNewMessageCount == old(sender.currentNewMessageCount) + 1 + i
      {
        sender.Update(es[i]);
        assert es[..i] + [es[i]] == es[..i + 1];
      }
      assert es[..|es|] == es;
      assert old(sender.given) + [Event(LIGHTS, lights)] + es == old(sender.given) + ([Event(LIGHTS, lights)] + es);
    }
  }

  /** The replica agrees with the machine, seen from the other side if it mirrors. */
  predicate Agrees(r: Replica, m: Match, mirror: bool) {
    var l, g := if mirror then m.right else m.left, if mirror then m.left else m.right;
    && r.scoreLeft == l.score && r.scoreRight == g.score
    && r.yellowLeft == (l.yellow != 0) && r.yellowRight == (g.yellow != 0)
    && r.redLeft == (l.red != 0) && r.redRight == (g.red != 0)
    && (l.pCard in {0, 1, 2, 4} ==> r.pCardLeft == l.pCard) && (g.pCard in {0, 1, 2, 4} ==> r.pCardRight == g.pCard)
    && r.round == m.period.round && r.rounds == m.period.rounds
    && r.minutes == m.clock.minutes && r.seconds == m.clock.seconds && r.hundredths == m.clock.hundredths
  }

  lemma LowByte(a: nat, b: nat)
    requires a < 0x100
    ensures (a + b * 0x100) % 0x100 == a && (a + b * 0x100) / 0x100 == b
  {
  }

  lemma LowBytes(a: nat, b: nat)
    requires a < 0x100 && b < 0x100
    ensures (a + b * 0x100) % 0x100 == a && (a + b * 0x100) / 0x100 % 0x100 == b
    ensures BytesSwapped(a + b * 0x100) == b + a * 0x100
  {
    LowByte(a, b);
  }

  lemma ThreeBytes(a: nat, b: nat, c: nat)
    requires a < 0x100 && b < 0x100 && c < 0x100
    ensures var d := a * 0x1_0000 + b * 0x100 + c;
            d / 0x1_0000 % 0x100 == a && d / 0x100 % 0x100 == b && d % 0x100 == c
  {
    var d := a * 0x1_0000 + b * 0x100 + c;
    assert d == c + (a * 0x100 + b) * 0x100;
    LowByte(c, a * 0x100 + b);
    LowByte(b, a);
    assert d / 0x1_0000 == a;
  }

  lemma ShownLast(r: Replica, mirror: bool, es: seq<Event>, e: Event)
    ensures AllShown(r, mirror, es + [e]) == Shown(AllShown(r, mirror, es), if mirror then Mirrored(e) else e)
  {
    assert (es + [e])[..|es|] == es;
  }

  lemma PCardsShown(r: Replica, p: nat, q: nat, mirror: bool)
    requires p < 0x100 && q < 0x100
    ensures var e := Event(P_CARD, p + q * 0x100);
            Shown(r, if mirror then Mirrored(e) else e) ==
            r.(pCardLeft := PCardShown(r.pCardLeft, if mirror then q else p),
               pCardRight := PCardShown(r.pCardRight, if mirror then p else q))
  {
    LowBytes(p, q);
    LowBytes(q, p);
  }

  /** What the first three events leave on the replica. */
  lemma LeftColumnShown(r: Replica, m: Match, mirror: bool)
    requires Fits(m)
    ensures AllShown(r, mirror, StateEvents(m)[..3]) ==
            if mirror then r.(scoreRight := m.left.score, yellowRight := m.left.yellow != 0, redRight := m.left.red != 0)
            else r.(scoreLeft := m.left.score, yellowLeft := m.left.yellow != 0, redLeft := m.left.red != 0)
  {
    var es := StateEvents(m);
    Prefixes(es);
    ShownLast(r, mirror, es[..2], es[2]);
    ShownLast(r, mirror, es[..1], es[1]);
    ShownLast(r, mirror, es[..0], es[0]);
  }

  /** What the events of the left side, and the P-cards, leave on the replica. */
  lemma LeftShown(r: Replica, m: Match, mirror: bool)
    requires Fits(m)
    ensures var s := AllShown(r, mirror, StateEvents(m)[..4]);
            var t := if mirror
                     then r.(scoreRight := m.left.score, yellowRight := m.left.yellow != 0, redRight := m.left.red != 0)
                     else r.(scoreLeft := m.left.score, yellowLeft := m.left.yellow != 0, redLeft := m.left.red != 0);
            s == t.(pCardLeft := PCardShown(r.pCardLeft, if mirror then m.right.pCard else m.left.pCard),
                    pCardRight := PCardShown(r.pCardRight, if mirror then m.left.pCard else m.right.pCard))
  {
    var es := StateEvents(m);
    Prefixes(es);
    LeftColumnShown(r, m, mirror);
    ShownLast(r, mirror, es[..3], es[3]);
    PCardsShown(AllShown(r, mirror, es[..3]), m.left.pCard, m.right.pCard, mirror);
  }

  lemma Prefixes(es: seq<Event>)
    ensures forall i: nat | i < |es| :: es[..i + 1] == es[..i] + [es[i]]
  {
  }

  lemma RightShown(r: Replica, m: Match, mirror: bool)
    requires Fits(m)
    ensures var s, t := AllShown(r, mirror, StateEvents(m)[..4]), AllShown(r, mirror, StateEvents(m)[..7]);
            t == if mirror
                 then s.(scoreLeft := m.right.score, yellowLeft := m.right.yellow != 0, redLeft := m.right.red != 0)
                 else s.(scoreRight := m.right.score, yellowRight := m.right.yellow != 0, redRight := m.right.red != 0)
  {
    var es := StateEvents(m);
    Prefixes(es);
    ShownLast(r, mirror, es[..6], es[6]);
    ShownLast(r, mirror, es[..5], es[5]);
    ShownLast(r, mirror, es[..4], es[4]);
  }

  lemma TimesShown(r: Replica, m: Match, mirror: bool)
    requires Fits(m)
    ensures AllShown(r, mirror, StateEvents(m)) ==
            AllShown(r, mirror, StateEvents(m)[..7]).(
              round := m.period.round, rounds := m.period.rounds,
              minutes := m.clock.minutes, seconds := m.clock.seconds, hundredths := m.clock.hundredths)
  {
    var es := StateEvents(m);
    LowBytes(m.period.round, m.period.rounds);
    ThreeBytes(m.clock.minutes, m.clock.seconds, m.clock.hundredths);
    Prefixes(es);
    assert es[..9] == es;
    ShownLast(r, mirror, es[..8], es[8]);
    ShownLast(r, mirror, es[..7], es[7]);
  }

  /** The state events bring any replica into agreement. */
  lemma StateEventsAgree(r: Replica, m: Match, mirror: bool)
    requires Fits(m)
    ensures Agrees(AllShown(r, mirror, StateEvents(m)), m, mirror)
  {
    LeftShown(r, m, mirror);
    RightShown(r, m, mirror);
    TimesShown(r, m, mirror);
  }

  // ---- A broadcast over the link ----

  /** The arrivals are those of a broadcast numbered from `first` on, from which nothing is missing:
      copies in order, at least one of each number. */
  ghost predicate LossFree(master: int, ps: seq<Packet>, es: seq<Event>, first: nat) {
    && (forall i: nat | i < |ps| && ps[i].piste == master ::
          first <= ps[i].number < first + |es| && ps[i].event == es[ps[i].number - first])
    && (forall i: nat, j: nat | i < j < |ps| && ps[i].piste == master && ps[j].piste == master :: ps[i].number <= ps[j].number)
    && (forall k: nat | first <= k < first + |es| :: ArrivesNumber(master, ps, k))
  }

  function Events(ps: seq<Packet>): (es: seq<Event>)
    ensures |es| == |ps| && forall i: nat | i < |ps| :: es[i] == ps[i].event
  {
    seq(|ps|, i requires 0 <= i < |ps| => ps[i].event)
  }

  predicate InRange(f: seq<Packet>, first: nat, n: nat) { forall i: nat | i < |f| :: first <= f[i].number < first + n }

  /** Increasing numbers that are exactly those from `first` to `first` + n - 1 are consecutive. */
  lemma {:induction false} Consecutive(f: seq<Packet>, first: nat, n: nat)
    requires Increasing(f) && InRange(f, first, n)
    requires forall k: nat | first <= k < first + n :: ForwardsNumber(f, k)
    ensures |f| == n && forall i: nat | i < n :: f[i].number == first + i
  {
    assert f == [] || first <= f[0].number < first + n;
    if n > 0 {
      assert ForwardsNumber(f, first);
      var i: nat :| i < |f| && f[i].number == first;
      assert f[0].number == first;
      forall k: nat | first + 1 <= k < first + n
        ensures ForwardsNumber(f[1..], k)
      {
        assert ForwardsNumber(f, k);
        var j: nat :| j < |f| && f[j].number == k;
        assert f[1..][j - 1] == f[j];
      }
      Consecutive(f[1..], first + 1, n - 1);
      assert forall j: nat | j < n - 1 :: f[1..][j] == f[j + 1];
    }
  }

  lemma LossFreeForwardsAll(master: int, last: int, ps: seq<Packet>, es: seq<Event>, first: nat)
    requires LossFree(master, ps, es, first) && last < first
    ensures Events(Forwarded(master, last, ps)) == es
  {
    var f := Forwarded(master, last, ps);
    LossFreeForwards(master, last, ps, es, first);
    Consecutive(f, first, |es|);
  }

  lemma LossFreeForwards(master: int, last: int, ps: seq<Packet>, es: seq<Event>, first: nat)
    requires LossFree(master, ps, es, first) && last < first
    ensures var f := Forwarded(master, last, ps);
            && Increasing(f)
            && InRange(f, first, |es|) && (forall i: nat | i < |f| :: f[i].event == es[f[i].number - first])
            && (forall k: nat | first <= k < first + |es| :: ForwardsNumber(f, k))
  {
    assert ArriveInOrder(master, last, ps);
    ForwardsOnceInOrder(master, last, ps);
    OnlyArrivedForwarded(master, last, ps);
    var f := Forwarded(master, last, ps);
    forall i: nat | i < |f|
      ensures first <= f[i].number < first + |es| && f[i].event == es[f[i].number - first]
    {
      assert f[i] in f;
      var j :| 0 <= j < |ps| && ps[j] == f[i];
    }
  }

  /** After one full broadcast that loses nothing, with the clock standing still, the display agrees with
      the machine, whatever it had missed before, and up to the mirroring it is set to. */
  lemma BroadcastSynchronises(m: Match, lights: nat, divider: nat, r: Replica, mirror: bool,
                              master: int, last: int, ps: seq<Packet>, first: nat)
    requires Fits(m) && divider == 1 && !m.clock.running && last < first
    requires LossFree(master, ps, Broadcast(m, lights, divider), first)
    ensures Agrees(AllShown(r, mirror, Events(Forwarded(master, last, ps))), m, mirror)
  {
    var es := Broadcast(m, lights, divider);
    LossFreeForwardsAll(master, last, ps, es, first);
    LightsFirst(r, mirror, lights, StateEvents(m));
    StateEventsAgree(r, m, mirror);
  }

  /** Lights do not touch what the displays keep. */
  lemma {:induction false} LightsFirst(r: Replica, mirror: bool, lights: nat, es: seq<Event>)
    ensures AllShown(r, mirror, [Event(LIGHTS, lights)] + es) == AllShown(r, mirror, es)
  {
    var all := [Event(LIGHTS, lights)] + es;
    if es == [] {
      assert all[..|all| - 1] == [];
    } else {
      LightsFirst(r, mirror, lights, es[..|es| - 1]);
      assert all[..|all| - 1] == [Event(LIGHTS, lights)] + es[..|es| - 1];
    }
  }
}
