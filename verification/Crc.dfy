/** CRC-8 as in the Packet Error Checking of the SMBus Specification (section 6.4): polynomial 0x07, start value 0. */
module Crc {

  /** A byte as its bits. */
  datatype Octet = Octet(b7: bool, b6: bool, b5: bool, b4: bool, b3: bool, b2: bool, b1: bool, b0: bool)

  type Message = seq<Octet>

  const Zero := Octet(false, false, false, false, false, false, false, false)

  function Plus(x: Octet, y: Octet): Octet {
    Octet(x.b7 != y.b7, x.b6 != y.b6, x.b5 != y.b5, x.b4 != y.b4, x.b3 != y.b3, x.b2 != y.b2, x.b1 != y.b1, x.b0 != y.b0)
  }

  /** One shift of the register: a bit that drops out comes back as x^2 + x + 1. */
  function Round(c: Octet): Octet {
    Octet(c.b6, c.b5, c.b4, c.b3, c.b2, c.b1 != c.b7, c.b0 != c.b7, c.b7)
  }

  function Rounds(c: Octet, n: nat): Octet {
    if n == 0 then c else Round(Rounds(c, n - 1))
  }

  function Crc8(m: Message): Octet {
    if m == [] then Zero else Rounds(Plus(Crc8(m[..|m| - 1]), m[|m| - 1]), 8)
  }

  // ---- The register loop ----

  predicate Bit(x: bv8, i: nat)
    requires i < 8
  {
    (x >> i) & 1 == 1
  }

  function Bits(x: bv8): Octet {
    Octet(Bit(x, 7), Bit(x, 6), Bit(x, 5), Bit(x, 4), Bit(x, 3), Bit(x, 2), Bit(x, 1), Bit(x, 0))
  }

  function AllBits(data: seq<bv8>): Message {
    seq(|data|, i requires 0 <= i < |data| => Bits(data[i]))
  }

  lemma BitOfXor(x: bv8, y: bv8, i: nat)
    requires i < 8
    ensures Bit(x ^ y, i) == (Bit(x, i) != Bit(y, i))
  {
    assert i == 0 || i == 1 || i == 2 || i == 3 || i == 4 || i == 5 || i == 6 || i == 7;
  }

  lemma BitsOfXor(x: bv8, y: bv8)
    ensures Bits(x ^ y) == Plus(Bits(x), Bits(y))
  {
    BitOfXor(x, y, 0);
    BitOfXor(x, y, 1);
    BitOfXor(x, y, 2);
    BitOfXor(x, y, 3);
    BitOfXor(x, y, 4);
    BitOfXor(x, y, 5);
    BitOfXor(x, y, 6);
    BitOfXor(x, y, 7);
  }

  lemma BitsOfRound(c: bv8)
    ensures Bits(if c & 0x80 != 0 then (c << 1) ^ 0x07 else c << 1) == Round(Bits(c))
  {
  }

  /** Bits lose nothing. */
  lemma BitsAreTheByte(x: bv8, y: bv8)
    ensures Bits(x) == Bits(y) <==> x == y
  {
    if x != y {
      XorShows(x ^ y);
      BitsOfXor(x, y);
    }
  }

  lemma XorShows(x: bv8)
    ensures Bits(x) == Zero <==> x == 0
  {
  }

  /** Bytes are folded into the register and shifted out bit by bit. */
  method Crc8Smbus(data: seq<bv8>, len: nat) returns (crc: bv8)
    requires len <= |data|
    ensures Bits(crc) == Crc8(AllBits(data[..len]))
  {
    crc := 0;
    for i := 0 to len
      invariant Bits(crc) == Crc8(AllBits(data[..i]))
    {
      BitsOfXor(crc, data[i]);
      crc := crc ^ data[i];
      ghost var folded := Bits(crc);
      for b := 0 to 8
        invariant Bits(crc) == Rounds(folded, b)
      {
        BitsOfRound(crc);
        crc := if crc & 0x80 != 0 then (crc << 1) ^ 0x07 else crc << 1;
      }
      assert AllBits(data[..i + 1])[..i] == AllBits(data[..i]);
    }
  }

  // ---- Linearity ----

  function Sum(a: Message, b: Message): (x: Message)
    requires |a| == |b|
    ensures |x| == |a| && forall i: nat | i < |a| :: x[i] == Plus(a[i], b[i])
  {
    seq(|a|, i requires 0 <= i < |a| => Plus(a[i], b[i]))
  }

  lemma RoundLinear(x: Octet, y: Octet)
    ensures Round(Plus(x, y)) == Plus(Round(x), Round(y))
  {
  }

  lemma {:induction false} RoundsLinear(x: Octet, y: Octet, n: nat)
    ensures Rounds(Plus(x, y), n) == Plus(Rounds(x, n), Rounds(y, n))
  {
    if n > 0 {
      RoundsLinear(x, y, n - 1);
      RoundLinear(Rounds(x, n - 1), Rounds(y, n - 1));
    }
  }

  lemma PlusSwaps(a: Octet, b: Octet, c: Octet, d: Octet)
    ensures Plus(Plus(a, b), Plus(c, d)) == Plus(Plus(a, c), Plus(b, d))
  {
  }

  /** The CRC of a bitwise sum is the sum of the CRCs. */
  lemma {:induction false} CrcLinear(a: Message, b: Message)
    requires |a| == |b|
    ensures Crc8(Sum(a, b)) == Plus(Crc8(a), Crc8(b))
  {
    if a != [] {
      var n := |a| - 1;
      CrcLinear(a[..n], b[..n]);
      assert Sum(a, b)[..n] == Sum(a[..n], b[..n]);
      PlusSwaps(Crc8(a[..n]), Crc8(b[..n]), a[n], b[n]);
      RoundsLinear(Plus(Crc8(a[..n]), a[n]), Plus(Crc8(b[..n]), b[n]), 8);
    }
  }

  // ---- Zero remainders ----

  lemma {:induction false} RoundsZero(c: Octet, n: nat)
    ensures Rounds(c, n) == Zero <==> c == Zero
  {
    if n > 0 {
      RoundsZero(c, n - 1);
    }
  }

  lemma PlusZero(x: Octet, y: Octet)
    ensures Plus(x, y) == Zero <==> x == y
  {
  }

  /** A message followed by a byte leaves remainder zero exactly when that byte is its CRC. */
  lemma ZeroRemainder(m: Message, c: Octet)
    ensures Crc8(m + [c]) == Zero <==> c == Crc8(m)
  {
    assert (m + [c])[..|m|] == m;
    RoundsZero(Plus(Crc8(m), c), 8);
    PlusZero(Crc8(m), c);
  }

  /** A byte leaves remainder zero exactly if it equals the register. */
  lemma FoldedZero(c: Octet, x: Octet)
    ensures Rounds(Plus(c, x), 8) == Zero <==> c == x
  {
    RoundsZero(Plus(c, x), 8);
    PlusZero(c, x);
  }

  lemma LastFolded(m: Message)
    requires m != []
    ensures Crc8(m) == Zero <==> Crc8(m[..|m| - 1]) == m[|m| - 1]
  {
    FoldedZero(Crc8(m[..|m| - 1]), m[|m| - 1]);
  }

  lemma PlusNothing(c: Octet)
    ensures Plus(Zero, c) == c == Plus(c, Zero)
  {
  }

  lemma LastByte(m: Message)
    requires m != []
    ensures Crc8(m[..|m| - 1]) == Zero ==> Crc8(m) == Rounds(m[|m| - 1], 8)
    ensures m[|m| - 1] == Zero ==> Crc8(m) == Rounds(Crc8(m[..|m| - 1]), 8)
  {
    PlusNothing(m[|m| - 1]);
    PlusNothing(Crc8(m[..|m| - 1]));
  }

  lemma {:induction false} ZerosHaveZeroCrc(m: Message)
    requires forall i: nat | i < |m| :: m[i] == Zero
    ensures Crc8(m) == Zero
  {
    if m != [] {
      ZerosHaveZeroCrc(m[..|m| - 1]);
      LastFolded(m);
    }
  }

  /** An error in a single byte is never invisible. */
  lemma {:induction false} SingleErrorShows(e: Message, i: nat)
    requires i < |e| && e[i] != Zero && forall j: nat | j < |e| && j != i :: e[j] == Zero
    ensures Crc8(e) != Zero
  {
    var n := |e| - 1;
    LastFolded(e);
    if i == n {
      ZerosHaveZeroCrc(e[..n]);
    } else {
      SingleErrorShows(e[..n], i);
    }
  }

  // ---- Parity ----

  function One(b: bool): nat { if b then 1 else 0 }

  function Weight(x: Octet): nat {
    One(x.b7) + One(x.b6) + One(x.b5) + One(x.b4) + One(x.b3) + One(x.b2) + One(x.b1) + One(x.b0)
  }

  /** The number of ones in a message. */
  function Ones(m: Message): nat {
    if m == [] then 0 else Ones(m[..|m| - 1]) + Weight(m[|m| - 1])
  }

  predicate Odd(x: Octet) {
    ((x.b7 != x.b6) != (x.b5 != x.b4)) != ((x.b3 != x.b2) != (x.b1 != x.b0))
  }

  lemma OddWeight(x: Octet)
    ensures Odd(x) <==> Weight(x) % 2 == 1
  {
    assert (One(x.b7) + One(x.b6)) % 2 == 1 <==> x.b7 != x.b6;
    assert (One(x.b5) + One(x.b4)) % 2 == 1 <==> x.b5 != x.b4;
    assert (One(x.b3) + One(x.b2)) % 2 == 1 <==> x.b3 != x.b2;
    assert (One(x.b1) + One(x.b0)) % 2 == 1 <==> x.b1 != x.b0;
  }

  lemma OddPlus(x: Octet, y: Octet)
    ensures Odd(Plus(x, y)) == (Odd(x) != Odd(y))
  {
  }

  lemma {:induction false} RoundsKeepParity(c: Octet, n: nat)
    ensures Odd(Rounds(c, n)) == Odd(c)
  {
    if n > 0 {
      RoundsKeepParity(c, n - 1);
    }
  }

  lemma OddStep(c: Octet, x: Octet)
    ensures Odd(Rounds(Plus(c, x), 8)) <==> (Odd(c) != (Weight(x) % 2 == 1))
  {
    RoundsKeepParity(Plus(c, x), 8);
    OddPlus(c, x);
    OddWeight(x);
  }

  lemma OddSum(a: nat, b: nat)
    ensures (a + b) % 2 == 1 <==> (a % 2 == 1) != (b % 2 == 1)
  {
  }

  /** The CRC has an odd number of ones exactly when the message has. */
  lemma {:induction false} CrcKeepsParity(m: Message)
    ensures Odd(Crc8(m)) <==> Ones(m) % 2 == 1
  {
    if m != [] {
      var before, x := m[..|m| - 1], m[|m| - 1];
      CrcKeepsParity(before);
      OddStep(Crc8(before), x);
      OddSum(Ones(before), Weight(x));
    }
  }

  // ---- Bursts ----

  /** No bit stands at or above place `k`. */
  predicate Below(x: Octet, k: nat) {
    && (k < 1 ==> !x.b0) && (k < 2 ==> !x.b1) && (k < 3 ==> !x.b2) && (k < 4 ==> !x.b3)
    && (k < 5 ==> !x.b4) && (k < 6 ==> !x.b5) && (k < 7 ==> !x.b6) && (k < 8 ==> !x.b7)
  }

  /** No bit stands below place `k`. */
  predicate NotBelow(x: Octet, k: nat) {
    && (k > 0 ==> !x.b0) && (k > 1 ==> !x.b1) && (k > 2 ==> !x.b2) && (k > 3 ==> !x.b3)
    && (k > 4 ==> !x.b4) && (k > 5 ==> !x.b5) && (k > 6 ==> !x.b6) && (k > 7 ==> !x.b7)
  }

  function EightRounds(c: Octet): Octet { Round(Round(Round(Round(Round(Round(Round(Round(c)))))))) }

  lemma RoundsAreEight(c: Octet)
    ensures Rounds(c, 8) == EightRounds(c)
  {
    FourRounds(c);
    FourRounds(Rounds(c, 4));
    RoundsAdd(c, 4, 4);
  }

  lemma FourRounds(c: Octet)
    ensures Rounds(c, 4) == Round(Round(Round(Round(c))))
  {
    assert Rounds(c, 1) == Round(c);
    assert Rounds(c, 2) == Round(Round(c));
    assert Rounds(c, 3) == Round(Round(Round(c)));
  }

  lemma {:induction false} RoundsAdd(c: Octet, m: nat, n: nat)
    ensures Rounds(Rounds(c, m), n) == Rounds(c, m + n)
  {
    if n > 0 {
      RoundsAdd(c, m, n - 1);
    }
  }

  /** Eight rounds never turn the start of a burst of at most eight bits into its end. */
  lemma BurstStays(x: Octet, y: Octet, k: nat)
    requires k <= 8 && Below(x, k) && NotBelow(y, k) && (x != Zero || y != Zero)
    ensures EightRounds(x) != y
  {
  }

  /** All wrong bits lie within eight consecutive ones: the last `k` of byte `i` and the first `8 - k`
      of the next. */
  predicate Burst(e: Message, i: nat, k: nat) {
    && i + 1 < |e| && k <= 8 && Below(e[i], k) && NotBelow(e[i + 1], k) && (e[i] != Zero || e[i + 1] != Zero)
    && forall j: nat | j < |e| && j != i && j != i + 1 :: e[j] == Zero
  }

  lemma BurstNotCancelled(x: Octet, y: Octet, k: nat)
    requires k <= 8 && Below(x, k) && NotBelow(y, k) && (x != Zero || y != Zero)
    ensures Rounds(x, 8) != y
  {
    RoundsAreEight(x);
    BurstStays(x, y, k);
  }

  lemma BurstAtEnd(e: Message, i: nat, k: nat)
    requires Burst(e, i, k) && i + 2 == |e|
    ensures Crc8(e[..i + 1]) != e[i + 1]
  {
    var before := e[..i + 1];
    ZerosHaveZeroCrc(before[..i]);
    LastByte(before);
    BurstNotCancelled(e[i], e[i + 1], k);
  }

  lemma {:induction false} BurstShows(e: Message, i: nat, k: nat)
    requires Burst(e, i, k)
    ensures Crc8(e) != Zero
  {
    LastFolded(e);
    if i + 2 == |e| {
      BurstAtEnd(e, i, k);
    } else {
      BurstShows(e[..|e| - 1], i, k);
    }
  }

  // ---- Two wrong bits ----

  const Lowest := Octet(false, false, false, false, false, false, false, true)

  lemma RoundsInjective(x: Octet, y: Octet, n: nat)
    requires Rounds(x, n) == Rounds(y, n)
    ensures x == y
  {
    RoundsLinear(x, y, n);
    PlusZero(Rounds(x, n), Rounds(y, n));
    RoundsZero(Plus(x, y), n);
    PlusZero(x, y);
  }

  function Shifted(c: bv8): bv8 { if c & 0x80 != 0 then (c << 1) ^ 0x07 else c << 1 }

  function Shifts(c: bv8, n: nat): bv8 {
    if n == 0 then c else Shifted(Shifts(c, n - 1))
  }

  lemma {:induction false} ShiftsAreRounds(c: bv8, n: nat)
    ensures Bits(Shifts(c, n)) == Rounds(Bits(c), n)
  {
    if n > 0 {
      ShiftsAreRounds(c, n - 1);
      BitsOfRound(Shifts(c, n - 1));
    }
  }

  lemma NextFour(n: nat)
    ensures Shifts(1, n + 4) == Shifted(Shifted(Shifted(Shifted(Shifts(1, n)))))
  {
    assert Shifts(1, n + 2) == Shifted(Shifted(Shifts(1, n)));
    assert Shifts(1, n + 3) == Shifted(Shifts(1, n + 2));
  }

  /** The register after whole bytes of shifts of a single one. */
  function Eights(d: nat): bv8
    requires 1 <= d <= 6
  {
    match d case 1 => 0x07 case 2 => 0x15 case 3 => 0x6b case 4 => 0x16 case 5 => 0x62 case 6 => 0x29
  }

  function FourShifts(c: bv8): bv8 { Shifted(Shifted(Shifted(Shifted(c)))) }

  lemma EightByEight(d: nat)
    requires 1 <= d < 6
    ensures FourShifts(FourShifts(Eights(d))) == Eights(d + 1) && FourShifts(FourShifts(1)) == Eights(1)
  {
  }

  lemma {:induction false} ShiftsByEight(d: nat)
    requires 1 <= d <= 6
    ensures Shifts(1, 8 * d) == Eights(d)
  {
    NextFour(8 * (d - 1));
    NextFour(8 * (d - 1) + 4);
    EightByEight(if d == 1 then 1 else d - 1);
    if d > 1 {
      ShiftsByEight(d - 1);
    }
  }

  lemma FirstShifts(q: nat)
    requires q < 8
    ensures Shifts(1, q) == 1 << q
  {
    assert Shifts(1, 1) == 2;
    assert Shifts(1, 2) == 4;
    assert Shifts(1, 3) == 8;
    assert Shifts(1, 4) == 16;
    assert Shifts(1, 5) == 32;
    assert Shifts(1, 6) == 64;
    assert Shifts(1, 7) == 128;
    assert q == 0 || q == 1 || q == 2 || q == 3 || q == 4 || q == 5 || q == 6 || q == 7;
  }

  lemma EightsAreNoBits(d: nat, q: nat)
    requires 1 <= d <= 6 && q < 8
    ensures Eights(d) != 1 << q
  {
    assert q == 0 || q == 1 || q == 2 || q == 3 || q == 4 || q == 5 || q == 6 || q == 7;
  }

  lemma {:induction false} ShiftsAdd(m: nat, n: nat)
    ensures Shifts(Shifts(1, m), n) == Shifts(1, m + n)
  {
    if n > 0 {
      ShiftsAdd(m, n - 1);
    }
  }

  /** No shift by 1 to 47 brings a single one back. */
  lemma ShiftsNeverBack(n: nat)
    requires 1 <= n < 48
    ensures Shifts(1, n) != 1
  {
    var d, t := n / 8, n % 8;
    if t == 0 {
      ShiftsByEight(d);
      EightsAreNoBits(d, 0);
    } else {
      ShiftsAdd(n, 8 - t);
      ShiftsByEight(d + 1);
      FirstShifts(8 - t);
      EightsAreNoBits(d + 1, 8 - t);
      assert n + (8 - t) == 8 * (d + 1);
    }
  }

  lemma OneIsPower(x: Octet) returns (q: nat)
    requires Weight(x) == 1
    ensures q < 8 && x == Rounds(Lowest, q)
  {
    q := if x.b0 then 0 else if x.b1 then 1 else if x.b2 then 2 else if x.b3 then 3
         else if x.b4 then 4 else if x.b5 then 5 else if x.b6 then 6 else 7;
    FourRounds(Lowest);
    if q > 4 {
      RoundsAdd(Lowest, 4, q - 4);
    }
  }

  lemma NeverBack(n: nat)
    requires 1 <= n < 48
    ensures Rounds(Lowest, n) != Lowest
  {
    ShiftsNeverBack(n);
    ShiftsAreRounds(1, n);
    BitsAreTheByte(Shifts(1, n), 1);
  }

  /** Between 8 and 47 shifts a single one never becomes a single bit. */
  lemma NoSingleBitAgain(m: nat)
    requires 8 <= m < 48
    ensures Weight(Rounds(Lowest, m)) != 1
  {
    if Weight(Rounds(Lowest, m)) == 1 {
      var q := OneIsPower(Rounds(Lowest, m));
      RoundsAdd(Lowest, m - q, q);
      RoundsInjective(Rounds(Lowest, m - q), Lowest, q);
      NeverBack(m - q);
    }
  }

  lemma {:induction false} NoOnes(m: Message)
    requires Ones(m) == 0
    ensures Crc8(m) == Zero
  {
    if m != [] {
      NoOnes(m[..|m| - 1]);
      LastFolded(m);
    }
  }

  lemma NoWeight(x: Octet)
    requires Weight(x) == 0
    ensures x == Zero
  {
  }

  lemma OneOrNone(m: Message)
    requires Ones(m) == 1
    ensures m != []
    ensures var before, x := m[..|m| - 1], m[|m| - 1];
            (Weight(x) == 1 && Ones(before) == 0) || (x == Zero && Ones(before) == 1)
  {
    if Weight(m[|m| - 1]) == 0 {
      NoWeight(m[|m| - 1]);
    }
  }

  /** The CRC of a message with a single one in its last byte. */
  lemma LastOne(m: Message) returns (k: nat)
    requires m != [] && Weight(m[|m| - 1]) == 1 && Ones(m[..|m| - 1]) == 0
    ensures 8 <= k < 16 && Crc8(m) == Rounds(Lowest, k)
  {
    var q := OneIsPower(m[|m| - 1]);
    NoOnes(m[..|m| - 1]);
    LastByte(m);
    RoundsAdd(Lowest, q, 8);
    k := q + 8;
  }

  lemma EarlierOne(c: Octet, after: Octet, j: nat)
    requires c == Rounds(Lowest, j) && after == Rounds(c, 8)
    ensures after == Rounds(Lowest, j + 8)
  {
    RoundsAdd(Lowest, j, 8);
  }

  /** The CRC of a message with a single one. */
  lemma {:induction false} SingleOne(m: Message) returns (k: nat)
    requires Ones(m) == 1
    ensures 8 <= k < 8 + 8 * |m| && Crc8(m) == Rounds(Lowest, k)
  {
    OneOrNone(m);
    if Ones(m[..|m| - 1]) == 0 {
      k := LastOne(m);
    } else {
      var j := SingleOne(m[..|m| - 1]);
      LastByte(m);
      EarlierOne(Crc8(m[..|m| - 1]), Crc8(m), j);
      k := j + 8;
    }
  }

  /** Two wrong bits in at most six bytes are never invisible. */
  lemma {:induction false} TwoBitsShow(e: Message)
    requires |e| <= 6 && Ones(e) == 2
    ensures Crc8(e) != Zero
  {
    var before, x := e[..|e| - 1], e[|e| - 1];
    LastFolded(e);
    if Weight(x) == 0 {
      TwoBitsShow(before);
    } else if Weight(x) == 1 {
      var k := SingleOne(before);
      NoSingleBitAgain(k);
    } else {
      NoOnes(before);
    }
  }

  // ---- What the check detects ----

  predicate OneByteDiffers(a: Message, b: Message, i: nat)
    requires |a| == |b| && i < |a|
  {
    a[i] != b[i] && forall j: nat | j < |a| && j != i :: a[j] == b[j]
  }

  /** The messages differ in exactly one byte, in an odd number of bits, or in a burst of at most eight
      consecutive bits; or in two bits, if they have at most six bytes. */
  ghost predicate Corrupted(a: Message, b: Message)
    requires |a| == |b|
  {
    || (exists i: nat | i < |a| :: OneByteDiffers(a, b, i))
    || Ones(Sum(a, b)) % 2 == 1
    || (exists i: nat, k: nat :: Burst(Sum(a, b), i, k))
    || (|a| <= 6 && Ones(Sum(a, b)) == 2)
  }

  lemma ByteShows(a: Message, b: Message, i: nat)
    requires |a| == |b| && i < |a| && OneByteDiffers(a, b, i)
    ensures Crc8(Sum(a, b)) != Zero
  {
    var e := Sum(a, b);
    forall j: nat | j < |a|
      ensures e[j] != Zero <==> j == i
    {
      PlusZero(a[j], b[j]);
    }
    SingleErrorShows(e, i);
  }

  lemma OddShows(e: Message)
    requires Ones(e) % 2 == 1
    ensures Crc8(e) != Zero
  {
    CrcKeepsParity(e);
  }

  /** Such messages have different CRCs. */
  lemma CorruptionShows(a: Message, b: Message)
    requires |a| == |b| && Corrupted(a, b)
    ensures Crc8(a) != Crc8(b)
  {
    var e := Sum(a, b);
    CrcLinear(a, b);
    PlusZero(Crc8(a), Crc8(b));
    if i: nat :| i < |a| && OneByteDiffers(a, b, i) {
      ByteShows(a, b, i);
    } else if Ones(e) % 2 == 1 {
      OddShows(e);
    } else if i: nat, k: nat :| Burst(e, i, k) {
      BurstShows(e, i, k);
    } else {
      TwoBitsShow(e);
    }
  }
}
