/** The byte buffer that every frame of the FPA serial protocol is edited in. */
module FpaFrame {

  type Octet = x: int | 0 <= x < 256

  const SIZE := 43
  const SOH: Octet := 0x01
  const STX: Octet := 0x02
  const EOT: Octet := 0x04
  const DC3: Octet := 0x13
  const ZERO: Octet := 0x30
  const SPACE: Octet := 0x20
  const COLON: Octet := 0x3a

  type Bytes = seq<Octet>

  /** The index of the first `c`, or the length. */
  function First(b: Bytes, c: Octet): (i: nat)
    ensures i <= |b| && c !in b[..i] && (i < |b| ==> b[i] == c)
  {
    if b == [] || b[0] == c then 0 else 1 + First(b[1..], c)
  }

  lemma {:induction false} FirstIs(b: Bytes, c: Octet, i: nat)
    requires i <= |b| && (i < |b| ==> b[i] == c) && forall k: nat | k < i :: b[k] != c
    ensures First(b, c) == i
  {
    if i > 0 {
      FirstIs(b[1..], c, i - 1);
    }
  }

  function EotIndex(b: Bytes): nat { First(b, EOT) }

  /** One digit; other values give whatever byte the sum wraps to. */
  function Digit(v: int): Octet { (ZERO + v) % 256 }

  /** Division truncates. */
  function TensOf(v: int): int { if v >= 0 then v / 10 else -(-v / 10) }

  /** Two digits right-aligned: a blank instead of a leading zero. */
  function Tens(v: int): Octet { if TensOf(v) > 0 then Digit(TensOf(v)) else SPACE }

  function Units(v: int): Octet { Digit(v - 10 * TensOf(v)) }

  class RS422_FPA_Message {
    const message: array<Octet>
    var requiresTransmission: bool
    var currentSize: nat

    ghost predicate Valid()
      reads this, message
    {
      message.Length == SIZE && EOT in message[..]
    }

    constructor (frame: seq<Octet>)
      requires |frame| <= SIZE && EOT in frame
      ensures Valid() && fresh(message) && frame <= message[..] && currentSize == |frame|
    {
      message := new Octet[SIZE](i => if 0 <= i < |frame| then frame[i] else 0);
      requiresTransmission, currentSize := true, |frame|;
      new;
      assert message[..|frame|] == frame;
      assert forall x :: x in frame ==> x in message[..|frame|];
    }

    method CalculateSize()
      requires Valid()
      modifies this`currentSize
      ensures currentSize == EotIndex(message[..]) + 1
    {
      var i := GetEOTIndex();
      currentSize := i + 1;
    }

    /** Without an EOT the search ends on the byte in memory behind the buffer, whatever that holds. */
    method GetEOTIndex() returns (index: int)
      requires message.Length == SIZE
      ensures EOT in message[..] ==> index == EotIndex(message[..]) < SIZE
      ensures EOT !in message[..] ==> index == -1 || index == SIZE
    {
      index := 0;
      while index < SIZE && message[index] != EOT
        invariant 0 <= index <= SIZE && forall k: nat | k < index :: message[k] != EOT
      {
        index := index + 1;
      }
      FirstIs(message[..], EOT, index);
      if index == SIZE {
        var beyond: Octet := *;
        if beyond != EOT {
          index := -1;
        }
      }
    }

    method SetSingleDigitNumberInAscii(value: int, at: nat)
      requires message.Length == SIZE && at < SIZE
      modifies message
      ensures message[..] == old(message[..])[at := Digit(value)]
    {
      message[at] := (ZERO + value) % 256;
    }

    method SetDoubleDigitNumberInAscii(value: int, at: nat)
      requires message.Length == SIZE && at + 1 < SIZE
      modifies message
      ensures message[..] == old(message[..])[at := Tens(value)][at + 1 := Units(value)]
    {
      var tens := if value >= 0 then value / 10 else -(-value / 10);
      if tens > 0 {
        message[at] := (ZERO + tens) % 256;
      } else {
        message[at] := SPACE;
      }
      message[at + 1] := (ZERO + value - 10 * tens) % 256;
    }
  }
}
