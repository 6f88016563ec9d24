/** Frames of type 8, which carry the P-cards and, once it has been set, the passivity time. */
module FpaPassivity {
  import opened FpaFrame

  datatype Time = NoTime | Time(minutes: int, seconds: int)

  datatype Cards = Cards(time: Time, right: int, left: int)

  // ---- The layout ----

  const HEAD: Bytes := [SOH, DC3, 0x55, 0x46, STX]

  /** The seconds are written with a leading zero, and minutes as one digit. */
  function Encode(c: Cards): Bytes {
    match c.time
    case NoTime => HEAD + [STX, Digit(c.right), STX, Digit(c.left), EOT]
    case Time(m, s) =>
      HEAD + [Digit(m), COLON, Digit(s / 10), Digit(s % 10), STX, Digit(c.right), STX, Digit(c.left), EOT]
  }

  predicate Shows(b: Bytes, c: Cards) { |b| == SIZE && Encode(c) <= b }

  // ---- The edits ----

  datatype Edit = SetTime(minutes: Octet, seconds: Octet) | SetPCardRight(status: Octet) | SetPCardLeft(status: Octet)

  /** The colon at index 6 marks the layout with a time. */
  predicate HasTime(b: Bytes)
    requires |b| == SIZE
  {
    b[6] == COLON
  }

  /** Moves the P-cards to make room for the time. */
  function Relaid(b: Bytes): (r: Bytes)
    requires |b| == SIZE
    ensures |r| == SIZE
  {
    if HasTime(b) then b
    else b[9 := STX][10 := b[6]][11 := STX][12 := b[8]][13 := EOT][6 := COLON]
  }

  function Edited(b: Bytes, e: Edit): (r: Bytes)
    requires |b| == SIZE
    ensures |r| == SIZE
  {
    match e
    case SetTime(m, s) => Relaid(b)[5 := Digit(m)][7 := Digit(s / 10)][8 := Digit(s % 10)]
    case SetPCardRight(v) => b[(if HasTime(b) then 10 else 6) := Digit(v)]
    case SetPCardLeft(v) => b[(if HasTime(b) then 12 else 8) := Digit(v)]
  }

  function EditedCards(c: Cards, e: Edit): Cards {
    match e
    case SetTime(m, s) => c.(time := Time(m, s))
    case SetPCardRight(v) => c.(right := v)
    case SetPCardLeft(v) => c.(left := v)
  }

  class RS422_FPA_Type8_Message {
    const base: RS422_FPA_Message

    ghost predicate Valid()
      reads base, base.message
    {
      base.Valid()
    }

    ghost function Buffer(): Bytes
      reads base.message
    {
      base.message[..]
    }

    constructor ()
      ensures Valid() && fresh(base) && fresh(base.message) && base.currentSize == 10
      ensures Shows(Buffer(), Cards(NoTime, 0, 0))
    {
      var frame := [SOH, DC3, 0x55, 0x46, STX, STX, ZERO, STX, ZERO, EOT];
      assert frame[9] == EOT;
      base := new RS422_FPA_Message(frame);
      new;
      assert Encode(Cards(NoTime, 0, 0)) == frame;
    }

    method EditTime(minutes: Octet, seconds: Octet)
      requires Valid()
      modifies base, base.message
      ensures Buffer() == Edited(old(Buffer()), SetTime(minutes, seconds))
      ensures base.currentSize == if HasTime(old(Buffer())) then old(base.currentSize) else EotIndex(Relaid(old(Buffer()))) + 1
    {
      var m := base.message;
      if m[6] != COLON {
        m[9] := STX;
        m[10] := m[6];
        m[11] := STX;
        m[12] := m[8];
        m[13] := EOT;
        m[6] := COLON;
        assert Buffer()[13] == EOT && Buffer() == Relaid(old(Buffer()));
        base.CalculateSize();
      }
      m[5] := (ZERO + minutes) % 256;
      m[7] := (ZERO + seconds / 10) % 256;
      m[8] := (ZERO + seconds % 10) % 256;
    }

    method EditPCardRight(status: Octet)
      requires base.message.Length == SIZE
      modifies base.message
      ensures Buffer() == Edited(old(Buffer()), SetPCardRight(status))
    {
      if base.message[6] == COLON {
        base.message[10] := (ZERO + status) % 256;
      } else {
        base.message[6] := (ZERO + status) % 256;
      }
    }

    method EditPCardLeft(status: Octet)
      requires base.message.Length == SIZE
      modifies base.message
      ensures Buffer() == Edited(old(Buffer()), SetPCardLeft(status))
    {
      if base.message[6] == COLON {
        base.message[12] := (ZERO + status) % 256;
      } else {
        base.message[8] := (ZERO + status) % 256;
      }
    }
  }

  // ---- What an edit does to the cards shown ----

  /** The bytes of a shown frame. */
  lemma FrameBytes(b: Bytes, c: Cards)
    ensures Shows(b, c) <==> |b| == SIZE && forall k: nat | k < |Encode(c)| :: b[k] == Encode(c)[k]
  {
    if |b| == SIZE && forall k: nat | k < |Encode(c)| :: b[k] == Encode(c)[k] {
      assert b[..|Encode(c)|] == Encode(c);
    }
  }

  /** The layouts are told apart by the colon, which a right P-card of 10 looks like. */
  lemma LayoutIsMarked(b: Bytes, c: Cards)
    requires Shows(b, c) && 0 <= c.right < 256
    ensures HasTime(b) <==> c.time.Time? || c.right == 10
  {
    FrameBytes(b, c);
    assert b[6] == Encode(c)[6];
  }

  /** Each setter changes what it names, in either layout and across the switch of layouts, exactly
      unless the right P-card looks like the colon. */
  lemma EditShows(b: Bytes, c: Cards, e: Edit)
    requires Shows(b, c) && 0 <= c.right < 256 && c.right != 10
    ensures Shows(Edited(b, e), EditedCards(c, e))
  {
    LayoutIsMarked(b, c);
    FrameBytes(b, c);
    var p, q, r := Encode(c), Encode(EditedCards(c, e)), Edited(b, e);
    assert forall k: nat | k < 5 :: q[k] == HEAD[k] && p[k] == HEAD[k];
    if e.SetTime? && c.time.NoTime? {
      assert b[6] == p[6] && b[8] == p[8];
    }
    FrameBytes(r, EditedCards(c, e));
  }

  /** A right P-card of 10 is taken for the colon: the next setting of the time goes wrong. */
  lemma TimeNeedsDigit(b: Bytes, c: Cards, m: Octet, s: Octet)
    requires Shows(b, c) && 0 <= c.right < 256 && c.time.NoTime?
    ensures Shows(Edited(b, SetTime(m, s)), EditedCards(c, SetTime(m, s))) <==> c.right != 10
  {
    if c.right != 10 {
      EditShows(b, c, SetTime(m, s));
    } else {
      LayoutIsMarked(b, c);
      FrameBytes(b, c);
      assert b[9] == Encode(c)[9] == EOT;
      var q, r := Encode(EditedCards(c, SetTime(m, s))), Edited(b, SetTime(m, s));
      assert q[9] == STX && r[9] == EOT;
      FrameBytes(r, EditedCards(c, SetTime(m, s)));
    }
  }

  function BufferAfter(b: Bytes, es: seq<Edit>): (r: Bytes)
    requires |b| == SIZE
    ensures |r| == SIZE
  {
    if es == [] then b else Edited(BufferAfter(b, es[..|es| - 1]), es[|es| - 1])
  }

  function CardsAfter(c: Cards, es: seq<Edit>): Cards {
    if es == [] then c else EditedCards(CardsAfter(c, es[..|es| - 1]), es[|es| - 1])
  }

  /** After any sequence of edits that sets no right P-card to 10, the buffer shows exactly the cards
      and the time that the same sequence leaves as a plain record. */
  lemma {:induction false} EditsRefineCards(b: Bytes, c: Cards, es: seq<Edit>)
    requires Shows(b, c) && 0 <= c.right < 256 && c.right != 10
    requires forall i: nat | i < |es| :: es[i] != SetPCardRight(10)
    ensures var d := CardsAfter(c, es); Shows(BufferAfter(b, es), d) && 0 <= d.right < 256 && d.right != 10
  {
    if es != [] {
      var before, e := es[..|es| - 1], es[|es| - 1];
      EditsRefineCards(b, c, before);
      EditShows(BufferAfter(b, before), CardsAfter(c, before), e);
    }
  }

  /** The size found when the layout is switched is that of the new frame. */
  lemma SwitchedSize(b: Bytes, c: Cards)
    requires Shows(b, c) && c.time.NoTime? && 0 <= c.right < 10 && 0 <= c.left < 10
    ensures EotIndex(Relaid(b)) + 1 == |Encode(c.(time := Time(0, 0)))|
  {
    LayoutIsMarked(b, c);
    FrameBytes(b, c);
    var r, p := Relaid(b), Encode(c);
    assert forall k: nat | k < 5 :: b[k] == p[k] == HEAD[k];
    assert b[5] == p[5] && b[6] == p[6] && b[7] == p[7] && b[8] == p[8];
    FirstIs(r, EOT, 13);
  }
}
