/** Frames of type 3, which carry scores, cards, round and video calls; the round has one or two digits. */
module FpaScore {
  import opened FpaFrame

  const LETTER_X: Octet := 0x58

  datatype Round = Extra | Number(n: int)

  /** Score and cards of a side as the frame carries them. */
  datatype Column = Column(score: int, yellow: int, red: int, black: int)

  datatype Board = Board(right: Column, left: Column, prio: int, round: Round, videoRight: int, videoLeft: int)

  // ---- The layout ----

  function Scores(x: Board): (b: Bytes)
    ensures |b| == 10
  {
    [SOH, DC3, 0x44, STX, Tens(x.right.score), Units(x.right.score), COLON, Tens(x.left.score), Units(x.left.score), STX]
  }

  function Cards(c: Column): (b: Bytes)
    ensures |b| == 6
  {
    [Tens(c.yellow), Units(c.yellow), Tens(c.red), Units(c.red), Digit(c.black), STX]
  }

  /** The part before the round. */
  function Body(x: Board): (b: Bytes)
    ensures |b| == 24
  {
    Scores(x) + (Cards(x.right) + (Cards(x.left) + [Digit(x.prio), STX]))
  }

  /** Two digits from ten on. */
  predicate Wide(r: Round) { r.Number? && r.n >= 10 }

  function Tail(x: Board): Bytes {
    (match x.round
     case Extra => [LETTER_X]
     case Number(n) => if n < 10 then [Digit(n)] else [Tens(n), Units(n)])
    + [STX, Digit(x.videoRight), Digit(x.videoLeft), EOT]
  }

  function Encode(x: Board): Bytes { Body(x) + Tail(x) }

  predicate Shows(b: Bytes, x: Board) { |b| == SIZE && Encode(x) <= b }

  // ---- The edits ----

  datatype Edit = ScoreRight(v: int) | ScoreLeft(v: int) | YellowRight(v: int) | YellowLeft(v: int) | RedRight(v: int)
                | RedLeft(v: int) | BlackRight(v: int) | BlackLeft(v: int) | Prio(v: int) | SetRound(v: int)
                | VideoRight(v: int) | VideoLeft(v: int)

  function Two(b: Bytes, v: int, at: nat): (r: Bytes)
    requires at + 1 < |b|
    ensures |r| == |b|
  {
    b[at := Tens(v)][at + 1 := Units(v)]
  }

  /** Takes the second digit of the round out. */
  function Narrowed(b: Bytes): (r: Bytes)
    requires |b| == SIZE
    ensures |r| == SIZE
  {
    if b[25] != STX then b[25 := STX][26 := b[27]][27 := b[28]][28 := EOT] else b
  }

  /** Makes room for a second digit of the round. */
  function Widened(b: Bytes): (r: Bytes)
    requires |b| == SIZE
    ensures |r| == SIZE
  {
    if b[25] == STX then b[29 := EOT][28 := b[27]][27 := b[26]][26 := STX] else b
  }

  function RoundSet(b: Bytes, v: int): (r: Bytes)
    requires |b| == SIZE
    ensures |r| == SIZE
  {
    if v == -1 then Narrowed(b[24 := LETTER_X])
    else if v < 10 then Narrowed(b[24 := Digit(v)])
    else Two(Widened(b), v, 24)
  }

  /** Video calls are found from the EOT backwards. */
  function Edited(b: Bytes, e: Edit): (r: Bytes)
    requires |b| == SIZE && 2 <= EotIndex(b)
    ensures |r| == SIZE
  {
    match e
    case ScoreRight(v) => Two(b, v, 4)
    case ScoreLeft(v) => Two(b, v, 7)
    case YellowRight(v) => Two(b, v, 10)
    case RedRight(v) => Two(b, v, 12)
    case BlackRight(v) => b[14 := Digit(v)]
    case YellowLeft(v) => Two(b, v, 16)
    case RedLeft(v) => Two(b, v, 18)
    case BlackLeft(v) => b[20 := Digit(v)]
    case Prio(v) => b[22 := Digit(v)]
    case SetRound(v) => RoundSet(b, v)
    case VideoRight(v) => b[EotIndex(b) - 2 := Digit(v)]
    case VideoLeft(v) => b[EotIndex(b) - 1 := Digit(v)]
  }

  /** The same edit on the plain record. */
  function EditedBoard(x: Board, e: Edit): Board {
    match e
    case ScoreRight(v) => x.(right := x.right.(score := v))
    case ScoreLeft(v) => x.(left := x.left.(score := v))
    case YellowRight(v) => x.(right := x.right.(yellow := v))
    case YellowLeft(v) => x.(left := x.left.(yellow := v))
    case RedRight(v) => x.(right := x.right.(red := v))
    case RedLeft(v) => x.(left := x.left.(red := v))
    case BlackRight(v) => x.(right := x.right.(black := v))
    case BlackLeft(v) => x.(left := x.left.(black := v))
    case Prio(v) => x.(prio := v)
    case SetRound(v) => x.(round := if v == -1 then Extra else Number(v))
    case VideoRight(v) => x.(videoRight := v)
    case VideoLeft(v) => x.(videoLeft := v)
  }

  function Start(): Bytes {
    [SOH, DC3, 0x44, STX, SPACE, ZERO, COLON, SPACE, ZERO, STX, SPACE, ZERO, SPACE, ZERO, ZERO, STX,
     SPACE, ZERO, SPACE, ZERO, ZERO, STX, ZERO, STX, 0x31, STX, 0x32, 0x32, EOT]
  }

  lemma StartFrame()
    ensures var empty := Column(0, 0, 0, 0);
            Encode(Board(empty, empty, 0, Number(1), 2, 2)) == Start()
    ensures EOT in Start()
  {
    var empty := Column(0, 0, 0, 0);
    var x := Board(empty, empty, 0, Number(1), 2, 2);
    assert Scores(x) == [SOH, DC3, 0x44, STX, SPACE, ZERO, COLON, SPACE, ZERO, STX];
    assert Cards(empty) == [SPACE, ZERO, SPACE, ZERO, ZERO, STX];
    assert Tail(x) == [0x31, STX, 0x32, 0x32, EOT];
    assert Start()[28] == EOT;
  }

  // ---- The object ----

  class RS422_FPA_Type3_Message {
    const base: RS422_FPA_Message

    ghost predicate Valid()
      reads base, base.message
    {
      base.Valid()
    }

    ghost function Buffer(): Bytes
      reads base.message
    {
      base.message[..]
    }

    constructor ()
      ensures Valid() && fresh(base) && fresh(base.message) && base.currentSize == 29
      ensures Shows(Buffer(), Board(Column(0, 0, 0, 0), Column(0, 0, 0, 0), 0, Number(1), 2, 2))
    {
      StartFrame();
      base := new RS422_FPA_Message(Start());
    }

    method MakeRSingleDigit()
      requires base.message.Length == SIZE
      modifies base.message
      ensures Buffer() == Narrowed(old(Buffer()))
    {
      var m := base.message;
      if m[25] != STX {
        m[25] := STX;
        m[26] := m[27];
        m[27] := m[28];
        m[28] := EOT;
      }
    }

    method MakeRoom()
      requires base.message.Length == SIZE
      modifies base.message, base`currentSize
      ensures Buffer() == Widened(old(Buffer()))
      ensures base.currentSize == if old(Buffer())[25] == STX then 30 else old(base.currentSize)
    {
      var m := base.message;
      if m[25] == STX {
        base.currentSize := 30;
        m[29] := EOT;
        m[28] := m[27];
        m[27] := m[26];
        m[26] := STX;
      }
    }

    /** The round asks for no transmission, and the size grows with a second digit but never shrinks. */
    method EditRound(value: int)
      requires base.message.Length == SIZE
      modifies base.message, base`currentSize
      ensures Buffer() == RoundSet(old(Buffer()), value)
      ensures base.currentSize == if value >= 10 && old(Buffer())[25] == STX then 30 else old(base.currentSize)
    {
      if value == -1 {
        base.message[24] := LETTER_X;
        MakeRSingleDigit();
      } else if value < 10 {
        base.SetSingleDigitNumberInAscii(value, 24);
        MakeRSingleDigit();
      } else {
        MakeRoom();
        base.SetDoubleDigitNumberInAscii(value, 24);
      }
    }

    method EditTwo(value: int, at: nat)
      requires base.message.Length == SIZE && at + 1 < SIZE
      modifies base.message, base`requiresTransmission
      ensures Buffer() == Two(old(Buffer()), value, at) && base.requiresTransmission
    {
      base.requiresTransmission := true;
      base.SetDoubleDigitNumberInAscii(value, at);
    }

    method EditOne(value: int, at: nat)
      requires base.message.Length == SIZE && at < SIZE
      modifies base.message, base`requiresTransmission
      ensures Buffer() == old(Buffer())[at := Digit(value)] && base.requiresTransmission
    {
      base.requiresTransmission := true;
      base.SetSingleDigitNumberInAscii(value, at);
    }

    /** The setters, by what they set. */
    method Set(e: Edit)
      requires Valid() && 2 <= EotIndex(Buffer())
      modifies base, base.message
      ensures Buffer() == Edited(old(Buffer()), e)
      ensures base.requiresTransmission == (old(base.requiresTransmission) || !e.SetRound?)
      ensures base.currentSize == if e.SetRound? && e.v >= 10 && old(Buffer())[25] == STX then 30 else old(base.currentSize)
    {
      match e {
        case ScoreRight(v) => EditTwo(v, 4);
        case ScoreLeft(v) => EditTwo(v, 7);
        case YellowRight(v) => EditTwo(v, 10);
        case RedRight(v) => EditTwo(v, 12);
        case BlackRight(v) => EditOne(v, 14);
        case YellowLeft(v) => EditTwo(v, 16);
        case RedLeft(v) => EditTwo(v, 18);
        case BlackLeft(v) => EditOne(v, 20);
        case Prio(v) => EditOne(v, 22);
        case SetRound(v) => EditRound(v);
        case VideoRight(v) =>
          var index := base.GetEOTIndex();
          EditOne(v, index - 2);
        case VideoLeft(v) =>
          var index := base.GetEOTIndex();
          EditOne(v, index - 1);
      }
    }
  }

  // ---- What an edit does to the board shown ----

  /** Values that fit their digits. */
  predicate OneDigit(v: int) { 0 <= v <= 9 }

  predicate TwoDigits(v: int) { 0 <= v <= 99 }

  predicate SaneColumn(c: Column) { TwoDigits(c.score) && TwoDigits(c.yellow) && TwoDigits(c.red) && OneDigit(c.black) }

  predicate Sane(x: Board) {
    && SaneColumn(x.right) && SaneColumn(x.left) && OneDigit(x.prio)
    && (x.round.Number? ==> TwoDigits(x.round.n)) && OneDigit(x.videoRight) && OneDigit(x.videoLeft)
  }

  predicate SaneEdit(e: Edit) {
    match e
    case SetRound(v) => v == -1 || TwoDigits(v)
    case BlackRight(v) => OneDigit(v)
    case BlackLeft(v) => OneDigit(v)
    case Prio(v) => OneDigit(v)
    case VideoRight(v) => OneDigit(v)
    case VideoLeft(v) => OneDigit(v)
    case _ => TwoDigits(e.v)
  }

  lemma DigitIsNoControl(v: int)
    requires OneDigit(v)
    ensures Digit(v) != EOT && Digit(v) != STX
  {
  }

  lemma TwoAreNoControls(v: int)
    requires TwoDigits(v)
    ensures Tens(v) != EOT && Units(v) != EOT && Tens(v) != STX && Units(v) != STX
  {
  }

  lemma CardsHoldNoEot(c: Column)
    requires SaneColumn(c)
    ensures EOT !in Cards(c)
  {
    TwoAreNoControls(c.yellow);
    TwoAreNoControls(c.red);
    DigitIsNoControl(c.black);
  }

  lemma BodyHoldsNoEot(x: Board)
    requires Sane(x)
    ensures EOT !in Body(x)
  {
    TwoAreNoControls(x.right.score);
    TwoAreNoControls(x.left.score);
    CardsHoldNoEot(x.right);
    CardsHoldNoEot(x.left);
    DigitIsNoControl(x.prio);
  }

  lemma TailHoldsOneEot(x: Board)
    requires Sane(x)
    ensures var t := Tail(x); t[|t| - 1] == EOT && forall k: nat | k < |t| - 1 :: t[k] != EOT
  {
    DigitIsNoControl(x.videoRight);
    DigitIsNoControl(x.videoLeft);
    if x.round.Number? {
      if x.round.n < 10 {
        DigitIsNoControl(x.round.n);
      } else {
        TwoAreNoControls(x.round.n);
      }
    }
  }

  /** The EOT is where the frame ends. */
  lemma EotIsLast(b: Bytes, x: Board)
    requires Shows(b, x) && Sane(x)
    ensures EOT in b && EotIndex(b) == |Encode(x)| - 1 == if Wide(x.round) then 29 else 28
  {
    var p := Encode(x);
    BodyHoldsNoEot(x);
    TailHoldsOneEot(x);
    forall k: nat | k < |p| - 1
      ensures b[k] != EOT
    {
      assert b[k] == p[k];
      if k < 24 {
        assert p[k] == Body(x)[k] && Body(x)[k] in Body(x);
      } else {
        assert p[k] == Tail(x)[k - 24];
      }
    }
    assert b[|p| - 1] == p[|p| - 1] == Tail(x)[|Tail(x)| - 1];
    FirstIs(b, EOT, |p| - 1);
  }

  /** The body and the tail of a shown frame. */
  predicate Parts(b: Bytes, x: Board) {
    |b| == SIZE && b[..24] == Body(x) && Tail(x) <= b[24..]
  }

  lemma ShowsParts(b: Bytes, x: Board)
    ensures Shows(b, x) <==> Parts(b, x)
  {
    if |b| == SIZE {
      var n := |Encode(x)|;
      if Shows(b, x) {
        assert b[..24] == Encode(x)[..24] == Body(x);
        assert forall k: nat | k < |Tail(x)| :: b[24..][k] == b[24 + k] == Encode(x)[24 + k] == Tail(x)[k];
      }
    }
  }

  lemma BodyTwo(b: Bytes, x: Board, y: Board, v: int, at: nat)
    requires Shows(b, x) && at + 1 < 24 && Body(y) == Two(Body(x), v, at) && Tail(y) == Tail(x)
    ensures Shows(Two(b, v, at), y)
  {
    ShowsParts(b, x);
    var r := Two(b, v, at);
    assert r[..24] == Two(b[..24], v, at);
    assert r[24..] == b[24..];
    ShowsParts(r, y);
  }

  lemma BodyOne(b: Bytes, x: Board, y: Board, v: int, at: nat)
    requires Shows(b, x) && at < 24 && Body(y) == Body(x)[at := Digit(v)] && Tail(y) == Tail(x)
    ensures Shows(b[at := Digit(v)], y)
  {
    ShowsParts(b, x);
    var r := b[at := Digit(v)];
    assert r[..24] == b[..24][at := Digit(v)];
    assert r[24..] == b[24..];
    ShowsParts(r, y);
  }

  predicate InBody(e: Edit) { !e.SetRound? && !e.VideoRight? && !e.VideoLeft? }

  lemma TwoFirst(a: Bytes, c: Bytes, v: int, at: nat)
    requires at + 1 < |a|
    ensures Two(a + c, v, at) == Two(a, v, at) + c
  {
  }

  lemma TwoSecond(a: Bytes, c: Bytes, v: int, at: nat)
    requires |a| <= at && at + 1 < |a| + |c|
    ensures Two(a + c, v, at) == a + Two(c, v, at - |a|)
  {
  }

  lemma OneFirst(a: Bytes, c: Bytes, v: Octet, at: nat)
    requires at < |a|
    ensures (a + c)[at := v] == a[at := v] + c
  {
  }

  lemma OneSecond(a: Bytes, c: Bytes, v: Octet, at: nat)
    requires |a| <= at < |a| + |c|
    ensures (a + c)[at := v] == a + c[at - |a| := v]
  {
  }

  lemma ScoreBytes(x: Board, v: int)
    ensures Body(EditedBoard(x, ScoreRight(v))) == Two(Body(x), v, 4)
    ensures Body(EditedBoard(x, ScoreLeft(v))) == Two(Body(x), v, 7)
  {
    var rest := Cards(x.right) + (Cards(x.left) + [Digit(x.prio), STX]);
    TwoFirst(Scores(x), rest, v, 4);
    TwoFirst(Scores(x), rest, v, 7);
  }

  lemma CardBytes(c: Column, v: int)
    ensures Cards(c.(yellow := v)) == Two(Cards(c), v, 0) && Cards(c.(red := v)) == Two(Cards(c), v, 2)
    ensures Cards(c.(black := v)) == Cards(c)[4 := Digit(v)]
  {
  }

  lemma RightCardBytes(x: Board, v: int)
    ensures Body(EditedBoard(x, YellowRight(v))) == Two(Body(x), v, 10)
    ensures Body(EditedBoard(x, RedRight(v))) == Two(Body(x), v, 12)
    ensures Body(EditedBoard(x, BlackRight(v))) == Body(x)[14 := Digit(v)]
  {
    var rest := Cards(x.left) + [Digit(x.prio), STX];
    CardBytes(x.right, v);
    TwoSecond(Scores(x), Cards(x.right) + rest, v, 10);
    TwoFirst(Cards(x.right), rest, v, 0);
    TwoSecond(Scores(x), Cards(x.right) + rest, v, 12);
    TwoFirst(Cards(x.right), rest, v, 2);
    OneSecond(Scores(x), Cards(x.right) + rest, Digit(v), 14);
    OneFirst(Cards(x.right), rest, Digit(v), 4);
  }

  lemma LeftCardBytes(x: Board, v: int)
    ensures Body(EditedBoard(x, YellowLeft(v))) == Two(Body(x), v, 16)
    ensures Body(EditedBoard(x, RedLeft(v))) == Two(Body(x), v, 18)
    ensures Body(EditedBoard(x, BlackLeft(v))) == Body(x)[20 := Digit(v)]
  {
    var prio := [Digit(x.prio), STX];
    var left := Cards(x.left) + prio;
    CardBytes(x.left, v);
    TwoSecond(Scores(x), Cards(x.right) + left, v, 16);
    TwoSecond(Cards(x.right), left, v, 6);
    TwoFirst(Cards(x.left), prio, v, 0);
    TwoSecond(Scores(x), Cards(x.right) + left, v, 18);
    TwoSecond(Cards(x.right), left, v, 8);
    TwoFirst(Cards(x.left), prio, v, 2);
    OneSecond(Scores(x), Cards(x.right) + left, Digit(v), 20);
    OneSecond(Cards(x.right), left, Digit(v), 10);
    OneFirst(Cards(x.left), prio, Digit(v), 4);
  }

  lemma PrioBytes(x: Board, v: int)
    ensures Body(EditedBoard(x, Prio(v))) == Body(x)[22 := Digit(v)]
  {
    var prio := [Digit(x.prio), STX];
    OneSecond(Scores(x), Cards(x.right) + (Cards(x.left) + prio), Digit(v), 22);
    OneSecond(Cards(x.right), Cards(x.left) + prio, Digit(v), 12);
    OneSecond(Cards(x.left), prio, Digit(v), 6);
  }

  lemma TwoEdit(b: Bytes, x: Board, e: Edit)
    requires Shows(b, x) && 2 <= EotIndex(b)
    requires e.ScoreRight? || e.ScoreLeft? || e.YellowRight? || e.YellowLeft? || e.RedRight? || e.RedLeft?
    ensures Shows(Edited(b, e), EditedBoard(x, e))
  {
    var y := EditedBoard(x, e);
    match e {
      case ScoreRight(v) => ScoreBytes(x, v); BodyTwo(b, x, y, v, 4);
      case ScoreLeft(v) => ScoreBytes(x, v); BodyTwo(b, x, y, v, 7);
      case YellowRight(v) => RightCardBytes(x, v); BodyTwo(b, x, y, v, 10);
      case RedRight(v) => RightCardBytes(x, v); BodyTwo(b, x, y, v, 12);
      case YellowLeft(v) => LeftCardBytes(x, v); BodyTwo(b, x, y, v, 16);
      case RedLeft(v) => LeftCardBytes(x, v); BodyTwo(b, x, y, v, 18);
    }
  }

  lemma BodyEdit(b: Bytes, x: Board, e: Edit)
    requires Shows(b, x) && InBody(e) && 2 <= EotIndex(b)
    ensures Shows(Edited(b, e), EditedBoard(x, e))
  {
    var y := EditedBoard(x, e);
    match e {
      case BlackRight(v) => RightCardBytes(x, v); BodyOne(b, x, y, v, 14);
      case BlackLeft(v) => LeftCardBytes(x, v); BodyOne(b, x, y, v, 20);
      case Prio(v) => PrioBytes(x, v); BodyOne(b, x, y, v, 22);
      case _ => TwoEdit(b, x, e);
    }
  }

  /** Only the part behind the body changes. */
  lemma TailEdit(b: Bytes, r: Bytes, x: Board, y: Board)
    requires Shows(b, x) && |r| == SIZE && (forall k: nat | k < 24 :: r[k] == b[k]) && Body(y) == Body(x)
    requires forall k: nat | 24 <= k < 24 + |Tail(y)| :: r[k] == Tail(y)[k - 24]
    ensures Shows(r, y)
  {
    ShowsParts(b, x);
    assert r[..24] == b[..24];
    assert forall k: nat | k < |Tail(y)| :: r[24..][k] == r[24 + k];
    ShowsParts(r, y);
  }

  /** The bytes of the tail in the buffer. */
  lemma TailBytes(b: Bytes, x: Board)
    requires Shows(b, x)
    ensures var t := Tail(x); 24 + |t| <= SIZE && forall k: nat | 24 <= k < 24 + |t| :: b[k] == t[k - 24]
  {
    ShowsParts(b, x);
    var t := Tail(x);
    forall k: nat | 24 <= k < 24 + |t|
      ensures b[k] == t[k - 24]
    {
      assert b[24..][k - 24] == t[k - 24];
    }
  }

  /** Both layouts keep video calls and everything else when the round gains or loses a digit. */
  lemma RoundEdit(b: Bytes, x: Board, v: int)
    requires Shows(b, x) && Sane(x) && (v == -1 || TwoDigits(v))
    ensures Shows(RoundSet(b, v), EditedBoard(x, SetRound(v)))
  {
    var y := EditedBoard(x, SetRound(v));
    TailBytes(b, x);
    SecondByte(b, x);
    var r := RoundSet(b, v);
    var t := Tail(x);
    if Wide(x.round) {
      assert b[26] == STX && b[27] == t[3] && b[28] == t[4] && b[29] == EOT;
    } else {
      assert b[25] == STX && b[26] == t[2] && b[27] == t[3] && b[28] == EOT;
    }
    RoundBytes(b, x, v);
    TailEdit(b, r, x, y);
  }

  /** Index 25 tells the layouts apart: an STX or a digit. */
  lemma SecondByte(b: Bytes, x: Board)
    requires Shows(b, x) && Sane(x)
    ensures b[25] == STX <==> !Wide(x.round)
  {
    TailBytes(b, x);
    assert b[25] == Tail(x)[1];
    if Wide(x.round) {
      TwoAreNoControls(x.round.n);
    }
  }

  lemma RoundBytes(b: Bytes, x: Board, v: int)
    requires |b| == SIZE && (v == -1 || TwoDigits(v)) && (b[25] == STX <==> !Wide(x.round))
    requires var at := if Wide(x.round) then 26 else 25;
             b[at] == STX && b[at + 1] == Digit(x.videoRight) && b[at + 2] == Digit(x.videoLeft) && b[at + 3] == EOT
    ensures var r, t := RoundSet(b, v), Tail(EditedBoard(x, SetRound(v)));
            && (forall k: nat | k < 24 :: r[k] == b[k])
            && forall k: nat | 24 <= k < 24 + |t| :: r[k] == t[k - 24]
  {
  }

  lemma VideoEdit(b: Bytes, x: Board, e: Edit)
    requires Shows(b, x) && Sane(x) && (e.VideoRight? || e.VideoLeft?)
    ensures 2 <= EotIndex(b) && Shows(Edited(b, e), EditedBoard(x, e))
  {
    EotIsLast(b, x);
    TailBytes(b, x);
    TailEdit(b, Edited(b, e), x, EditedBoard(x, e));
  }

  /** Every edit changes the part it names, in either layout, and nothing else. */
  lemma EditShows(b: Bytes, x: Board, e: Edit)
    requires Shows(b, x) && Sane(x) && SaneEdit(e)
    ensures 2 <= EotIndex(b) && Shows(Edited(b, e), EditedBoard(x, e)) && Sane(EditedBoard(x, e))
  {
    EotIsLast(b, x);
    match e {
      case SetRound(v) => RoundEdit(b, x, v);
      case VideoRight(v) => VideoEdit(b, x, e);
      case VideoLeft(v) => VideoEdit(b, x, e);
      case _ => BodyEdit(b, x, e);
    }
  }

  // ---- Any sequence of edits ----

  /** Buffer and size, as the setters leave them. */
  datatype Frame = Frame(bytes: Bytes, size: nat)

  function EditedFrame(f: Frame, e: Edit): (r: Frame)
    requires |f.bytes| == SIZE
    ensures |r.bytes| == SIZE
  {
    Frame(if 2 <= EotIndex(f.bytes) then Edited(f.bytes, e) else f.bytes,
          if e.SetRound? && e.v >= 10 && f.bytes[25] == STX then 30 else f.size)
  }

  function FrameAfter(f: Frame, es: seq<Edit>): (r: Frame)
    requires |f.bytes| == SIZE
    ensures |r.bytes| == SIZE
  {
    if es == [] then f else EditedFrame(FrameAfter(f, es[..|es| - 1]), es[|es| - 1])
  }

  function BoardAfter(x: Board, es: seq<Edit>): Board {
    if es == [] then x else EditedBoard(BoardAfter(x, es[..|es| - 1]), es[|es| - 1])
  }

  /** Some edit asked for a round of two digits. */
  predicate EverWide(es: seq<Edit>) {
    exists i: nat | i < |es| :: es[i].SetRound? && es[i].v >= 10
  }

  lemma EverWideGrows(es: seq<Edit>)
    requires es != []
    ensures EverWide(es) <==> EverWide(es[..|es| - 1]) || (es[|es| - 1].SetRound? && es[|es| - 1].v >= 10)
  {
    var before := es[..|es| - 1];
    if i: nat :| i < |before| && before[i].SetRound? && before[i].v >= 10 {
      assert es[i] == before[i];
    }
    if i: nat :| i < |es| - 1 && es[i].SetRound? && es[i].v >= 10 {
      assert es[i] == before[i];
    }
  }

  lemma {:induction false} EditsShow(f: Frame, x: Board, es: seq<Edit>)
    requires Shows(f.bytes, x) && Sane(x) && forall i: nat | i < |es| :: SaneEdit(es[i])
    ensures Shows(FrameAfter(f, es).bytes, BoardAfter(x, es)) && Sane(BoardAfter(x, es))
  {
    if es != [] {
      var before, e := es[..|es| - 1], es[|es| - 1];
      EditsShow(f, x, before);
      EditShows(FrameAfter(f, before).bytes, BoardAfter(x, before), e);
    }
  }

  lemma {:induction false} WideBoardWasEdited(x: Board, es: seq<Edit>)
    requires !Wide(x.round)
    ensures Wide(BoardAfter(x, es).round) ==> EverWide(es)
  {
    if es != [] {
      WideBoardWasEdited(x, es[..|es| - 1]);
      EverWideGrows(es);
    }
  }

  lemma {:induction false} SizeGrowsOnce(f: Frame, x: Board, es: seq<Edit>)
    requires Shows(f.bytes, x) && Sane(x) && !Wide(x.round) && f.size == 29
    requires forall i: nat | i < |es| :: SaneEdit(es[i])
    ensures FrameAfter(f, es).size == if EverWide(es) then 30 else 29
  {
    if es != [] {
      var before := es[..|es| - 1];
      SizeGrowsOnce(f, x, before);
      EverWideGrows(es);
      WideBoardWasEdited(x, before);
      EditsShow(f, x, before);
      SecondByte(FrameAfter(f, before).bytes, BoardAfter(x, before));
    }
  }

  /** After any sequence of edits the buffer shows exactly the board that the same sequence leaves as a
      plain record. The size is enough for the frame, but once a round of two digits has been shown
      it stays at 30, although the frame may be back to 29 bytes. */
  lemma EditsRefineBoard(f: Frame, x: Board, es: seq<Edit>)
    requires Shows(f.bytes, x) && Sane(x) && !Wide(x.round) && f.size == 29
    requires forall i: nat | i < |es| :: SaneEdit(es[i])
    ensures var r, y := FrameAfter(f, es), BoardAfter(x, es);
            Shows(r.bytes, y) && r.size == (if EverWide(es) then 30 else 29) && |Encode(y)| <= r.size
  {
    EditsShow(f, x, es);
    SizeGrowsOnce(f, x, es);
    WideBoardWasEdited(x, es);
  }
}
