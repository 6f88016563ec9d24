/** Frames of type 5 and 6, which carry a fencer: identifier, name and nation, spliced in place. */
module FpaFencer {
  import opened FpaFrame

  const LENGTH := 39
  const UID_LIMIT := 12
  const LEFT: Octet := 0x4c
  const RIGHT: Octet := 0x52

  datatype Fencer = Fencer(side: Octet, uid: Bytes, name: Bytes, noc: Bytes)

  // ---- The layout ----

  function Head(side: Octet): Bytes { [SOH, DC3, 0x4e, side, STX] }

  function Back(noc: Bytes): Bytes { [STX] + noc + [EOT] }

  function Encode(f: Fencer): Bytes { Head(f.side) + (f.uid + ([STX] + (f.name + Back(f.noc)))) }

  predicate Plain(b: Bytes) { STX !in b && EOT !in b }

  /** The fields fit their places and hold no control bytes. */
  predicate Wellformed(f: Fencer) {
    && f.side in {LEFT, RIGHT} && Plain(f.uid) && Plain(f.name) && Plain(f.noc)
    && |f.uid| <= 8 && |f.name| <= 20 && |f.noc| in {0, 3}
  }

  /** The buffer starts with the frame of this fencer; whatever follows its EOT is left over. */
  predicate Shows(b: Bytes, f: Fencer) { |b| == SIZE && Encode(f) <= b }

  // ---- The splices ----

  /** The first STX at or after `from`, or `limit` if there is none before it. */
  function Scan(b: Bytes, from: nat, limit: nat): (i: nat)
    requires from <= limit <= |b|
    ensures from <= i <= limit
  {
    from + First(b[from..limit], STX)
  }

  function Truncated(s: Bytes, n: nat): Bytes { if |s| < n then s else s[..n] }

  /** The three bytes that are copied of a nation that is not empty, its terminator included. */
  function Letters(noc: Bytes): (t: Bytes)
    requires |noc| != 1
    ensures |t| in {0, 3} && (t == [] <==> noc == []) && (|noc| == 3 ==> t == noc) && (Plain(noc) ==> Plain(t))
  {
    if noc == [] then [] else (noc + [0])[..3]
  }

  /** The buffer with `bytes` written from index `at` on. */
  function Over(b: Bytes, at: nat, bytes: Bytes): (r: Bytes)
    requires at + |bytes| <= |b|
    ensures |r| == |b|
  {
    b[..at] + bytes + b[at + |bytes|..]
  }

  /** The name goes behind the STX found before index 12; the five bytes from the next STX on follow it. */
  function NameSpliced(b: Bytes, name: Bytes): (r: Bytes)
    requires |b| == SIZE && |name| <= 20
    ensures |r| == SIZE
  {
    var s := Scan(b, 5, UID_LIMIT);
    var e := Scan(b, s + 1, LENGTH - 1);
    Over(b, s + 1, name + b[e..e + 5])
  }

  /** A nation of three letters takes the place of an EOT together with a new EOT behind it. */
  function NocSpliced(b: Bytes, noc: Bytes): (r: Bytes)
    requires |b| == SIZE && |noc| in {0, 3}
    ensures |r| == SIZE
  {
    var e := Scan(b, Scan(b, 5, UID_LIMIT) + 1, LENGTH - 1);
    Over(b, e + 1, if noc == [] then [EOT] else noc + [if b[e + 1] == EOT then EOT else b[e + 4]])
  }

  /** What stands from the STX that closes the identifier up to the EOT. */
  function Rest(b: Bytes): Bytes
    requires |b| == SIZE
  {
    var after := b[Scan(b, 5, 13)..];
    after[..EotIndex(after)]
  }

  /** Room for the new identifier and the rest. */
  predicate UidFits(b: Bytes, uid: Bytes) {
    |b| == SIZE && EOT in b[Scan(b, 5, 13)..] && 5 + |uid| + |Rest(b)| < SIZE
  }

  function UidSpliced(b: Bytes, uid: Bytes): (r: Bytes)
    requires UidFits(b, uid)
    ensures |r| == SIZE
  {
    Over(b, 5, uid + Rest(b) + [EOT])
  }

  lemma OverTwice(b: Bytes, at: nat, x: Bytes, y: Bytes)
    requires at + |x| + |y| <= |b|
    ensures Over(Over(b, at, x), at + |x|, y) == Over(b, at, x + y)
  {
    var w := Over(b, at, x);
    assert w[..at + |x|] == b[..at] + x;
    assert w[at + |x| + |y|..] == b[at + |x| + |y|..];
  }

  // ---- The object ----

  class RS422_FPA_Type5_6_Message {
    const base: RS422_FPA_Message

    ghost predicate Valid()
      reads base, base.message
    {
      base.Valid()
    }

    ghost function Buffer(): Bytes
      reads base.message
    {
      base.message[..]
    }

    constructor ()
      ensures Valid() && fresh(base) && fresh(base.message)
      ensures Shows(Buffer(), Fencer(LEFT, [], [], [])) && base.currentSize == 8
    {
      var frame := [SOH, DC3, 0x4e, LEFT, STX, STX, STX, EOT];
      assert frame[7] == EOT;
      base := new RS422_FPA_Message(frame);
      new;
      assert Encode(Fencer(LEFT, [], [], [])) == frame;
    }

    method SetSide(side: Octet)
      requires Valid() && side in {LEFT, RIGHT}
      modifies base.message
      ensures Buffer() == old(Buffer())[3 := side]
    {
      base.message[3] := side;
    }

    method Find(from: nat, limit: nat) returns (i: nat)
      requires base.message.Length == SIZE && from <= limit < SIZE
      ensures i == Scan(Buffer(), from, limit)
    {
      i := from;
      while base.message[i] != STX && i < limit
        invariant from <= i <= limit && forall k: nat | from <= k < i :: base.message[k] != STX
        decreases limit - i
      {
        i := i + 1;
      }
      FirstIs(Buffer()[from..limit], STX, i - from);
    }

    /** Copies `bytes` into the buffer from index `at` on. */
    method Write(at: nat, bytes: Bytes)
      requires base.message.Length == SIZE && at + |bytes| <= SIZE
      modifies base.message
      ensures Buffer() == Over(old(Buffer()), at, bytes)
    {
      var b := base.message;
      for j := 0 to |bytes|
        invariant forall i: nat | i < SIZE :: b[i] == if at <= i < at + j then bytes[i - at] else old(b[i])
      {
        b[at + j] := bytes[j];
      }
    }

    /** Sizes are counted up to the EOT, which every edit must have left in the buffer. */
    method SetName(name: Bytes)
      requires Valid() && EOT in NameSpliced(Buffer(), Truncated(name, 20))
      modifies base, base.message
      ensures Valid() && base.requiresTransmission
      ensures Buffer() == NameSpliced(old(Buffer()), Truncated(name, 20))
      ensures base.currentSize == EotIndex(Buffer()) + 1
    {
      var short := if |name| < 20 then name else name[..20];
      base.requiresTransmission := true;
      SpliceName(short);
      base.CalculateSize();
    }

    method SpliceName(name: Bytes)
      requires base.message.Length == SIZE && |name| <= 20
      modifies base.message
      ensures Buffer() == NameSpliced(old(Buffer()), name)
    {
      var i := Find(5, UID_LIMIT);
      var startOfName := i + 1;
      var endOfName := Find(startOfName, LENGTH - 1);
      Splice(startOfName, endOfName, name);
    }

    /** Writes `bytes` from `at` on, followed by the five bytes that stood at `tail`. */
    method Splice(at: nat, tail: nat, bytes: Bytes)
      requires base.message.Length == SIZE && tail + 5 <= SIZE && at + |bytes| + 5 <= SIZE
      modifies base.message
      ensures Buffer() == Over(old(Buffer()), at, bytes + old(Buffer())[tail..tail + 5])
    {
      var temp := base.message[tail..tail + 5];
      OverTwice(Buffer(), at, bytes, temp);
      Write(at, bytes);
      Write(at + |bytes|, temp);
    }

    /** Of a nation that is not empty three bytes are read; a single letter has not as many. */
    method SetNOC(noc: Bytes)
      requires Valid() && |noc| != 1 && EOT in NocSpliced(Buffer(), Letters(noc))
      modifies base, base.message
      ensures Valid() && base.requiresTransmission
      ensures Buffer() == NocSpliced(old(Buffer()), Letters(noc))
      ensures base.currentSize == EotIndex(Buffer()) + 1
    {
      base.requiresTransmission := true;
      SpliceNoc(Letters(noc));
      base.CalculateSize();
    }

    method SpliceNoc(noc: Bytes)
      requires base.message.Length == SIZE && |noc| in {0, 3}
      modifies base.message
      ensures Buffer() == NocSpliced(old(Buffer()), noc)
    {
      var i := Find(5, UID_LIMIT);
      i := Find(i + 1, LENGTH - 1);
      WriteNoc(i, noc);
    }

    method WriteNoc(i: nat, noc: Bytes)
      requires base.message.Length == SIZE && i + 4 < SIZE && |noc| in {0, 3}
      modifies base.message
      ensures Buffer() == Over(old(Buffer()), i + 1,
          if noc == [] then [EOT] else noc + [if old(Buffer())[i + 1] == EOT then EOT else old(Buffer())[i + 4]])
    {
      if noc == [] {
        base.message[i + 1] := EOT;
      } else {
        if base.message[i + 1] == EOT {
          base.message[i + 4] := EOT;
        }
        base.message[i + 1] := noc[0];
        base.message[i + 2] := noc[1];
        base.message[i + 3] := noc[2];
      }
    }

    method SetUID(uid: Bytes)
      requires Valid() && UidFits(Buffer(), Truncated(uid, 8))
      modifies base, base.message
      ensures Valid() && base.requiresTransmission
      ensures Buffer() == UidSpliced(old(Buffer()), Truncated(uid, 8))
      ensures base.currentSize == EotIndex(Buffer()) + 1
    {
      var short := if |uid| < 8 then uid else uid[..8];
      base.requiresTransmission := true;
      SpliceUid(short);
      assert EOT in Buffer();
      base.CalculateSize();
    }

    method SpliceUid(uid: Bytes)
      requires base.message.Length == SIZE && UidFits(Buffer(), uid)
      modifies base.message
      ensures Buffer() == UidSpliced(old(Buffer()), uid) && EOT in Buffer()
    {
      var i := Find(5, 13);
      var temp := UpToEot(i);
      OverTwice(Buffer(), 5, uid, temp);
      OverTwice(Buffer(), 5, uid + temp, [EOT]);
      Write(5, uid);
      Write(5 + |uid|, temp);
      Write(5 + |uid| + |temp|, [EOT]);
      assert Buffer()[5 + |uid| + |temp|] == EOT;
    }

    method UpToEot(i: nat) returns (bytes: Bytes)
      requires base.message.Length == SIZE && i < SIZE && EOT in Buffer()[i..]
      ensures bytes == Buffer()[i..][..EotIndex(Buffer()[i..])]
    {
      ghost var after := Buffer()[i..];
      bytes := [];
      var k := 0;
      while base.message[i + k] != EOT
        invariant i + k < SIZE && bytes == after[..k] && forall j: nat | j < k :: after[j] != EOT
        invariant exists j: nat :: k <= j < |after| && after[j] == EOT
        decreases SIZE - k
      {
        assert base.message[i + k] == after[k];
        bytes := bytes + [base.message[i + k]];
        k := k + 1;
      }
      assert after[k] == EOT;
      FirstIs(after, EOT, k);
    }
  }

  // ---- Finding the parts ----

  lemma {:induction false} FirstAfter(w: Bytes, c: Octet, more: Bytes)
    requires c !in w
    ensures First(w + ([c] + more), c) == |w|
  {
    if w != [] {
      assert (w + ([c] + more))[1..] == w[1..] + ([c] + more);
      FirstAfter(w[1..], c, more);
    } else {
      assert w + ([c] + more) == [c] + more;
    }
  }

  lemma {:induction false} FirstOfTake(b: Bytes, c: Octet, k: nat)
    requires k <= |b|
    ensures First(b[..k], c) == if First(b, c) < k then First(b, c) else k
  {
    if k > 0 && b[0] != c {
      assert b[..k][1..] == b[1..][..k - 1];
      FirstOfTake(b[1..], c, k - 1);
    }
  }

  lemma Cat(a: Bytes, x: Bytes)
    ensures (a + x)[..|a|] == a && (a + x)[|a|..] == x
  {
  }

  lemma Associate(a: Bytes, x: Bytes, y: Bytes)
    ensures (a + x) + y == a + (x + y)
  {
  }

  /** The STX found from the start of a part that another STX closes. */
  lemma ScanAfter(b: Bytes, front: Bytes, w: Bytes, more: Bytes, limit: nat)
    requires b == front + (w + ([STX] + more)) && STX !in w && |front| + |w| <= limit <= |b|
    ensures Scan(b, |front|, limit) == |front| + |w|
  {
    var tail := w + ([STX] + more);
    Cat(front, tail);
    assert b[|front|..limit] == b[|front|..][..limit - |front|] == tail[..limit - |front|];
    FirstAfter(w, STX, more);
    FirstOfTake(tail, STX, limit - |front|);
  }

  function Front(f: Fencer): Bytes { Head(f.side) + f.uid + [STX] }

  /** What the buffer holds behind the frame. */
  function Junk(b: Bytes, f: Fencer): Bytes
    requires Shows(b, f)
  {
    b[|Encode(f)|..]
  }

  lemma Split(b: Bytes, f: Fencer)
    requires Shows(b, f)
    ensures b == Head(f.side) + (f.uid + ([STX] + (f.name + ([STX] + (f.noc + ([EOT] + Junk(b, f)))))))
    ensures b == Front(f) + (f.name + ([STX] + (f.noc + ([EOT] + Junk(b, f)))))
  {
    var j := Junk(b, f);
    assert b == Encode(f) + j;
    Associate(Head(f.side), f.uid + ([STX] + (f.name + Back(f.noc))), j);
    Associate(f.uid, [STX] + (f.name + Back(f.noc)), j);
    Associate([STX], f.name + Back(f.noc), j);
    Associate(f.name, Back(f.noc), j);
    Associate([STX] + f.noc, [EOT], j);
    Associate([STX], f.noc, [EOT] + j);
    var tail := f.name + ([STX] + (f.noc + ([EOT] + j)));
    Associate(Head(f.side), f.uid, [STX] + tail);
    Associate(Head(f.side) + f.uid, [STX], tail);
  }

  /** A buffer that continues a front with the rest of a frame shows its fencer. */
  lemma Joined(b: Bytes, f: Fencer, more: Bytes)
    requires |b| == SIZE && b == Front(f) + (f.name + ([STX] + (f.noc + ([EOT] + more))))
    ensures Shows(b, f)
  {
    var tail := f.name + ([STX] + (f.noc + ([EOT] + more)));
    Associate(Head(f.side), f.uid, [STX] + tail);
    Associate(Head(f.side) + f.uid, [STX], tail);
    Associate([STX], f.noc, [EOT] + more);
    Associate([STX] + f.noc, [EOT], more);
    Associate(f.name, Back(f.noc), more);
    Associate([STX], f.name + Back(f.noc), more);
    Associate(f.uid, [STX] + (f.name + Back(f.noc)), more);
    Associate(Head(f.side), f.uid + ([STX] + (f.name + Back(f.noc))), more);
    assert b == Encode(f) + more;
  }

  // ---- What an edit does to the fencer shown ----

  lemma TakeCat(w: Bytes, x: Bytes, k: nat)
    requires |w| <= k <= |w| + |x|
    ensures (w + x)[..k] == w + x[..k - |w|]
  {
  }

  lemma OverAt(b: Bytes, front: Bytes, tail: Bytes, bytes: Bytes)
    requires b == front + tail && |front| + |bytes| <= |b|
    ensures Over(b, |front|, bytes) == front + (bytes + b[|front| + |bytes|..])
  {
    Cat(front, tail);
  }

  /** The STX that the edits find, as long as the identifier has at most seven bytes. */
  lemma FoundStx(b: Bytes, f: Fencer)
    requires Shows(b, f) && Wellformed(f) && |f.uid| <= 7
    ensures Scan(b, 5, UID_LIMIT) == 5 + |f.uid| && Scan(b, 5 + |f.uid| + 1, LENGTH - 1) == 5 + |f.uid| + 1 + |f.name|
  {
    var last := f.noc + ([EOT] + Junk(b, f));
    Split(b, f);
    ScanAfter(b, Head(f.side), f.uid, f.name + ([STX] + last), UID_LIMIT);
    ScanAfter(b, Front(f), f.name, last, LENGTH - 1);
  }

  /** Where the new name goes and what follows it, as long as the identifier has at most seven bytes. */
  lemma NameGoes(b: Bytes, f: Fencer, name: Bytes)
    requires Shows(b, f) && Wellformed(f) && |f.uid| <= 7 && |name| <= 20
    ensures var e := |Front(f)| + |f.name|;
            NameSpliced(b, name) == Over(b, |Front(f)|, name + b[e..e + 5])
  {
    assert |Front(f)| == 5 + |f.uid| + 1;
    FoundStx(b, f);
  }

  lemma NameStands(b: Bytes, f: Fencer)
    requires Shows(b, f)
    ensures b == Front(f) + (f.name + ([STX] + (f.noc + ([EOT] + Junk(b, f)))))
  {
    Split(b, f);
  }

  /** Setting the name changes the name and nothing else. */
  lemma NameEdit(b: Bytes, f: Fencer, name: Bytes)
    requires Shows(b, f) && Wellformed(f) && |f.uid| <= 7 && |name| <= 20
    ensures Shows(NameSpliced(b, name), f.(name := name))
  {
    var j, front := Junk(b, f), Front(f);
    NameGoes(b, f, name);
    NameStands(b, f);
    NameBytes(b, front, f.name, f.noc, j, name);
    NameJoined(NameSpliced(b, name), f, name, j[..5 - |Back(f.noc)|] + b[|front| + |name| + 5..]);
  }

  lemma NameJoined(r: Bytes, f: Fencer, name: Bytes, more: Bytes)
    requires |r| == SIZE && r == Front(f) + (name + ([STX] + (f.noc + ([EOT] + more))))
    ensures Shows(r, f.(name := name))
  {
    Joined(r, f.(name := name), more);
  }

  lemma NameBytes(b: Bytes, front: Bytes, name: Bytes, noc: Bytes, j: Bytes, newer: Bytes)
    requires |b| == SIZE && b == front + (name + ([STX] + (noc + ([EOT] + j))))
    requires |front| <= 13 && |name| <= 20 && |newer| <= 20 && |noc| <= 3
    ensures var e := |front| + |name|;
            Over(b, |front|, newer + b[e..e + 5]) ==
            front + (newer + ([STX] + (noc + ([EOT] + (j[..5 - |Back(noc)|] + b[|front| + |newer| + 5..])))))
  {
    var e := |front| + |name|;
    var tail := [STX] + (noc + ([EOT] + j));
    var back := Back(noc);
    Associate(front, name, tail);
    Cat(front + name, tail);
    assert b[e..e + 5] == b[e..][..5] == tail[..5];
    Associate([STX], noc, [EOT] + j);
    Associate([STX] + noc, [EOT], j);
    TakeCat(back, j, 5);
    OverAt(b, front, name + tail, newer + tail[..5]);
    var keep, rest := j[..5 - |back|], b[|front| + |newer| + 5..];
    Associate(newer, back + keep, rest);
    Associate(back, keep, rest);
    Associate([STX] + noc, [EOT], keep + rest);
    Associate([STX], noc, [EOT] + (keep + rest));
  }

  function NocFront(f: Fencer): Bytes { Front(f) + f.name + [STX] }

  /** Where the nation goes, as long as the identifier has at most seven bytes. */
  lemma NocGoes(b: Bytes, f: Fencer, noc: Bytes)
    requires Shows(b, f) && Wellformed(f) && |f.uid| <= 7 && |noc| in {0, 3}
    ensures var at := |NocFront(f)|;
            && at + 4 < SIZE
            && NocSpliced(b, noc) ==
               Over(b, at, if noc == [] then [EOT] else noc + [if b[at] == EOT then EOT else b[at + 3]])
  {
    assert |Front(f)| == 5 + |f.uid| + 1;
    FoundStx(b, f);
  }

  lemma NocStands(b: Bytes, f: Fencer)
    requires Shows(b, f)
    ensures b == NocFront(f) + (f.noc + ([EOT] + Junk(b, f)))
  {
    var rest := f.noc + ([EOT] + Junk(b, f));
    Split(b, f);
    Associate(Front(f), f.name, [STX] + rest);
    Associate(Front(f) + f.name, [STX], rest);
  }

  lemma NocJoined(r: Bytes, f: Fencer, noc: Bytes, more: Bytes)
    requires |r| == SIZE && r == NocFront(f) + (noc + ([EOT] + more))
    ensures Shows(r, f.(noc := noc))
  {
    Associate(Front(f) + f.name, [STX], noc + ([EOT] + more));
    Associate(Front(f), f.name, [STX] + (noc + ([EOT] + more)));
    Joined(r, f.(noc := noc), more);
  }

  lemma NocEdit(b: Bytes, f: Fencer, noc: Bytes)
    requires Shows(b, f) && Wellformed(f) && |f.uid| <= 7 && |noc| in {0, 3}
    ensures Shows(NocSpliced(b, noc), f.(noc := noc))
  {
    var front := NocFront(f);
    NocGoes(b, f, noc);
    NocStands(b, f);
    NocBytes(b, front, f.noc, Junk(b, f), noc);
    NocJoined(NocSpliced(b, noc), f, noc, b[|front| + |noc| + 1..]);
  }

  lemma NocBytes(b: Bytes, front: Bytes, noc: Bytes, j: Bytes, newer: Bytes)
    requires |b| == SIZE && b == front + (noc + ([EOT] + j)) && |front| + 4 < SIZE
    requires |noc| in {0, 3} && |newer| in {0, 3} && EOT !in noc
    ensures Over(b, |front|, if newer == [] then [EOT] else newer + [if b[|front|] == EOT then EOT else b[|front| + 3]]) ==
            front + (newer + ([EOT] + b[|front| + |newer| + 1..]))
  {
    Cat(front, noc + ([EOT] + j));
    assert b[|front|] == (noc + ([EOT] + j))[0];
    if noc != [] {
      assert b[|front|] == noc[0] && b[|front| + 3] == EOT;
    }
    var x := newer + [EOT];
    OverAt(b, front, noc + ([EOT] + j), x);
    Associate(newer, [EOT], b[|front| + |newer| + 1..]);
    assert newer == [] ==> x == [EOT];
  }

  /** What the identifier's edit keeps. */
  function Kept(f: Fencer): Bytes { [STX] + (f.name + ([STX] + f.noc)) }

  lemma KeptJoins(f: Fencer, more: Bytes)
    ensures Kept(f) + more == [STX] + (f.name + ([STX] + (f.noc + more)))
  {
    Associate([STX], f.name + ([STX] + f.noc), more);
    Associate(f.name, [STX] + f.noc, more);
    Associate([STX], f.noc, more);
  }

  lemma RestIsKept(b: Bytes, f: Fencer)
    requires Shows(b, f) && Wellformed(f)
    ensures EOT in b[Scan(b, 5, 13)..] && Rest(b) == Kept(f)
  {
    var j, kept := Junk(b, f), Kept(f);
    Split(b, f);
    ScanAfter(b, Head(f.side), f.uid, f.name + ([STX] + (f.noc + ([EOT] + j))), 13);
    KeptJoins(f, [EOT] + j);
    Associate(Head(f.side), f.uid, kept + ([EOT] + j));
    Cat(Head(f.side) + f.uid, kept + ([EOT] + j));
    var after := b[5 + |f.uid|..];
    assert after == kept + ([EOT] + j);
    FirstAfter(kept, EOT, j);
    Cat(kept, [EOT] + j);
    assert after[|kept|] == EOT;
  }

  /** An identifier may have eight bytes when it is replaced, and may get eight. */
  lemma UidEdit(b: Bytes, f: Fencer, uid: Bytes)
    requires Shows(b, f) && Wellformed(f) && |uid| <= 8
    ensures UidFits(b, uid) && Shows(UidSpliced(b, uid), f.(uid := uid))
  {
    var g, kept := f.(uid := uid), Kept(f);
    RestIsKept(b, f);
    Split(b, f);
    var bytes := uid + kept + [EOT];
    OverAt(b, Head(f.side), b[5..], bytes);
    var more := b[5 + |bytes|..];
    Associate(uid + kept, [EOT], more);
    Associate(uid, kept, [EOT] + more);
    KeptJoins(f, [EOT] + more);
    var tail := f.name + ([STX] + (f.noc + ([EOT] + more)));
    Associate(Head(f.side), uid, [STX] + tail);
    Associate(Head(f.side) + uid, [STX], tail);
    Joined(UidSpliced(b, uid), g, more);
  }

  lemma SideEdit(b: Bytes, f: Fencer, side: Octet)
    requires Shows(b, f)
    ensures Shows(b[3 := side], f.(side := side))
  {
    var tail := f.uid + ([STX] + (f.name + ([STX] + (f.noc + ([EOT] + Junk(b, f))))));
    Split(b, f);
    assert b[3 := side] == Head(side) + tail;
    var last := f.name + ([STX] + (f.noc + ([EOT] + Junk(b, f))));
    Associate(Head(side), f.uid, [STX] + last);
    Associate(Head(side) + f.uid, [STX], last);
    Joined(b[3 := side], f.(side := side), Junk(b, f));
  }

  /** The size counted up to the EOT is that of the frame. */
  lemma SizeIsFrame(b: Bytes, f: Fencer)
    requires Shows(b, f) && Wellformed(f)
    ensures EOT in b && EotIndex(b) + 1 == |Encode(f)|
  {
    var front := Head(f.side) + (f.uid + Kept(f));
    Split(b, f);
    KeptJoins(f, [EOT] + Junk(b, f));
    Associate(f.uid, Kept(f), [EOT] + Junk(b, f));
    Associate(Head(f.side), f.uid + Kept(f), [EOT] + Junk(b, f));
    assert b == front + ([EOT] + Junk(b, f));
    assert EOT !in Head(f.side) && EOT !in Kept(f);
    FirstAfter(front, EOT, Junk(b, f));
    assert b[|front|] == EOT;
  }

  // ---- Any sequence of edits ----

  datatype Edit = Uid(bytes: Bytes) | Name(bytes: Bytes) | Noc(bytes: Bytes) | Side(side: Octet)

  /** What a caller may pass: text without control bytes, an identifier of at most seven bytes, and any
      nation but a single letter. Names are cut off at twenty, nations at three. */
  predicate Allowed(e: Edit) {
    match e
    case Uid(u) => Plain(u) && |u| <= 7
    case Name(n) => Plain(n)
    case Noc(n) => Plain(n) && |n| != 1
    case Side(s) => s in {LEFT, RIGHT}
  }

  function EditedFencer(f: Fencer, e: Edit): Fencer
    requires Allowed(e)
  {
    match e
    case Uid(u) => f.(uid := u)
    case Name(n) => f.(name := Truncated(n, 20))
    case Noc(n) => f.(noc := Letters(n))
    case Side(s) => f.(side := s)
  }

  function EditedBuffer(b: Bytes, e: Edit): (r: Bytes)
    requires |b| == SIZE && Allowed(e)
    ensures |r| == SIZE
  {
    match e
    case Uid(u) => if UidFits(b, u) then UidSpliced(b, u) else b
    case Name(n) => NameSpliced(b, Truncated(n, 20))
    case Noc(n) => NocSpliced(b, Letters(n))
    case Side(s) => b[3 := s]
  }

  /** A fencer that the edits handle. */
  predicate Editable(f: Fencer) { Wellformed(f) && |f.uid| <= 7 }

  lemma EditKeepsForm(f: Fencer, e: Edit)
    requires Editable(f) && Allowed(e)
    ensures Editable(EditedFencer(f, e))
  {
    if e.Name? {
      assert forall x | x in Truncated(e.bytes, 20) :: x in e.bytes;
    }
  }

  lemma EditShows(b: Bytes, f: Fencer, e: Edit)
    requires Shows(b, f) && Editable(f) && Allowed(e)
    ensures Shows(EditedBuffer(b, e), EditedFencer(f, e))
  {
    match e {
      case Uid(u) => UidEdit(b, f, u);
      case Name(n) => NameEdit(b, f, Truncated(n, 20));
      case Noc(n) => NocEdit(b, f, Letters(n));
      case Side(s) => SideEdit(b, f, s);
    }
  }

  function FencerAfter(f: Fencer, es: seq<Edit>): Fencer
    requires forall i: nat | i < |es| :: Allowed(es[i])
  {
    if es == [] then f else EditedFencer(FencerAfter(f, es[..|es| - 1]), es[|es| - 1])
  }

  function BufferAfter(b: Bytes, es: seq<Edit>): (r: Bytes)
    requires |b| == SIZE && forall i: nat | i < |es| :: Allowed(es[i])
    ensures |r| == SIZE
  {
    if es == [] then b else EditedBuffer(BufferAfter(b, es[..|es| - 1]), es[|es| - 1])
  }

  /** After any sequence of allowed edits the buffer shows exactly the fencer that the same sequence
      leaves as a plain record. */
  lemma {:induction false} EditsShow(b: Bytes, f: Fencer, es: seq<Edit>)
    requires Shows(b, f) && Editable(f) && forall i: nat | i < |es| :: Allowed(es[i])
    ensures Shows(BufferAfter(b, es), FencerAfter(f, es)) && Editable(FencerAfter(f, es))
  {
    if es != [] {
      var before, e := es[..|es| - 1], es[|es| - 1];
      EditsShow(b, f, before);
      EditShows(BufferAfter(b, before), FencerAfter(f, before), e);
      EditKeepsForm(FencerAfter(f, before), e);
    }
  }

  /** The edits refine the record, and the size is always that of the frame. */
  lemma EditsRefineRecord(b: Bytes, f: Fencer, es: seq<Edit>)
    requires Shows(b, f) && Editable(f) && forall i: nat | i < |es| :: Allowed(es[i])
    ensures var r, g := BufferAfter(b, es), FencerAfter(f, es);
            Encode(g) <= r && EotIndex(r) + 1 == |Encode(g)|
  {
    EditsShow(b, f, es);
    SizeIsFrame(BufferAfter(b, es), FencerAfter(f, es));
  }

  // ---- The eight-byte identifier ----

  /** With an eighth byte in the identifier the search stops on that byte: the new name is written
      before the STX it should follow, and the name is set only if both names are empty. */
  lemma NameNeedsShortUid(b: Bytes, f: Fencer, name: Bytes)
    requires Shows(b, f) && Wellformed(f) && Plain(name) && |name| <= 20
    ensures Shows(NameSpliced(b, name), f.(name := name)) <==> |f.uid| <= 7 || (name == [] && f.name == [])
  {
    if |f.uid| <= 7 {
      NameEdit(b, f, name);
    } else {
      EightByteScan(b, f);
      EightByteName(b, f, name);
    }
  }

  lemma EightByteScan(b: Bytes, f: Fencer)
    requires Shows(b, f) && Wellformed(f) && |f.uid| == 8
    ensures Scan(b, 5, UID_LIMIT) == 12 && Scan(b, 13, LENGTH - 1) == 13
    ensures b[13] == STX && b[14] == if f.name == [] then STX else f.name[0]
  {
    Split(b, f);
    var tail := f.uid + ([STX] + (f.name + ([STX] + (f.noc + ([EOT] + Junk(b, f))))));
    Cat(Head(f.side), tail);
    assert b[5..12] == b[5..][..7] == f.uid[..7];
    FirstIs(b[5..12], STX, 7);
    assert b[13] == tail[8] == STX && b[14] == tail[9];
    FirstIs(b[13..LENGTH - 1], STX, 0);
  }

  lemma EightByteName(b: Bytes, f: Fencer, name: Bytes)
    requires Shows(b, f) && Wellformed(f) && Plain(name) && |name| <= 20 && |f.uid| == 8
    requires Scan(b, 5, UID_LIMIT) == 12 && Scan(b, 13, LENGTH - 1) == 13
    requires b[13] == STX && b[14] == if f.name == [] then STX else f.name[0]
    ensures Shows(NameSpliced(b, name), f.(name := name)) <==> name == [] && f.name == []
  {
    var r, g := NameSpliced(b, name), f.(name := name);
    if name == [] {
      assert r == b;
    } else {
      assert r[13] == name[0];
    }
    assert Encode(g)[13] == STX && Encode(g)[14] == if name == [] then STX else name[0];
    if Encode(g) <= r {
      assert r[13] == STX && r[14] == Encode(g)[14];
    }
  }

  function Behind(name: Bytes, noc: Bytes, more: Bytes): Bytes { name + ([STX] + (noc + ([EOT] + more))) }

  lemma EightByteTail(b: Bytes, f: Fencer)
    requires Shows(b, f) && |f.uid| == 8
    ensures |Front(f)| == 14 && b[..14] == Front(f) && b[14..] == Behind(f.name, f.noc, Junk(b, f))
  {
    Split(b, f);
    Cat(Front(f), Behind(f.name, f.noc, Junk(b, f)));
  }

  lemma BehindBytes(name: Bytes, noc: Bytes, more: Bytes)
    ensures var t := Behind(name, noc, more);
            && t[|name|] == STX && t[|name| + 1 + |noc|] == EOT
            && (forall k: nat | k < |name| :: t[k] == name[k])
            && forall k: nat | |name| < k <= |name| + |noc| :: t[k] == noc[k - |name| - 1]
  {
  }

  /** Past an eight-byte identifier the nation is written over the name. */
  lemma EightByteNoc(b: Bytes, f: Fencer, noc: Bytes)
    requires Shows(b, f) && Wellformed(f) && |noc| in {0, 3} && |f.uid| == 8
    ensures NocSpliced(b, noc) == Over(b, 14, if noc == [] then [EOT] else noc)
  {
    EightByteScan(b, f);
    assert b[14] != EOT;
    if noc != [] {
      OverOneMore(b, 14, noc);
    }
  }

  /** Writing a byte where it stands changes nothing. */
  lemma OverOneMore(b: Bytes, at: nat, bytes: Bytes)
    requires at + |bytes| < |b|
    ensures Over(b, at, bytes + [b[at + |bytes|]]) == Over(b, at, bytes)
  {
  }

  lemma OverTail(b: Bytes, at: nat, bytes: Bytes)
    requires at + |bytes| <= |b|
    ensures Over(b, at, bytes)[at..] == bytes + b[at..][|bytes|..] && Over(b, at, bytes)[..at] == b[..at]
  {
  }

  /** Three letters over the name show as the nation only where they change nothing. */
  lemma NocOverName(t: Bytes, name: Bytes, shown: Bytes, more: Bytes, noc: Bytes, more': Bytes)
    requires |t| >= 3 && t == Behind(name, shown, more) && noc + t[3..] == Behind(name, noc, more')
    requires Plain(noc) && |noc| == 3 && |shown| in {0, 3}
    ensures noc <= name && noc == shown
  {
    var r, n := noc + t[3..], |name|;
    BehindBytes(name, shown, more);
    BehindBytes(name, noc, more');
    assert r[n] == STX;
    assert r[0] == noc[0] && r[1] == noc[1] && r[2] == noc[2];
    assert n >= 3;
    assert forall k: nat | k < 3 :: noc[k] == r[k] == name[k];
    assert r[n + 1] == t[n + 1] && r[n + 2] == t[n + 2] && r[n + 3] == t[n + 3];
    assert noc[0] in noc;
  }

  lemma EotOverName(t: Bytes, name: Bytes, noc: Bytes, more: Bytes)
    requires Plain(name) && |t| > 0 && t[0] == EOT
    ensures t != Behind(name, noc, more)
  {
    BehindBytes(name, noc, more);
  }

  /** With an eighth byte in the identifier the nation is set only if it stands there already and the name
      begins with it, so that nothing changes. */
  lemma NocNeedsShortUid(b: Bytes, f: Fencer, noc: Bytes)
    requires Shows(b, f) && Wellformed(f) && Plain(noc) && |noc| in {0, 3}
    ensures Shows(NocSpliced(b, noc), f.(noc := noc)) <==>
            |f.uid| <= 7 || (noc != [] && noc == f.noc && noc <= f.name)
  {
    if |f.uid| <= 7 {
      NocEdit(b, f, noc);
    } else {
      if Shows(NocSpliced(b, noc), f.(noc := noc)) {
        NocShownTwice(b, f, noc);
      }
      if noc != [] && noc == f.noc && noc <= f.name {
        NocChangesNothing(b, f, noc);
      }
    }
  }

  lemma NocShownTwice(b: Bytes, f: Fencer, noc: Bytes)
    requires Shows(b, f) && Wellformed(f) && Plain(noc) && |noc| in {0, 3} && |f.uid| == 8
    requires Shows(NocSpliced(b, noc), f.(noc := noc))
    ensures noc != [] && noc == f.noc && noc <= f.name
  {
    var r, g := NocSpliced(b, noc), f.(noc := noc);
    EightByteNoc(b, f, noc);
    EightByteTail(b, f);
    EightByteTail(r, g);
    OverTail(b, 14, if noc == [] then [EOT] else noc);
    if noc == [] {
      EotOverName(r[14..], f.name, noc, Junk(r, g));
    } else {
      NocOverName(b[14..], f.name, f.noc, Junk(b, f), noc, Junk(r, g));
    }
  }

  lemma NocChangesNothing(b: Bytes, f: Fencer, noc: Bytes)
    requires Shows(b, f) && Wellformed(f) && |noc| == 3 && |f.uid| == 8 && noc == f.noc && noc <= f.name
    ensures NocSpliced(b, noc) == b && f.(noc := noc) == f
  {
    EightByteNoc(b, f, noc);
    EightByteTail(b, f);
    BehindBytes(f.name, f.noc, Junk(b, f));
    assert forall k: nat | k < 3 :: b[14 + k] == b[14..][k] == noc[k];
    OverSame(b, 14, noc);
  }

  lemma OverSame(b: Bytes, at: nat, bytes: Bytes)
    requires at + |bytes| <= |b| && forall k: nat | k < |bytes| :: b[at + k] == bytes[k]
    ensures Over(b, at, bytes) == b
  {
  }
}
