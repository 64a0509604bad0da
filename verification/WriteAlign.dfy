/** Aligned flash writes from an arbitrarily chunked stream (`ota/write_align.rs`). */
module WriteAlign {
  import opened Common

  const MAX_WRITE_SIZE := 8

  predicate ValidSize(n: nat) { n == 1 || n == 2 || n == 4 || n == 8 }

  /** `n` is a whole number of words. */
  predicate Words(n: nat, size: nat)
    requires size > 0
  {
    n % size == 0
  }

  /** `n` without its partial word. */
  function WholeLen(n: nat, size: nat): (w: nat)
    requires ValidSize(size)
    ensures w <= n < w + size && Words(w, size)
  {
    WholeLenBounds(n, size);
    n - n % size
  }

  lemma DropRemainder(n: nat)
    ensures (n - n % 2) % 2 == 0 && (n - n % 4) % 4 == 0 && (n - n % 8) % 8 == 0
  {
  }

  lemma WholeLenBounds(n: nat, size: nat)
    requires ValidSize(size)
    ensures n % size <= n && (n - n % size) % size == 0
  {
    DropRemainder(n);
    if size == 1 {
      assert n % 1 == 0;
    } else if size == 2 {
    } else if size == 4 {
    } else {
    }
  }

  lemma Twos(a: nat, b: nat)
    requires a % 2 == 0 && b % 2 == 0
    ensures (a + b) % 2 == 0 && (a < b ==> a + 2 <= b)
  {
  }

  lemma Fours(a: nat, b: nat)
    requires a % 4 == 0 && b % 4 == 0
    ensures (a + b) % 4 == 0 && (a < b ==> a + 4 <= b)
  {
  }

  lemma Eights(a: nat, b: nat)
    requires a % 8 == 0 && b % 8 == 0
    ensures (a + b) % 8 == 0 && (a < b ==> a + 8 <= b)
  {
  }

  /** The sum of two whole numbers of words is one, and if they differ it is by a word at least. */
  lemma WordsAdd(a: nat, b: nat, size: nat)
    requires ValidSize(size) && Words(a, size) && Words(b, size)
    ensures Words(a + b, size) && (a < b ==> a + size <= b)
  {
    if size == 2 {
      Twos(a, b);
    } else if size == 4 {
      Fours(a, b);
    } else if size == 8 {
      Eights(a, b);
    } else {
      assert (a + b) % 1 == 0;
    }
  }

  /** `len.div_ceil(align) * align`. */
  function RoundUp(len: nat, align: nat): (r: nat)
    requires align > 0
  {
    (len + align - 1) / align * align
  }

  lemma OneWordMore(p: int, size: nat)
    ensures p * size == (p - 1) * size + size
  {
  }

  /** Different multiples are a word apart at least. */
  lemma {:induction false} MultiplesApart(p: int, q: int, size: nat)
    requires p > q
    ensures p * size >= q * size + size
    decreases p - q
  {
    OneWordMore(p, size);
    if p - 1 > q {
      MultiplesApart(p - 1, q, size);
    }
  }

  lemma MultipleIsWords(q: nat, n: nat, size: nat)
    requires size > 0 && n == q * size
    ensures Words(n, size)
  {
    var p := n / size;
    if p < q {
      MultiplesApart(q, p, size);
    } else if p > q {
      MultiplesApart(p, q, size);
    }
  }

  lemma RoundUpBounds(len: nat, align: nat)
    requires align > 0
    ensures len <= RoundUp(len, align) < len + align && Words(RoundUp(len, align), align)
  {
    var n := len + align - 1;
    assert n / align * align + n % align == n;
    MultipleIsWords(n / align, RoundUp(len, align), align);
  }

  /** A multiple that is not below `r` less a word is not below the multiple `r`. */
  lemma LeastMultiple(r: nat, m: nat, align: nat)
    requires align > 0 && Words(r, align) && Words(m, align) && r < m + align
    ensures r <= m
  {
    var q, p := r / align, m / align;
    assert r == q * align && m == p * align;
    if q > p {
      MultiplesApart(q, p, align);
    } else if q < p {
      MultiplesApart(p, q, align);
    }
  }

  /** The least multiple that is not below, for any alignment. */
  lemma RoundUpIsLeast(len: nat, align: nat, m: nat)
    requires align > 0
    ensures len <= RoundUp(len, align) < len + align && Words(RoundUp(len, align), align)
    ensures Words(m, align) && len <= m ==> RoundUp(len, align) <= m
  {
    RoundUpBounds(len, align);
    if Words(m, align) && len <= m {
      LeastMultiple(RoundUp(len, align), m, align);
    }
  }

  // ----- the flash driver -----

  datatype Written = Written(offset: nat, data: seq<u8>)

  /** Writes the driver accepted, and how often it was called. */
  datatype Sink = Sink(writes: seq<Written>, calls: nat)

  /** Which calls the driver refuses. A refused call writes nothing. */
  type Refuses = iset<nat>

  function Called(s: Sink, w: Written, refuses: Refuses): Sink {
    Sink(if s.calls !in refuses then s.writes + [w] else s.writes, s.calls + 1)
  }

  class Flash {
    const refuses: Refuses
    var writes: seq<Written>
    var calls: nat

    constructor (refuses: Refuses)
      ensures this.refuses == refuses && Value() == Sink([], 0)
    {
      this.refuses, writes, calls := refuses, [], 0;
    }

    function Value(): Sink
      reads this
    {
      Sink(writes, calls)
    }

    method Write(offset: nat, data: seq<u8>) returns (ok: bool)
      modifies this
      ensures ok == (old(calls) !in refuses)
      ensures Value() == Called(old(Value()), Written(offset, data), refuses)
    {
      ok := calls !in refuses;
      calls := calls + 1;
      if ok {
        writes := writes + [Written(offset, data)];
      }
    }
  }

  // ----- the aligner -----

  datatype Outcome = Done | OutOfOrder | Refused

  /** The held-back bytes and where they belong. */
  datatype Aligner = Aligner(carry: seq<u8>, offset: nat)

  function Expected(a: Aligner): nat { a.offset + |a.carry| }

  /** With nothing held back: the first `whole` bytes go out, the others are held back. */
  function Split(whole: nat, offset: nat, s: Sink, refuses: Refuses, rest: seq<u8>): (Aligner, Sink, Outcome)
    requires whole <= |rest|
  {
    if whole == 0 then (Aligner(rest, offset), s, Done)
    else
      var s' := Called(s, Written(offset, rest[..whole]), refuses);
      if s.calls !in refuses then (Aligner(rest[whole..], offset + whole), s', Done)
      else (Aligner([], offset), s', Refused)
  }

  /** The stream bytes after the carry was dealt with: whole words go out, the rest is held back. */
  function Whole(size: nat, a: Aligner, s: Sink, refuses: Refuses, rest: seq<u8>): (Aligner, Sink, Outcome)
    requires ValidSize(size)
  {
    Split(WholeLen(|rest|, size), a.offset, s, refuses, rest)
  }

  /** How many of the bytes go into the held-back word. */
  function Missing(size: nat, a: Aligner, bytes: seq<u8>): (n: nat)
    requires |a.carry| <= size
  {
    if size - |a.carry| < |bytes| then size - |a.carry| else |bytes|
  }

  function Pushed(size: nat, a: Aligner, s: Sink, refuses: Refuses, offset: nat, bytes: seq<u8>)
    : (Aligner, Sink, Outcome)
    requires ValidSize(size) && |a.carry| <= size
  {
    if offset != Expected(a) then (a, s, OutOfOrder)
    else if a.carry == [] then Whole(size, a, s, refuses, bytes)
    else
      var take := Missing(size, a, bytes);
      var full := a.(carry := a.carry + bytes[..take]);
      if |full.carry| < size then (full, s, Done)
      else
        var s' := Called(s, Written(a.offset, full.carry), refuses);
        if s.calls !in refuses then Whole(size, Aligner([], a.offset + size), s', refuses, bytes[take..])
        else (full, s', Refused)
  }

  function Padding(n: nat): (p: seq<u8>)
    ensures |p| == n
  {
    seq(n, _ => 0xFF)
  }

  function Finished(size: nat, a: Aligner, s: Sink, refuses: Refuses, end: nat): (Aligner, Sink, Outcome)
    requires |a.carry| <= size
  {
    if a.carry == [] then (a, s, Done)
    else if end != Expected(a) then (a, s, OutOfOrder)
    else
      var s' := Called(s, Written(a.offset, a.carry + Padding(size - |a.carry|)), refuses);
      if s.calls !in refuses then (Aligner([], a.offset + size), s', Done) else (a, s', Refused)
  }

  class ChunkAligner {
    const writeSize: nat
    const carry: array<u8>
    var carryLen: nat
    var carryOffset: u32

    constructor (writeSize: nat)
      requires ValidSize(writeSize)
      ensures Valid() && Value() == Aligner([], 0) && this.writeSize == writeSize && fresh(carry)
    {
      this.writeSize := writeSize;
      carry := new u8[MAX_WRITE_SIZE](_ => 0);
      carryLen, carryOffset := 0, 0;
    }

    predicate Valid()
      reads this
    {
      && ValidSize(writeSize) && carry.Length == MAX_WRITE_SIZE && carryLen <= writeSize
      && carryOffset + carryLen < TWO_32
    }

    function Value(): Aligner
      requires Valid()
      reads this, carry
    {
      Aligner(carry[..carryLen], carryOffset)
    }

    /** Feeds the stream bytes at `offset`. Bytes that are in order have to end within 32 bits: beyond
        that the stream has no offset to be resumed at. */
    method Push(offset: u32, bytes: seq<u8>, flash: Flash) returns (r: Outcome)
      requires Valid() && (offset == carryOffset + carryLen ==> offset + |bytes| < TWO_32)
      modifies this, carry, flash
      ensures Valid()
      ensures (Value(), flash.Value(), r)
              == Pushed(writeSize, old(Value()), old(flash.Value()), flash.refuses, offset, bytes)
    {
      ghost var a, s := Value(), flash.Value();
      if offset != carryOffset + carryLen {
        return OutOfOrder;
      }
      var rest := bytes;
      if carryLen > 0 {
        // Complete the held-back word first.
        var take := if writeSize - carryLen < |rest| then writeSize - carryLen else |rest|;
        Hold(rest[..take]);
        rest := rest[take..];
        assert Value() == a.(carry := a.carry + bytes[..Missing(writeSize, a, bytes)]);
        if carryLen < writeSize {
          return Done;
        }
        var ok := flash.Write(carryOffset, carry[..writeSize]);
        if !ok {
          return Refused;
        }
        carryOffset := carryOffset + writeSize;
        carryLen := 0;
        CarryWritten(writeSize, a, s, flash.refuses, bytes, carry[..writeSize]);
      }
      assert Pushed(writeSize, a, s, flash.refuses, offset, bytes)
             == Whole(writeSize, Aligner([], carryOffset), flash.Value(), flash.refuses, rest);
      r := PushWhole(rest, flash);
    }

    /** Appends to the held-back bytes. */
    method Hold(bytes: seq<u8>)
      requires Valid() && carryLen + |bytes| <= writeSize && carryOffset + carryLen + |bytes| < TWO_32
      modifies this`carryLen, carry
      ensures Valid() && Value() == Aligner(old(carry[..carryLen]) + bytes, carryOffset)
    {
      ghost var before := carry[..carryLen];
      forall i | 0 <= i < |bytes| {
        carry[carryLen + i] := bytes[i];
      }
      carryLen := carryLen + |bytes|;
      assert carry[..carryLen] == before + bytes;
    }

    /** With nothing held back: whole words straight from the caller's bytes, the rest held back. */
    method PushWhole(bytes: seq<u8>, flash: Flash) returns (r: Outcome)
      requires Valid() && carryLen == 0 && carryOffset + |bytes| < TWO_32
      modifies this, carry, flash
      ensures Valid()
      ensures (Value(), flash.Value(), r)
              == Whole(writeSize, Aligner([], old(carryOffset)), old(flash.Value()), flash.refuses, bytes)
    {
      var rest := bytes;
      var whole := |rest| - |rest| % writeSize;
      if whole > 0 {
        var ok := flash.Write(carryOffset, rest[..whole]);
        if !ok {
          assert carry[..carryLen] == [];
          return Refused;
        }
        carryOffset := carryOffset + whole;
        rest := rest[whole..];
      }
      Hold(rest);
      assert [] + rest == rest;
      return Done;
    }

    /** Writes the held-back tail, padded with the erased value; the padded word has to end within
        32 bits if it is written. */
    method Finish(end: u32, flash: Flash) returns (r: Outcome)
      requires Valid()
      requires carryLen > 0 && end == carryOffset + carryLen && flash.calls !in flash.refuses
               ==> carryOffset + writeSize < TWO_32
      modifies this, carry, flash
      ensures Valid()
      ensures (Value(), flash.Value(), r)
              == Finished(writeSize, old(Value()), old(flash.Value()), flash.refuses, end)
    {
      if carryLen == 0 {
        return Done;
      }
      if end != carryOffset + carryLen {
        return OutOfOrder;
      }
      ghost var a0 := Value();
      forall i | carryLen <= i < writeSize {
        carry[i] := 0xFF;
      }
      assert carry[..carryLen] == a0.carry;
      assert carry[..writeSize] == a0.carry + Padding(writeSize - carryLen);
      var ok := flash.Write(carryOffset, carry[..writeSize]);
      if !ok {
        return Refused;
      }
      carryOffset := carryOffset + writeSize;
      carryLen := 0;
      assert carry[..carryLen] == [];
      return Done;
    }
  }

  // ----- the image -----

  /** The bytes on flash after the first `n` writes, front to back. */
  function ImageOf(writes: seq<Written>, n: nat): seq<u8>
    requires n <= |writes|
  {
    if n == 0 then [] else ImageOf(writes, n - 1) + writes[n - 1].data
  }

  function Image(writes: seq<Written>): seq<u8> { ImageOf(writes, |writes|) }

  /** Each of the first `n` writes starts where the one before ended, on a multiple of the write
      size, and has a positive multiple of the write size as its length. */
  predicate AlignedTo(size: nat, writes: seq<Written>, n: nat)
    requires ValidSize(size) && n <= |writes|
  {
    n == 0 ||
    (&& AlignedTo(size, writes, n - 1)
     && writes[n - 1].offset == |ImageOf(writes, n - 1)| && Words(writes[n - 1].offset, size)
     && |writes[n - 1].data| > 0 && Words(|writes[n - 1].data|, size))
  }

  predicate AlignedWrites(size: nat, writes: seq<Written>)
    requires ValidSize(size)
  {
    AlignedTo(size, writes, |writes|)
  }

  /** The aligner stands on a word boundary, right behind the aligned writes it made so far. */
  predicate Sound(size: nat, a: Aligner, s: Sink)
    requires ValidSize(size)
  {
    Undivided(
      && |a.carry| <= size
      && AlignedWrites(size, s.writes)
      && a.offset == |Image(s.writes)|
      && Words(a.offset, size))
  }

  /** What was taken from the stream so far: on flash, or held back. */
  function Content(a: Aligner, s: Sink): seq<u8> { Image(s.writes) + a.carry }

  /** One more write changes nothing about the writes before it. */
  lemma {:induction false} LongerWrites(size: nat, writes: seq<Written>, w: Written, n: nat)
    requires ValidSize(size) && n <= |writes|
    ensures ImageOf(writes + [w], n) == ImageOf(writes, n)
    ensures AlignedTo(size, writes + [w], n) <==> AlignedTo(size, writes, n)
    decreases n
  {
    if n > 0 {
      LongerWrites(size, writes, w, n - 1);
      assert (writes + [w])[n - 1] == writes[n - 1];
    }
  }

  /** An accepted write of whole words, right behind the others. */
  lemma WriteKeeps(size: nat, offset: nat, s: Sink, refuses: Refuses, data: seq<u8>)
    requires ValidSize(size) && Sound(size, Aligner([], offset), s) && s.calls !in refuses
    requires |data| > 0 && Words(|data|, size)
    ensures Sound(size, Aligner([], offset + |data|), Called(s, Written(offset, data), refuses))
    ensures Image(Called(s, Written(offset, data), refuses).writes) == Image(s.writes) + data
  {
    var w := Written(offset, data);
    LongerWrites(size, s.writes, w, |s.writes|);
    assert (s.writes + [w])[|s.writes|] == w;
    WordsAdd(offset, |data|, size);
  }

  lemma SplitKeeps(size: nat, whole: nat, offset: nat, s: Sink, refuses: Refuses, rest: seq<u8>)
    requires ValidSize(size) && Sound(size, Aligner([], offset), s)
    requires whole <= |rest| < whole + size && Words(whole, size)
    ensures var (a', s', r) := Split(whole, offset, s, refuses, rest);
            && Sound(size, a', s') && r != OutOfOrder
            && (r.Done? ==> Content(a', s') == Image(s.writes) + rest && |a'.carry| < size)
            && (r.Refused? ==> Content(a', s') == Image(s.writes))
  {
    if whole > 0 && s.calls !in refuses {
      WriteKeeps(size, offset, s, refuses, rest[..whole]);
      assert rest == rest[..whole] + rest[whole..];
    }
  }

  /** How a push of `bytes` may end: a first part of them was taken, behind what was taken before. */
  predicate Taken(size: nat, a: Aligner, s: Sink, bytes: seq<u8>, end: (Aligner, Sink, Outcome))
    requires ValidSize(size)
  {
    Undivided(
      && Sound(size, end.0, end.1) && end.2 != OutOfOrder
      && 0 <= Expected(end.0) - Expected(a) <= |bytes|
      && Content(end.0, end.1) == Content(a, s) + bytes[..Expected(end.0) - Expected(a)]
      && (end.2.Done? ==> Expected(end.0) == Expected(a) + |bytes| && |end.0.carry| < size))
  }

  /** With nothing held back. */
  lemma WholeTakes(size: nat, a: Aligner, s: Sink, refuses: Refuses, bytes: seq<u8>)
    requires ValidSize(size) && Sound(size, a, s) && a.carry == []
    ensures Taken(size, a, s, bytes, Whole(size, a, s, refuses, bytes))
  {
    assert a == Aligner([], a.offset) && Content(a, s) == Image(s.writes);
    SplitKeeps(size, WholeLen(|bytes|, size), a.offset, s, refuses, bytes);
  }

  /** What is taken after the first `take` bytes were taken. */
  lemma TakenLater(size: nat, a: Aligner, s: Sink, b: Aligner, s': Sink, bytes: seq<u8>, take: nat,
          end: (Aligner, Sink, Outcome))
    requires ValidSize(size) && take <= |bytes| && Taken(size, b, s', bytes[take..], end)
    requires Expected(b) == Expected(a) + take && Content(b, s') == Content(a, s) + bytes[..take]
    ensures Taken(size, a, s, bytes, end)
  {
    var n := Expected(end.0) - Expected(b);
    assert bytes[..take] + bytes[take..][..n] == bytes[..take + n];
  }

  /** Pushing bytes where they are expected keeps everything in order, whatever the driver refuses;
      a completed push takes all of them, a refused one leaves the aligner ready to be resumed at
      the position it then expects. */
  lemma PushTakes(size: nat, a: Aligner, s: Sink, refuses: Refuses, bytes: seq<u8>)
    requires ValidSize(size) && Sound(size, a, s)
    ensures Taken(size, a, s, bytes, Pushed(size, a, s, refuses, Expected(a), bytes))
  {
    if a.carry == [] {
      WholeTakes(size, a, s, refuses, bytes);
    } else {
      var take := Missing(size, a, bytes);
      var word := a.carry + bytes[..take];
      if |word| < size || s.calls in refuses {
        HeldBack(size, a, s, refuses, bytes);
      } else {
        CarryWritten(size, a, s, refuses, bytes, word);
        WordWritten(size, a, s, refuses, bytes, word);
      }
    }
  }

  /** The held-back word stays held back. */
  lemma HeldBack(size: nat, a: Aligner, s: Sink, refuses: Refuses, bytes: seq<u8>)
    requires ValidSize(size) && Sound(size, a, s) && a.carry != []
    requires |a.carry| + Missing(size, a, bytes) < size || s.calls in refuses
    ensures Taken(size, a, s, bytes, Pushed(size, a, s, refuses, Expected(a), bytes))
  {
    var take := Missing(size, a, bytes);
    var word := a.carry + bytes[..take];
    assert Content(a.(carry := word), s) == Content(a, s) + bytes[..take];
  }

  lemma CarryWritten(size: nat, a: Aligner, s: Sink, refuses: Refuses, bytes: seq<u8>, word: seq<u8>)
    requires ValidSize(size) && |a.carry| <= size && a.carry != [] && s.calls !in refuses
    requires word == a.carry + bytes[..Missing(size, a, bytes)] && |word| == size
    ensures Pushed(size, a, s, refuses, Expected(a), bytes)
            == Whole(size, Aligner([], a.offset + size), Called(s, Written(a.offset, word), refuses), refuses,
                     bytes[Missing(size, a, bytes)..])
  {
  }

  lemma WordWritten(size: nat, a: Aligner, s: Sink, refuses: Refuses, bytes: seq<u8>, word: seq<u8>)
    requires ValidSize(size) && Sound(size, a, s) && a.carry != [] && s.calls !in refuses
    requires word == a.carry + bytes[..Missing(size, a, bytes)] && |word| == size
    ensures Taken(size, a, s, bytes,
                  Whole(size, Aligner([], a.offset + size), Called(s, Written(a.offset, word), refuses), refuses,
                        bytes[Missing(size, a, bytes)..]))
  {
    var take, b := Missing(size, a, bytes), Aligner([], a.offset + size);
    var s' := Called(s, Written(a.offset, word), refuses);
    assert Words(size, size);
    WriteKeeps(size, a.offset, s, refuses, word);
    assert Content(b, s') == Content(a, s) + bytes[..take];
    WholeTakes(size, b, s', refuses, bytes[take..]);
    TakenLater(size, a, s, b, s', bytes, take, Whole(size, b, s', refuses, bytes[take..]));
  }

  /** A piece of at most `piece` bytes of the stream, from where the aligner stands. */
  function Piece(a: Aligner, stream: seq<u8>, piece: nat): seq<u8>
    requires Expected(a) <= |stream|
  {
    stream[Expected(a)..][..if piece <= |stream| - Expected(a) then piece else |stream| - Expected(a)]
  }

  /** All that was taken is the front of the stream. */
  predicate Follows(size: nat, a: Aligner, s: Sink, stream: seq<u8>)
    requires ValidSize(size)
  {
    Sound(size, a, s) && Expected(a) <= |stream| && Content(a, s) == stream[..Expected(a)]
  }

  lemma PieceFollows(size: nat, a: Aligner, s: Sink, stream: seq<u8>, piece: nat, end: (Aligner, Sink, Outcome))
    requires ValidSize(size) && Follows(size, a, s, stream) && Taken(size, a, s, Piece(a, stream, piece), end)
    ensures Follows(size, end.0, end.1, stream)
  {
    var n := Expected(end.0) - Expected(a);
    assert stream[..Expected(a)] + Piece(a, stream, piece)[..n] == stream[..Expected(a) + n];
  }

  /** A caller that pushes the stream in pieces of the given sizes, each time from where the aligner
      then stands; what the driver refuses is offered again from there. */
  function PushAll(size: nat, a: Aligner, s: Sink, refuses: Refuses, stream: seq<u8>, pieces: seq<nat>)
    : (end: (Aligner, Sink))
    requires ValidSize(size) && Follows(size, a, s, stream)
    ensures Follows(size, end.0, end.1, stream)
    decreases |pieces|
  {
    if pieces == [] then (a, s)
    else
      var bytes := Piece(a, stream, pieces[0]);
      var end := Pushed(size, a, s, refuses, Expected(a), bytes);
      PushTakes(size, a, s, refuses, bytes);
      PieceFollows(size, a, s, stream, pieces[0], end);
      PushAll(size, end.0, end.1, refuses, stream, pieces[1..])
  }

  /** The stream padded with the erased value to a whole number of words. */
  function Padded(size: nat, stream: seq<u8>): seq<u8>
    requires ValidSize(size)
  {
    RoundUpIsLeast(|stream|, size, 0);
    stream + seq(RoundUp(|stream|, size) - |stream|, _ => 0xFF)
  }

  /** With a partial word held back the padded length is one word beyond it. */
  lemma PaddedLength(size: nat, offset: nat, len: nat)
    requires ValidSize(size) && Words(offset, size) && offset <= len <= offset + size
    ensures RoundUp(len, size) == if len == offset then offset else offset + size
  {
    WordsAdd(offset, size, size);
    RoundUpIsLeast(len, size, offset);
    RoundUpIsLeast(len, size, offset + size);
    if len > offset {
      WordsAdd(offset, RoundUp(len, size), size);
    }
  }

  /** How the final flush of a completely taken stream may end. */
  predicate Flushed(size: nat, a: Aligner, s: Sink, stream: seq<u8>, end: (Aligner, Sink, Outcome))
    requires ValidSize(size)
  {
    && end.2 != OutOfOrder
    && (end.2.Done? ==>
          && AlignedWrites(size, end.1.writes) && Image(end.1.writes) == Padded(size, stream)
          && end.0 == Aligner([], |Padded(size, stream)|))
    && (end.2.Refused? ==> end.0 == a && end.1.writes == s.writes)
  }

  lemma FinishFlushes(size: nat, a: Aligner, s: Sink, refuses: Refuses, stream: seq<u8>)
    requires ValidSize(size) && Follows(size, a, s, stream) && Expected(a) == |stream|
    ensures Flushed(size, a, s, stream, Finished(size, a, s, refuses, |stream|))
  {
    PaddedLength(size, a.offset, |stream|);
    assert Content(a, s) == stream;
    var pad := Padding(size - |a.carry|);
    if a.carry != [] && s.calls !in refuses {
      var word := a.carry + pad;
      assert |word| == size && Words(size, size);
      WriteKeeps(size, a.offset, s, refuses, word);
      assert Image(s.writes) + (a.carry + pad) == stream + pad;
    }
  }

  lemma FreshFollows(size: nat, stream: seq<u8>)
    requires ValidSize(size)
    ensures Follows(size, Aligner([], 0), Sink([], 0), stream)
  {
    assert 0 % size == 0;
  }

  /** However the stream, or what is left of it, is cut into pieces and whatever the driver refuses on
      the way, once all of it was taken and the final flush is accepted the writes are aligned,
      contiguous and in order, and the image is the stream padded to whole words. */
  lemma ImageIsChunkIndependent(size: nat, a: Aligner, s: Sink, refuses: Refuses, stream: seq<u8>, pieces: seq<nat>,
          end: (Aligner, Sink))
    requires ValidSize(size) && Follows(size, a, s, stream)
    requires end == PushAll(size, a, s, refuses, stream, pieces) && Expected(end.0) == |stream|
    ensures |end.0.carry| <= size
            && Flushed(size, end.0, end.1, stream, Finished(size, end.0, end.1, refuses, |stream|))
  {
    FinishFlushes(size, end.0, end.1, refuses, stream);
  }

  function Sum(pieces: seq<nat>): nat {
    if pieces == [] then 0 else pieces[0] + Sum(pieces[1..])
  }

  /** With a driver that refuses nothing, pieces that add up to the stream bring all of it. */
  lemma {:induction false} PiecesBringAll(size: nat, a: Aligner, s: Sink, stream: seq<u8>, pieces: seq<nat>)
    requires ValidSize(size) && Follows(size, a, s, stream) && Sum(pieces) >= |stream| - Expected(a)
    ensures Expected(PushAll(size, a, s, iset{}, stream, pieces).0) == |stream|
    decreases |pieces|
  {
    if pieces != [] {
      var bytes := Piece(a, stream, pieces[0]);
      var end := Pushed(size, a, s, iset{}, Expected(a), bytes);
      PushTakes(size, a, s, iset{}, bytes);
      PieceFollows(size, a, s, stream, pieces[0], end);
      assert end.2.Done?;
      PiecesBringAll(size, end.0, end.1, stream, pieces[1..]);
    }
  }

  lemma UnrefusedFinish(size: nat, a: Aligner, s: Sink)
    requires |a.carry| <= size
    ensures Finished(size, a, s, iset{}, Expected(a)).2 == Done
  {
  }

  /** With such a driver every way of cutting the stream ends in the same image. */
  lemma UnrefusedImage(size: nat, a: Aligner, s: Sink, stream: seq<u8>, pieces: seq<nat>, end: (Aligner, Sink))
    requires ValidSize(size) && Follows(size, a, s, stream) && Sum(pieces) >= |stream| - Expected(a)
    requires end == PushAll(size, a, s, iset{}, stream, pieces)
    ensures |end.0.carry| <= size
    ensures var (a', s', r) := Finished(size, end.0, end.1, iset{}, |stream|);
            r == Done && AlignedWrites(size, s'.writes) && Image(s'.writes) == Padded(size, stream)
  {
    PiecesBringAll(size, a, s, stream, pieces);
    UnrefusedFinish(size, end.0, end.1);
    ImageIsChunkIndependent(size, a, s, iset{}, stream, pieces, end);
  }

  /** From a new aligner on an empty flash: pieces that add up to the stream, then the flush. */
  lemma NewAlignerWritesImage(size: nat, stream: seq<u8>, pieces: seq<nat>)
    requires ValidSize(size) && Sum(pieces) >= |stream|
    ensures Follows(size, Aligner([], 0), Sink([], 0), stream)
    ensures var end := PushAll(size, Aligner([], 0), Sink([], 0), iset{}, stream, pieces);
            && |end.0.carry| <= size
            && var (a', s', r) := Finished(size, end.0, end.1, iset{}, |stream|);
            && r == Done && AlignedWrites(size, s'.writes) && Image(s'.writes) == Padded(size, stream)
  {
    FreshFollows(size, stream);
    UnrefusedImage(size, Aligner([], 0), Sink([], 0), stream, pieces,
                   PushAll(size, Aligner([], 0), Sink([], 0), iset{}, stream, pieces));
  }

  // ----- what is not taken -----

  /** Bytes or an end at another offset than the expected one are refused as out of order, and nothing
      else is; nothing changes then. An end with nothing held back is not checked. */
  lemma WrongOffsetExactly(size: nat, a: Aligner, s: Sink, refuses: Refuses, offset: nat, bytes: seq<u8>)
    requires ValidSize(size) && |a.carry| <= size
    ensures var pushed, finished := Pushed(size, a, s, refuses, offset, bytes), Finished(size, a, s, refuses, offset);
            && (pushed.2 == OutOfOrder <==> offset != a.offset + |a.carry|)
            && (finished.2 == OutOfOrder <==> offset != a.offset + |a.carry| && a.carry != [])
            && (pushed.2 == OutOfOrder ==> pushed.0 == a && pushed.1 == s)
            && (finished.2 == OutOfOrder || a.carry == [] ==> finished.0 == a && finished.1 == s)
  {
  }

  /** Some call made from `s` to `s'` was refused. */
  ghost predicate SomeRefused(s: Sink, s': Sink, refuses: Refuses) {
    exists c :: s.calls <= c < s'.calls && c in refuses
  }

  lemma SplitRefused(whole: nat, offset: nat, s: Sink, refuses: Refuses, rest: seq<u8>)
    requires whole <= |rest|
    ensures var (a', s', r) := Split(whole, offset, s, refuses, rest);
            && (r == Refused <==> SomeRefused(s, s', refuses)) && s.calls <= s'.calls <= s.calls + 1
            && (r == Refused ==> a' == Aligner([], offset))
  {
    var (a', s', r) := Split(whole, offset, s, refuses, rest);
    if whole > 0 && s.calls in refuses {
      assert s.calls < s'.calls;
    }
  }

  /** A push is refused exactly if the driver refused one of its calls. It then took the rest of the
      held-back word if there was one, and nothing else: the word stays held back unless its own
      write went through. */
  lemma RefusedPushExactly(size: nat, a: Aligner, s: Sink, refuses: Refuses, bytes: seq<u8>)
    requires ValidSize(size) && |a.carry| <= size
    ensures var (a', s', r) := Pushed(size, a, s, refuses, Expected(a), bytes);
            && (r == Refused <==> SomeRefused(s, s', refuses))
            && (r == Refused ==>
                  && Expected(a') == (if a.carry == [] then a.offset else a.offset + size)
                  && (a'.carry != [] <==> a.carry != [] && s.calls in refuses))
  {
    if a.carry == [] {
      SplitRefused(WholeLen(|bytes|, size), a.offset, s, refuses, bytes);
    } else {
      var take := Missing(size, a, bytes);
      var word := a.carry + bytes[..take];
      if |word| == size {
        var s1 := Called(s, Written(a.offset, word), refuses);
        var rest := bytes[take..];
        SplitRefused(WholeLen(|rest|, size), a.offset + size, s1, refuses, rest);
        var (a', s', r) := Pushed(size, a, s, refuses, Expected(a), bytes);
        assert s.calls in refuses ==> s.calls < s'.calls;
        assert SomeRefused(s1, s', refuses) ==> SomeRefused(s, s', refuses);
      }
    }
  }
}
