/** Joining a received MQTT message that arrives in chunks (`mqtt/chunks.rs`). */
module Chunks {
  import opened Common

  datatype Chunk =
    | Complete(topic: string, data: seq<u8>)
    | First(topic: string, data: seq<u8>, total: nat)
    | Next(data: seq<u8>, offset: nat, total: nat)

  datatype Assembled =
    | Message(topic: string, payload: seq<u8>)
    | Pending
    | TooLarge
    | OutOfOrder

  datatype Progress =
    | Idle
    | Collecting(topic: string, payload: seq<u8>, total: nat)
    | Skipping(total: nat)

  datatype Assembler = Assembler(progress: Progress, abandoned: u32)

  const FRESH := Assembler(Idle, 0)

  function Abandoned(a: Assembler): Assembler {
    Assembler(Idle, if a.progress.Collecting? then WrappingAdd32(a.abandoned, 1) else a.abandoned)
  }

  /** The message is handed out once it is as long as announced. */
  function Collected(topic: string, payload: seq<u8>, total: nat, abandoned: u32): (Assembler, Assembled) {
    if |payload| == total then (Assembler(Idle, abandoned), Message(topic, payload))
    else (Assembler(Collecting(topic, payload, total), abandoned), Pending)
  }

  /** The chunk continues the message in progress. */
  predicate Continues(p: Progress, c: Chunk) {
    p.Collecting? && c.Next? && p.total == c.total && c.offset == |p.payload| && c.offset + |c.data| <= c.total
  }

  function Fed(maxLen: nat, a: Assembler, c: Chunk): (Assembler, Assembled) {
    match c
    case Complete(topic, data) =>
      (Abandoned(a), if |data| > maxLen then TooLarge else Message(topic, data))
    case First(topic, data, total) =>
      if total > maxLen then (Abandoned(a).(progress := Skipping(total)), TooLarge)
      else Collected(topic, data, total, Abandoned(a).abandoned)
    case Next(data, offset, total) =>
      if Continues(a.progress, c) then Collected(a.progress.topic, a.progress.payload + data, total, a.abandoned)
      else if a.progress.Skipping? && a.progress.total == total then
        (if offset + |data| >= total then a.(progress := Idle) else a, Pending)
      else (Abandoned(a), OutOfOrder)
  }

  class ChunkAssembler {
    const maxLen: nat
    var progress: Progress
    var abandoned: u32

    constructor (maxLen: nat)
      ensures Value() == FRESH && this.maxLen == maxLen
    {
      this.maxLen, progress, abandoned := maxLen, Idle, 0;
    }

    function Value(): Assembler
      reads this
    {
      Assembler(progress, abandoned)
    }

    method Feed(chunk: Chunk) returns (r: Assembled)
      modifies this
      ensures (Value(), r) == Fed(maxLen, old(Value()), chunk)
    {
      match chunk
      case Complete(topic, data) =>
        Abandon();
        if |data| > maxLen {
          return TooLarge;
        }
        return Message(topic, data);
      case First(topic, data, total) =>
        Abandon();
        if total > maxLen {
          progress := Skipping(total);
          return TooLarge;
        }
        progress := Collecting(topic, data, total);
        r := FinishIfComplete();
      case Next(data, offset, total) =>
        if progress.Collecting? && progress.total == total && offset == |progress.payload| && offset + |data| <= total {
          progress := progress.(payload := progress.payload + data);
          r := FinishIfComplete();
        } else if progress.Skipping? && progress.total == total {
          if offset + |data| >= total {
            progress := Idle;
          }
          return Pending;
        } else {
          Abandon();
          return OutOfOrder;
        }
    }

    method FinishIfComplete() returns (r: Assembled)
      requires progress.Collecting?
      modifies this`progress
      ensures (Value(), r) == Collected(old(progress).topic, old(progress).payload, old(progress).total, abandoned)
    {
      if |progress.payload| == progress.total {
        r := Message(progress.topic, progress.payload);
        progress := Idle;
      } else {
        r := Pending;
      }
    }

    method Abandon()
      modifies this
      ensures Value() == Abandoned(old(Value()))
    {
      if progress.Collecting? {
        abandoned := WrappingAdd32(abandoned, 1);
      }
      progress := Idle;
    }
  }

  // ----- runs -----

  function Front<T>(s: seq<T>): seq<T>
    requires s != []
  {
    s[..|s| - 1]
  }

  function Last<T>(s: seq<T>): T
    requires s != []
  {
    s[|s| - 1]
  }

  function After(maxLen: nat, a: Assembler, chunks: seq<Chunk>): Assembler {
    if chunks == [] then a else Fed(maxLen, After(maxLen, a, Front(chunks)), Last(chunks)).0
  }

  function Outputs(maxLen: nat, a: Assembler, chunks: seq<Chunk>): (r: seq<Assembled>)
    ensures |r| == |chunks|
  {
    if chunks == [] then []
    else Outputs(maxLen, a, Front(chunks)) + [Fed(maxLen, After(maxLen, a, Front(chunks)), Last(chunks)).1]
  }

  /** A message in progress is within the cap and not as long as announced. */
  predicate Inv(maxLen: nat, a: Assembler) {
    a.progress.Collecting? ==> a.progress.total <= maxLen && |a.progress.payload| != a.progress.total
  }

  lemma {:induction false} InvHolds(maxLen: nat, a: Assembler, chunks: seq<Chunk>)
    requires Inv(maxLen, a)
    ensures Inv(maxLen, After(maxLen, a, chunks))
  {
    if chunks != [] {
      InvHolds(maxLen, a, Front(chunks));
    }
  }

  // ----- a split message arrives -----

  function Flat(pieces: seq<seq<u8>>): seq<u8> {
    if pieces == [] then [] else Flat(Front(pieces)) + Last(pieces)
  }

  /** The chunks of a message cut into `pieces`. */
  function ChunksOf(topic: string, pieces: seq<seq<u8>>, total: nat): (r: seq<Chunk>)
    requires pieces != []
    ensures |r| == |pieces|
  {
    if |pieces| == 1 then [First(topic, pieces[0], total)]
    else ChunksOf(topic, Front(pieces), total) + [Next(Last(pieces), |Flat(Front(pieces))|, total)]
  }

  function Pendings(n: nat): seq<Assembled> { seq(n, _ => Pending) }

  lemma ChunksOfFront(topic: string, pieces: seq<seq<u8>>, total: nat)
    requires |pieces| > 1
    ensures var chunks := ChunksOf(topic, pieces, total);
            && Front(chunks) == ChunksOf(topic, Front(pieces), total)
            && Last(chunks) == Next(Last(pieces), |Flat(Front(pieces))|, total)
  {
  }

  lemma OnePiece(maxLen: nat, a: Assembler, c: Chunk)
    ensures After(maxLen, a, [c]) == Fed(maxLen, a, c).0
    ensures Outputs(maxLen, a, [c]) == [Fed(maxLen, a, c).1]
  {
    assert Front([c]) == [] && Last([c]) == c;
    assert Outputs(maxLen, a, []) == [];
  }

  lemma OneMore(maxLen: nat, a: Assembler, chunks: seq<Chunk>, c: Chunk)
    ensures After(maxLen, a, chunks + [c]) == Fed(maxLen, After(maxLen, a, chunks), c).0
    ensures Outputs(maxLen, a, chunks + [c])
            == Outputs(maxLen, a, chunks) + [Fed(maxLen, After(maxLen, a, chunks), c).1]
  {
    assert Front(chunks + [c]) == chunks && Last(chunks + [c]) == c;
  }

  lemma MorePendings(n: nat)
    ensures Pendings(n) + [Pending] == Pendings(n + 1)
  {
  }

  lemma JoinedPiece(maxLen: nat, a: Assembler, c: Chunk)
    requires Continues(a.progress, c)
    ensures Fed(maxLen, a, c) == Collected(a.progress.topic, a.progress.payload + c.data, c.total, a.abandoned)
  {
  }

  /** While pieces are missing each one is answered with `Pending`. */
  lemma {:induction false} PiecesCollect(maxLen: nat, a: Assembler, topic: string, pieces: seq<seq<u8>>, total: nat)
    requires pieces != [] && |Flat(pieces)| <= total <= maxLen
    requires |pieces| > 1 ==> |Flat(Front(pieces))| < total
    ensures var chunks := ChunksOf(topic, pieces, total);
            var missing := |Flat(pieces)| < total;
            && After(maxLen, a, chunks).progress == (if missing then Collecting(topic, Flat(pieces), total) else Idle)
            && Outputs(maxLen, a, chunks)
               == Pendings(|pieces| - 1) + [if missing then Pending else Message(topic, Flat(pieces))]
  {
    if |pieces| == 1 {
      OnePiece(maxLen, a, First(topic, pieces[0], total));
      assert Flat(pieces) == Flat([]) + pieces[0] == pieces[0];
    } else {
      var front := Front(pieces);
      var before, c := ChunksOf(topic, front, total), Next(Last(pieces), |Flat(front)|, total);
      assert |front| > 1 ==> |Flat(Front(front))| < total;
      PiecesCollect(maxLen, a, topic, front, total);
      OneMore(maxLen, a, before, c);
      MorePendings(|front| - 1);
      JoinedPiece(maxLen, After(maxLen, a, before), c);
    }
  }

  lemma {:induction false} OverCapRefused(maxLen: nat, a: Assembler, topic: string, pieces: seq<seq<u8>>, total: nat)
    requires pieces != [] && total > maxLen
    ensures Outputs(maxLen, a, ChunksOf(topic, pieces, total))[0] == TooLarge
  {
    if |pieces| == 1 {
      OnePiece(maxLen, a, First(topic, pieces[0], total));
    } else {
      OverCapRefused(maxLen, a, topic, Front(pieces), total);
      OneMore(maxLen, a, ChunksOf(topic, Front(pieces), total), Next(Last(pieces), |Flat(Front(pieces))|, total));
    }
  }

  lemma SkippedPiece(maxLen: nat, a: Assembler, c: Chunk)
    requires a.progress.Skipping? && c.Next? && c.total == a.progress.total
    ensures Fed(maxLen, a, c).1 == Pending
    ensures Fed(maxLen, a, c).0.progress == if c.offset + |c.data| >= c.total then Idle else a.progress
  {
  }

  /** A message over the cap is refused once, at its first piece; the others are skipped in silence,
      up to the one that ends the message. */
  lemma {:induction false} OversizedIsSkipped(maxLen: nat, a: Assembler, topic: string, pieces: seq<seq<u8>>,
          total: nat)
    requires pieces != [] && |Flat(pieces)| <= total && total > maxLen
    requires |pieces| > 1 ==> |Flat(Front(pieces))| < total
    ensures Outputs(maxLen, a, ChunksOf(topic, pieces, total)) == [TooLarge] + Pendings(|pieces| - 1)
    ensures After(maxLen, a, ChunksOf(topic, pieces, total)).progress
            == if |pieces| > 1 && |Flat(pieces)| == total then Idle else Skipping(total)
  {
    if |pieces| == 1 {
      OnePiece(maxLen, a, First(topic, pieces[0], total));
      assert Pendings(0) == [];
    } else {
      var front := Front(pieces);
      var before, c := ChunksOf(topic, front, total), Next(Last(pieces), |Flat(front)|, total);
      assert |front| > 1 ==> |Flat(Front(front))| < total;
      OversizedIsSkipped(maxLen, a, topic, front, total);
      OneMore(maxLen, a, before, c);
      SkippedPiece(maxLen, After(maxLen, a, before), c);
      MorePendings(|front| - 1);
      assert [TooLarge] + Pendings(|front| - 1) + [Pending] == [TooLarge] + (Pendings(|front| - 1) + [Pending]);
    }
  }

  /** From any state: a split message is answered with `Pending` up to the last piece and is then
      handed out whole exactly when it is within the cap and its last piece, unless it is the only
      one, is not empty. An empty piece anywhere else does no harm. */
  lemma ReassemblyExactly(maxLen: nat, a: Assembler, topic: string, pieces: seq<seq<u8>>)
    requires pieces != [] && Inv(maxLen, a)
    ensures var body := Flat(pieces);
            Outputs(maxLen, a, ChunksOf(topic, pieces, |body|)) == Pendings(|pieces| - 1) + [Message(topic, body)]
            <==> |body| <= maxLen && (|pieces| == 1 || Last(pieces) != [])
  {
    var body := Flat(pieces);
    var chunks := ChunksOf(topic, pieces, |body|);
    var wanted := Pendings(|pieces| - 1) + [Message(topic, body)];
    if |body| > maxLen {
      OverCapRefused(maxLen, a, topic, pieces, |body|);
      assert wanted[0] != TooLarge;
    } else if |pieces| == 1 || Last(pieces) != [] {
      PiecesCollect(maxLen, a, topic, pieces, |body|);
    } else {
      ChunksOfFront(topic, pieces, |body|);
      var before := After(maxLen, a, Front(chunks));
      InvHolds(maxLen, a, Front(chunks));
      assert |Flat(Front(pieces))| == |body|;
      assert !Continues(before.progress, Last(chunks));
      assert Outputs(maxLen, a, chunks)[|pieces| - 1] == Fed(maxLen, before, Last(chunks)).1;
      assert wanted[|pieces| - 1] == Message(topic, body);
    }
  }

  // ----- what a handed out message was made of -----

  /** `chunks` are a message's first chunk and gapless follow-ups that leave `payload`, not yet
      complete. */
  predicate Open(maxLen: nat, chunks: seq<Chunk>, topic: string, payload: seq<u8>, total: nat)
    decreases |chunks|
  {
    && chunks != [] && total <= maxLen && |payload| != total
    && if |chunks| == 1 then chunks[0] == First(topic, payload, total)
       else
         && var c := Last(chunks);
         && c.Next? && c.total == total && c.offset + |c.data| == |payload| <= total
         && payload[c.offset..] == c.data
         && Open(maxLen, Front(chunks), topic, payload[..c.offset], total)
  }

  /** The last chunks, from the `i`-th on, are such a message. */
  predicate OpenFrom(maxLen: nat, chunks: seq<Chunk>, i: nat, topic: string, payload: seq<u8>, total: nat) {
    Undivided(i < |chunks| && Open(maxLen, chunks[i..], topic, payload, total))
  }

  lemma {:induction false} OpenCollects(maxLen: nat, a: Assembler, chunks: seq<Chunk>, i: nat, topic: string,
          payload: seq<u8>, total: nat)
    requires OpenFrom(maxLen, chunks, i, topic, payload, total)
    ensures After(maxLen, a, chunks).progress == Collecting(topic, payload, total)
    decreases |chunks|
  {
    var late := chunks[i..];
    assert Last(late) == Last(chunks);
    if |late| > 1 {
      var c := Last(chunks);
      assert Front(late) == Front(chunks)[i..];
      OpenCollects(maxLen, a, Front(chunks), i, topic, payload[..c.offset], total);
      assert payload == payload[..c.offset] + c.data;
    }
  }

  lemma {:induction false} CollectingIsOpen(maxLen: nat, a: Assembler, chunks: seq<Chunk>) returns (i: nat)
    requires !a.progress.Collecting? && After(maxLen, a, chunks).progress.Collecting?
    ensures var p := After(maxLen, a, chunks).progress;
            OpenFrom(maxLen, chunks, i, p.topic, p.payload, p.total)
    decreases |chunks|
  {
    var p, before, c := After(maxLen, a, chunks).progress, After(maxLen, a, Front(chunks)), Last(chunks);
    if c.First? {
      i := |chunks| - 1;
      assert chunks[i..] == [c];
    } else {
      assert Continues(before.progress, c);
      i := CollectingIsOpen(maxLen, a, Front(chunks));
      var late := chunks[i..];
      assert Front(late) == Front(chunks)[i..] && Last(late) == c;
      assert p.payload[..c.offset] == before.progress.payload;
    }
  }

  /** The chunk `c`, fed after `chunks`, completes exactly this message: it is the whole message, a
      first chunk that already holds all of it, or the missing rest of the last message begun. */
  ghost predicate Completes(maxLen: nat, chunks: seq<Chunk>, c: Chunk, topic: string, payload: seq<u8>) {
    && |payload| <= maxLen
    && match c
       case Complete(t, data) => t == topic && data == payload
       case First(t, data, total) => t == topic && data == payload && total == |payload|
       case Next(data, offset, total) =>
         && total == |payload| == offset + |data| && payload[offset..] == data
         && exists i :: OpenFrom(maxLen, chunks, i, topic, payload[..offset], total)
  }

  /** In every run a message is handed out exactly for the chunks that spell it, within the cap. */
  lemma MessageExactly(maxLen: nat, a: Assembler, chunks: seq<Chunk>, c: Chunk, topic: string, payload: seq<u8>)
    requires !a.progress.Collecting?
    ensures Fed(maxLen, After(maxLen, a, chunks), c).1 == Message(topic, payload)
            <==> Completes(maxLen, chunks, c, topic, payload)
  {
    var before := After(maxLen, a, chunks);
    if c.Next? {
      if Fed(maxLen, before, c).1 == Message(topic, payload) {
        var i := CollectingIsOpen(maxLen, a, chunks);
        assert before.progress.payload == payload[..c.offset];
        InvHolds(maxLen, a, chunks);
        assert OpenFrom(maxLen, chunks, i, topic, payload[..c.offset], c.total);
      }
      if Completes(maxLen, chunks, c, topic, payload) {
        var i :| OpenFrom(maxLen, chunks, i, topic, payload[..c.offset], c.total);
        OpenCollects(maxLen, a, chunks, i, topic, payload[..c.offset], c.total);
        assert payload == payload[..c.offset] + c.data;
      }
    }
  }

  // ----- what else is answered -----

  /** From the `i`-th chunk on: the first chunk of a message over the cap and follow-ups that do not
      reach its end. */
  predicate SkipsFrom(maxLen: nat, chunks: seq<Chunk>, i: nat, total: nat) {
    Undivided(
      && i < |chunks| && chunks[i].First? && chunks[i].total == total > maxLen
      && forall k :: i < k < |chunks| ==> chunks[k].Next? && chunks[k].total == total
                                          && chunks[k].offset + |chunks[k].data| < total)
  }

  lemma {:induction false} SkipsFromSkips(maxLen: nat, a: Assembler, chunks: seq<Chunk>, i: nat, total: nat)
    requires SkipsFrom(maxLen, chunks, i, total)
    ensures After(maxLen, a, chunks).progress == Skipping(total)
    decreases |chunks|
  {
    if i < |chunks| - 1 {
      assert Last(chunks) == chunks[|chunks| - 1];
      SkipsFromSkips(maxLen, a, Front(chunks), i, total);
    }
  }

  lemma {:induction false} SkippingIsSkips(maxLen: nat, a: Assembler, chunks: seq<Chunk>) returns (i: nat)
    requires !a.progress.Skipping? && After(maxLen, a, chunks).progress.Skipping?
    ensures SkipsFrom(maxLen, chunks, i, After(maxLen, a, chunks).progress.total)
    decreases |chunks|
  {
    if Last(chunks).First? {
      i := |chunks| - 1;
    } else {
      i := SkippingIsSkips(maxLen, a, Front(chunks));
      assert Front(chunks)[i] == chunks[i];
      forall k | i < k < |chunks|
        ensures var c, t := chunks[k], After(maxLen, a, chunks).progress.total;
                c.Next? && c.total == t && c.offset + |c.data| < t
      {
        assert k < |chunks| - 1 ==> Front(chunks)[k] == chunks[k];
      }
    }
  }

  /** The chunk continues the message that the last chunks left open, and stays within its length. */
  ghost predicate ContinuesRun(maxLen: nat, chunks: seq<Chunk>, c: Chunk) {
    c.Next? && c.offset + |c.data| <= c.total &&
    exists i, topic, payload :: OpenFrom(maxLen, chunks, i, topic, payload, c.total) && |payload| == c.offset
  }

  ghost predicate SkipsRun(maxLen: nat, chunks: seq<Chunk>, c: Chunk) {
    c.Next? && exists i :: SkipsFrom(maxLen, chunks, i, c.total)
  }

  lemma ContinuesExactly(maxLen: nat, a: Assembler, chunks: seq<Chunk>, c: Chunk)
    requires a.progress.Idle?
    ensures Continues(After(maxLen, a, chunks).progress, c) <==> ContinuesRun(maxLen, chunks, c)
  {
    var p := After(maxLen, a, chunks).progress;
    if Continues(p, c) {
      var i := CollectingIsOpen(maxLen, a, chunks);
      assert OpenFrom(maxLen, chunks, i, p.topic, p.payload, c.total);
    }
    if ContinuesRun(maxLen, chunks, c) {
      var i, topic, payload :| OpenFrom(maxLen, chunks, i, topic, payload, c.total) && |payload| == c.offset;
      OpenCollects(maxLen, a, chunks, i, topic, payload, c.total);
    }
  }

  lemma SkipsExactly(maxLen: nat, a: Assembler, chunks: seq<Chunk>, c: Chunk)
    requires a.progress.Idle? && c.Next?
    ensures After(maxLen, a, chunks).progress == Skipping(c.total) <==> SkipsRun(maxLen, chunks, c)
  {
    if After(maxLen, a, chunks).progress == Skipping(c.total) {
      var i := SkippingIsSkips(maxLen, a, chunks);
      assert SkipsFrom(maxLen, chunks, i, c.total);
    }
    if SkipsRun(maxLen, chunks, c) {
      var i :| SkipsFrom(maxLen, chunks, i, c.total);
      SkipsFromSkips(maxLen, a, chunks, i, c.total);
    }
  }

  /** In every run a chunk is refused as too large exactly if it announces or is a message over the cap,
      and as out of order exactly if it is a follow-up that neither continues the message left open by
      the chunks before it nor belongs to one that is being skipped. */
  lemma RefusedExactly(maxLen: nat, a: Assembler, chunks: seq<Chunk>, c: Chunk)
    requires a.progress.Idle?
    ensures var r := Fed(maxLen, After(maxLen, a, chunks), c).1;
            && (r == TooLarge <==> (c.Complete? && |c.data| > maxLen) || (c.First? && c.total > maxLen))
            && (r == OutOfOrder <==> c.Next? && !ContinuesRun(maxLen, chunks, c) && !SkipsRun(maxLen, chunks, c))
  {
    ContinuesExactly(maxLen, a, chunks, c);
    if c.Next? {
      SkipsExactly(maxLen, a, chunks, c);
    }
  }

  // ----- counting -----

  /** Messages that started collecting. */
  function Started(maxLen: nat, chunks: seq<Chunk>): nat {
    if chunks == [] then 0
    else Started(maxLen, Front(chunks)) + if Last(chunks).First? && Last(chunks).total <= maxLen then 1 else 0
  }

  /** Chunked messages that were handed out. */
  function Joined(maxLen: nat, a: Assembler, chunks: seq<Chunk>): nat {
    if chunks == [] then 0
    else
      Joined(maxLen, a, Front(chunks)) +
      if !Last(chunks).Complete? && Fed(maxLen, After(maxLen, a, Front(chunks)), Last(chunks)).1.Message? then 1 else 0
  }

  function InProgress(a: Assembler): nat { if a.progress.Collecting? then 1 else 0 }

  /** How often a message in progress was given up. */
  function GivenUp(maxLen: nat, a: Assembler, chunks: seq<Chunk>): nat {
    if chunks == [] then 0
    else
      var before := After(maxLen, a, Front(chunks));
      GivenUp(maxLen, a, Front(chunks)) +
      if before.progress.Collecting? && !Continues(before.progress, Last(chunks)) then 1 else 0
  }

  /** Every message that started was handed out, was given up, or is in progress. */
  lemma {:induction false} NothingUncounted(maxLen: nat, a: Assembler, chunks: seq<Chunk>)
    requires InProgress(a) == 0
    ensures Started(maxLen, chunks)
            == Joined(maxLen, a, chunks) + GivenUp(maxLen, a, chunks) + InProgress(After(maxLen, a, chunks))
  {
    if chunks != [] {
      NothingUncounted(maxLen, a, Front(chunks));
    }
  }

  lemma WrapStep(n: nat)
    ensures WrappingAdd32(n % TWO_32, 1) == (n + 1) % TWO_32
  {
  }

  /** The counter is the number of messages given up, modulo 2^32. */
  lemma {:induction false} CounterCounts(maxLen: nat, a: Assembler, chunks: seq<Chunk>)
    ensures After(maxLen, a, chunks).abandoned == (a.abandoned + GivenUp(maxLen, a, chunks)) % TWO_32
  {
    if chunks != [] {
      CounterCounts(maxLen, a, Front(chunks));
      WrapStep(a.abandoned + GivenUp(maxLen, a, Front(chunks)));
    }
  }

  /** Messages that a later message's first or only chunk cut short. */
  function CutShort(maxLen: nat, a: Assembler, chunks: seq<Chunk>): nat {
    if chunks == [] then 0
    else
      CutShort(maxLen, a, Front(chunks)) +
      if After(maxLen, a, Front(chunks)).progress.Collecting? && !Last(chunks).Next? then 1 else 0
  }

  /** A follow-up that reaches a message in progress it does not continue. */
  predicate Stray(maxLen: nat, a: Assembler, chunks: seq<Chunk>, k: nat)
    requires k < |chunks|
  {
    var before := After(maxLen, a, chunks[..k]);
    chunks[k].Next? && before.progress.Collecting? && !Continues(before.progress, chunks[k])
  }

  /** Not only a new message is counted: the count equals the messages cut short by one exactly when
      no stray follow-up reached a message in progress. */
  lemma {:induction false} CutShortExactly(maxLen: nat, a: Assembler, chunks: seq<Chunk>)
    ensures GivenUp(maxLen, a, chunks) >= CutShort(maxLen, a, chunks)
    ensures GivenUp(maxLen, a, chunks) == CutShort(maxLen, a, chunks)
            <==> forall k :: 0 <= k < |chunks| ==> !Stray(maxLen, a, chunks, k)
  {
    if chunks != [] {
      var front, n := Front(chunks), |chunks| - 1;
      CutShortExactly(maxLen, a, front);
      forall k | 0 <= k < n ensures Stray(maxLen, a, chunks, k) <==> Stray(maxLen, a, front, k) {
        assert front[..k] == chunks[..k];
      }
      assert Stray(maxLen, a, chunks, n) <==>
             && Last(chunks).Next? && After(maxLen, a, front).progress.Collecting?
             && !Continues(After(maxLen, a, front).progress, Last(chunks));
    }
  }

  /** Such a run: a follow-up at the wrong offset, and no second message at all. */
  lemma StrayIsCounted(topic: string, b: u8)
    ensures var chunks := [First(topic, [b], 3), Next([b], 2, 3)];
            After(8, FRESH, chunks).abandoned == 1 && CutShort(8, FRESH, chunks) == 0
  {
    var chunks := [First(topic, [b], 3), Next([b], 2, 3)];
    assert Front(chunks) == [First(topic, [b], 3)] && Front(Front(chunks)) == [];
    assert After(8, FRESH, Front(Front(chunks))) == FRESH && CutShort(8, FRESH, Front(Front(chunks))) == 0;
    assert After(8, FRESH, Front(chunks)) == Assembler(Collecting(topic, [b], 3), 0);
    assert CutShort(8, FRESH, Front(chunks)) == 0;
  }
}
