/** The holding queue for publishes (`mqtt/outbox.rs`). Every method is one section under the
    outbox lock, followed by the sections it takes on the wait list. */
module Outbox {
  import opened Common
  import opened WaitList

  datatype QoS = AtMostOnce | AtLeastOnce | ExactlyOnce

  datatype PendingPublish = PendingPublish(topic: string, payload: seq<u8>, qos: QoS, retain: bool)

  /** What the outbox lock protects, the drop counter, and every `send` made so far with the
      client's answer. */
  datatype Core = Core(attached: bool, pending: seq<PendingPublish>, dropped: u32, sent: seq<(PendingPublish, bool)>)

  /** The client's answer to the k-th `send` ever made. */
  type Answers = nat -> bool

  predicate HasRoom(c: Core, depth: nat) { c.attached || |c.pending| < depth }

  function Send(c: Core, m: PendingPublish, accept: Answers): Core {
    var ok := accept(|c.sent|);
    c.(sent := c.sent + [(m, ok)], dropped := if ok then c.dropped else WrappingAdd32(c.dropped, 1))
  }

  function SendAll(c: Core, ms: seq<PendingPublish>, accept: Answers): Core
    decreases |ms|
  {
    if ms == [] then c else SendAll(Send(c, ms[0], accept), ms[1..], accept)
  }

  function Attached(c: Core, accept: Answers): Core {
    SendAll(c.(attached := true, pending := []), c.pending, accept)
  }

  /** The synchronous policy: make room by dropping the oldest. */
  function Published(c: Core, m: PendingPublish, depth: nat, accept: Answers): Core {
    if c.attached then Send(c, m, accept)
    else if |c.pending| >= depth then
      c.(pending := (if c.pending == [] then [] else c.pending[1..]) + [m], dropped := WrappingAdd32(c.dropped, 1))
    else c.(pending := c.pending + [m])
  }

  /** The waiting policy: `None` when the queue is full and no client is attached. */
  function Offered(c: Core, m: PendingPublish, depth: nat, accept: Answers): Option<Core> {
    if c.attached then Some(Send(c, m, accept))
    else if |c.pending| < depth then Some(c.(pending := c.pending + [m]))
    else None
  }

  class Outbox {
    const depth: nat
    const accept: Answers
    const space: WaitList
    var attached: bool
    var pending: seq<PendingPublish>
    var dropped: u32
    var sent: seq<(PendingPublish, bool)>

    constructor (depth: nat, accept: Answers)
      ensures this.depth == depth && this.accept == accept
      ensures State() == Core(false, [], 0, [])
      ensures fresh(space) && space.entries == []
    {
      this.depth, this.accept := depth, accept;
      attached, pending, dropped, sent := false, [], 0, [];
      space := new WaitList();
    }

    function State(): Core
      reads this
    {
      Core(attached, pending, dropped, sent)
    }

    /** The tier's `send`: the client takes the message or refuses it. */
    method SendTo(m: PendingPublish) returns (ok: bool)
      modifies this`sent
      ensures ok == accept(|old(sent)|) && sent == old(sent) + [(m, ok)]
    {
      ok := accept(|sent|);
      sent := sent + [(m, ok)];
    }

    method CountDropped(messages: u32)
      modifies this`dropped
      ensures dropped == WrappingAdd32(old(dropped), messages)
    {
      dropped := WrappingAdd32(dropped, messages);
    }

    /** Hands the new client every queued publish, then wakes all waiters. */
    method Attach() returns (woken: seq<Waker>)
      modifies this, space
      ensures State() == Attached(old(State()), accept)
      ensures woken == Wakers(old(space.entries)) && space.entries == []
    {
      attached := true;
      var queued := pending;
      pending := [];
      var i := 0;
      while i < |queued|
        invariant i <= |queued| && attached && pending == []
        invariant SendAll(State(), queued[i..], accept) == Attached(old(State()), accept)
        invariant space.entries == old(space.entries)
      {
        ghost var before := State();
        var ok := SendTo(queued[i]);
        if !ok {
          CountDropped(1);
        }
        assert State() == Send(before, queued[i], accept);
        assert queued[i..][1..] == queued[i + 1..];
        i := i + 1;
      }
      woken := space.WakeAll();
    }

    method Publish(m: PendingPublish)
      modifies this
      ensures State() == Published(old(State()), m, depth, accept)
    {
      if attached {
        var ok := SendTo(m);
        if !ok {
          CountDropped(1);
        }
        return;
      }
      if |pending| >= depth {
        if pending != [] {
          pending := pending[1..];
        }
        CountDropped(1);
      }
      pending := pending + [m];
    }

    /** The first lock section of `publish_waiting`; `false` means it has to wait. */
    method TryPublish(m: PendingPublish) returns (done: bool)
      modifies this
      ensures done == HasRoom(old(State()), depth)
      ensures Some(State()) == if done then Offered(old(State()), m, depth, accept) else Some(old(State()))
    {
      if attached {
        var ok := SendTo(m);
        if !ok {
          CountDropped(1);
        }
        return true;
      }
      if |pending| < depth {
        pending := pending + [m];
        return true;
      }
      return false;
    }

    /** Detaches the client; anything still queued stays queued. */
    method TakeClient() returns (had: bool)
      modifies this`attached
      ensures had == old(attached) && State() == old(State()).(attached := false)
    {
      had := attached;
      attached := false;
    }
  }

  // ----- every message accounted for -----

  datatype Fate = Handed | RefusedByClient | Evicted

  /** Every message the outbox took, in order of admission. The first `|fates|` have left it. */
  datatype Ledger = Ledger(admitted: seq<PendingPublish>, fates: seq<Fate>)

  function FateOf(ok: bool): Fate { if ok then Handed else RefusedByClient }

  /** What the clients were handed, with their answers. */
  function SentOf(ms: seq<PendingPublish>, fates: seq<Fate>): seq<(PendingPublish, bool)>
    requires |fates| <= |ms|
    decreases |fates|
  {
    if fates == [] then []
    else
      var k := |fates| - 1;
      SentOf(ms, fates[..k]) + (if fates[k].Evicted? then [] else [(ms[k], fates[k].Handed?)])
  }

  function Lost(fates: seq<Fate>): nat {
    if fates == [] then 0 else Lost(fates[..|fates| - 1]) + (if fates[|fates| - 1].Handed? then 0 else 1)
  }

  /** Each admitted message left at most once, in order of admission; those that did not leave are
      queued, in the same order; the sends are exactly the messages that left unevicted; the
      counter is the number lost; and an attached client leaves nothing queued. */
  ghost predicate Conserved(c: Core, l: Ledger) {
    Undivided(
      && |l.fates| <= |l.admitted|
      && c.pending == l.admitted[|l.fates|..]
      && c.sent == SentOf(l.admitted, l.fates)
      && c.dropped == Lost(l.fates) % TWO_32
      && (c.attached ==> c.pending == []))
  }

  lemma {:induction false} SentOfLonger(ms: seq<PendingPublish>, more: seq<PendingPublish>, fates: seq<Fate>)
    requires |fates| <= |ms|
    ensures SentOf(ms + more, fates) == SentOf(ms, fates)
    decreases |fates|
  {
    if fates != [] {
      SentOfLonger(ms, more, fates[..|fates| - 1]);
    }
  }

  /** Removing the head of the queue with some fate. */
  lemma Resolve(c: Core, l: Ledger, fate: Fate)
    requires |l.fates| < |l.admitted|
    requires c.sent == SentOf(l.admitted, l.fates) && c.dropped == Lost(l.fates) % TWO_32
    ensures var l' := l.(fates := l.fates + [fate]);
            && SentOf(l'.admitted, l'.fates)
               == c.sent + (if fate.Evicted? then [] else [(l.admitted[|l.fates|], fate.Handed?)])
            && (if fate.Handed? then c.dropped else WrappingAdd32(c.dropped, 1)) == Lost(l'.fates) % TWO_32
  {
    assert (l.fates + [fate])[..|l.fates|] == l.fates;
  }

  function AnswerFates(from: nat, n: nat, accept: Answers): (fs: seq<Fate>)
    ensures |fs| == n
  {
    seq(n, k requires 0 <= k < n => FateOf(accept(from + k)))
  }

  /** One message of the drain. */
  lemma SendResolves(c: Core, l: Ledger, accept: Answers)
    requires |l.fates| < |l.admitted|
    requires c.sent == SentOf(l.admitted, l.fates) && c.dropped == Lost(l.fates) % TWO_32
    ensures var fates := l.fates + [FateOf(accept(|c.sent|))];
            var c' := Send(c, l.admitted[|l.fates|], accept);
            c'.sent == SentOf(l.admitted, fates) && c'.dropped == Lost(fates) % TWO_32
  {
    Resolve(c, l, FateOf(accept(|c.sent|)));
  }

  lemma {:induction false} SendAllConserves(c: Core, l: Ledger, ms: seq<PendingPublish>, accept: Answers)
    requires |l.fates| <= |l.admitted| && ms == l.admitted[|l.fates|..] && c.attached && c.pending == []
    requires c.sent == SentOf(l.admitted, l.fates) && c.dropped == Lost(l.fates) % TWO_32
    ensures Conserved(SendAll(c, ms, accept), l.(fates := l.fates + AnswerFates(|c.sent|, |ms|, accept)))
    decreases |ms|
  {
    if ms == [] {
      assert l.fates + AnswerFates(|c.sent|, 0, accept) == l.fates;
    } else {
      var l' := l.(fates := l.fates + [FateOf(accept(|c.sent|))]);
      SendResolves(c, l, accept);
      var c' := Send(c, ms[0], accept);
      SendAllConserves(c', l', ms[1..], accept);
      assert l'.fates + AnswerFates(|c'.sent|, |ms[1..]|, accept) == l.fates + AnswerFates(|c.sent|, |ms|, accept);
    }
  }

  function AttachLedger(c: Core, l: Ledger, accept: Answers): Ledger {
    l.(fates := l.fates + AnswerFates(|c.sent|, |c.pending|, accept))
  }

  lemma AttachConserves(c: Core, l: Ledger, accept: Answers)
    requires Conserved(c, l)
    ensures Conserved(Attached(c, accept), AttachLedger(c, l, accept))
  {
    SendAllConserves(c.(attached := true, pending := []), l, c.pending, accept);
  }

  /** Taking `m` into the ledger: handed over at once, or queued behind an eviction if full. */
  function PublishLedger(c: Core, l: Ledger, m: PendingPublish, depth: nat, accept: Answers): Ledger {
    Ledger(l.admitted + [m],
           l.fates + (if c.attached then [FateOf(accept(|c.sent|))]
                      else if |c.pending| >= depth then [Evicted]
                      else []))
  }

  lemma PublishConserves(c: Core, l: Ledger, m: PendingPublish, depth: nat, accept: Answers)
    requires Conserved(c, l) && depth >= 1
    ensures Conserved(Published(c, m, depth, accept), PublishLedger(c, l, m, depth, accept))
  {
    var l1 := l.(admitted := l.admitted + [m]);
    SentOfLonger(l.admitted, [m], l.fates);
    if c.attached {
      Resolve(c, l1, FateOf(accept(|c.sent|)));
    } else if |c.pending| >= depth {
      Resolve(c, l1, Evicted);
    } else {
      assert l.fates + [] == l.fates;
    }
  }

  /** The waiting policy admits without removing anything: the queue only grows at its end, and
      it takes a message exactly as the synchronous policy would when that one evicts nothing. */
  lemma OfferNeverEvicts(c: Core, m: PendingPublish, depth: nat, accept: Answers)
    ensures Offered(c, m, depth, accept).Some? <==> HasRoom(c, depth)
    ensures Offered(c, m, depth, accept).Some? ==>
            && Offered(c, m, depth, accept).value == Published(c, m, depth, accept)
            && c.pending <= Offered(c, m, depth, accept).value.pending
  {
  }

  /** Messages that left the queue or were turned away by the client in one `publish`. */
  function LostByPublish(c: Core, m: PendingPublish, depth: nat, accept: Answers): nat {
    if c.attached then (if accept(|c.sent|) then 0 else 1)
    else |c.pending| + 1 - |Published(c, m, depth, accept).pending|
  }

  /** `publish` counts what it loses exactly unless the outbox was built with no slots and holds
      nothing: then it counts a drop, evicts nothing and still queues the message. */
  lemma PublishCountsExactly(c: Core, m: PendingPublish, depth: nat, accept: Answers)
    ensures Published(c, m, depth, accept).dropped == (c.dropped + LostByPublish(c, m, depth, accept)) % TWO_32
            <==> c.attached || depth >= 1 || c.pending != []
  {
    if !c.attached && depth == 0 && c.pending == [] {
      assert WrappingAdd32(c.dropped, 1) != c.dropped % TWO_32;
    }
  }

  /** The miscount: an outbox without slots queues its first message and counts a drop. */
  lemma NoSlotsMiscount(m: PendingPublish, accept: Answers)
    ensures var c := Published(Core(false, [], 0, []), m, 0, accept);
            c.pending == [m] && c.dropped == 1 && LostByPublish(Core(false, [], 0, []), m, 0, accept) == 0
  {
  }
}
