/** The list of tasks waiting for a condition (`wait_list.rs`). */
module WaitList {
  import opened Common

  /** Identifies what a `Waker` wakes; two wakers with equal value would wake the same task. */
  type Waker = nat

  datatype Entry = Entry(id: u64, waker: Waker)

  /** Position of the entry with `id`, or the length if there is none. */
  function Find(entries: seq<Entry>, id: u64): (k: nat)
    ensures k <= |entries|
    ensures k < |entries| ==> entries[k].id == id
    ensures forall j :: 0 <= j < k ==> entries[j].id != id
  {
    if entries == [] || entries[0].id == id then 0 else 1 + Find(entries[1..], id)
  }

  function Registered(entries: seq<Entry>, id: u64, waker: Waker): seq<Entry> {
    var k := Find(entries, id);
    if k < |entries| then entries[k := Entry(id, waker)] else entries + [Entry(id, waker)]
  }

  function Without(entries: seq<Entry>, id: u64): seq<Entry> {
    if entries == [] then []
    else (if entries[0].id != id then [entries[0]] else []) + Without(entries[1..], id)
  }

  /** One more entry looked at. */
  lemma WithoutStep(entries: seq<Entry>, id: u64, k: nat, kept: seq<Entry>)
    requires k < |entries|
    ensures kept + Without(entries[k..], id)
            == (if entries[k].id != id then kept + [entries[k]] else kept) + Without(entries[k + 1..], id)
  {
    var late := entries[k..];
    assert late[0] == entries[k] && late[1..] == entries[k + 1..];
    assert Without(late, id) == (if late[0].id != id then [late[0]] else []) + Without(late[1..], id);
  }

  function Wakers(entries: seq<Entry>): (ws: seq<Waker>)
    ensures |ws| == |entries| && forall k :: 0 <= k < |ws| ==> ws[k] == entries[k].waker
  {
    if entries == [] then [] else [entries[0].waker] + Wakers(entries[1..])
  }

  class WaitList {
    var nextId: u64
    var entries: seq<Entry>

    constructor ()
      ensures nextId == 0 && entries == []
    {
      nextId, entries := 0, [];
    }

    /** Registers `waker` under the wait's own id, drawing one on its first registration. */
    method Register(id: Option<u64>, waker: Waker) returns (mine: u64)
      modifies this
      ensures mine == (if id.Some? then id.value else old(nextId))
      ensures nextId == (if id.Some? then old(nextId) else (old(nextId) + 1) % TWO_64)
      ensures entries == Registered(old(entries), mine, waker)
    {
      match id {
        case Some(i) => mine := i;
        case None =>
          mine := nextId;
          nextId := (nextId + 1) % TWO_64;
      }
      var k := 0;
      while k < |entries| && entries[k].id != mine
        invariant k <= |entries| && entries == old(entries)
        invariant forall j :: 0 <= j < k ==> entries[j].id != mine
      {
        k := k + 1;
      }
      if k < |entries| {
        if entries[k].waker != waker {
          entries := entries[k := Entry(mine, waker)];
        }
      } else {
        entries := entries + [Entry(mine, waker)];
      }
    }

    /** Keeps every entry of another wait, in order. */
    method Unregister(id: u64)
      modifies this`entries
      ensures entries == Without(old(entries), id)
    {
      var kept, k := [], 0;
      while k < |entries|
        invariant k <= |entries| && entries == old(entries)
        invariant kept + Without(entries[k..], id) == Without(entries, id)
      {
        WithoutStep(entries, id, k, kept);
        if entries[k].id != id {
          kept := kept + [entries[k]];
        }
        k := k + 1;
      }
      entries := kept;
    }

    /** Takes the whole list and wakes every task on it. */
    method WakeAll() returns (woken: seq<Waker>)
      modifies this`entries
      ensures entries == [] && woken == Wakers(old(entries))
    {
      var taken, k := entries, 0;
      entries := [];
      woken := [];
      while k < |taken|
        invariant k <= |taken| && woken + Wakers(taken[k..]) == Wakers(taken)
      {
        assert taken[k..] == [taken[k]] + taken[k + 1..];
        woken := woken + [taken[k].waker];
        k := k + 1;
      }
    }
  }

  /** A wait on a condition that other threads change. */
  class Wait {
    const list: WaitList
    var id: Option<u64>

    constructor (list: WaitList)
      ensures this.list == list && id == None
    {
      this.list, id := list, None;
    }

    method Finish()
      modifies this, list`entries
      ensures id == None
      ensures list.entries == if old(id).Some? then Without(old(list.entries), old(id.value)) else old(list.entries)
    {
      match id {
        case Some(i) =>
          id := None;
          list.Unregister(i);
        case None =>
      }
    }

    /** One poll. The check runs up to twice and another thread may change its answer in between;
        `first` and `second` are what it answered. The wait ends ready if either was positive, and
        leaves no entry then; otherwise its entry holds this poll's waker. Read as one section: that
        other threads take the list's lock between the checks and the updates, and a `WakeAll` falls
        in between, is what the separate steps of `OutboxSystem` are for. */
    method Poll(first: bool, second: bool, waker: Waker) returns (ready: bool)
      modifies this, list
      ensures ready <==> first || second
      ensures var mine := if old(id).Some? then old(id.value) else old(list.nextId);
              && id == (if ready then None else Some(mine))
              && list.entries == if first then
                                   (if old(id).Some? then Without(old(list.entries), mine) else old(list.entries))
                                 else if second then Without(Registered(old(list.entries), mine, waker), mine)
                                 else Registered(old(list.entries), mine, waker)
      ensures list.nextId == if first || old(id).Some? then old(list.nextId) else (old(list.nextId) + 1) % TWO_64
    {
      if first {
        Finish();
        return true;
      }
      var mine := list.Register(id, waker);
      id := Some(mine);
      if second {
        Finish();
        return true;
      }
      return false;
    }

    /** Dropping a wait removes its entry. */
    method Drop()
      modifies list`entries
      ensures list.entries == if id.Some? then Without(old(list.entries), id.value) else old(list.entries)
    {
      match id {
        case Some(i) => list.Unregister(i);
        case None =>
      }
    }
  }

  ghost predicate DistinctIds(entries: seq<Entry>) {
    forall i, j :: 0 <= i < j < |entries| ==> entries[i].id != entries[j].id
  }

  lemma {:induction false} WithoutMembers(entries: seq<Entry>, id: u64, e: Entry)
    ensures e in Without(entries, id) <==> e in entries && e.id != id
  {
    if entries != [] {
      WithoutMembers(entries[1..], id, e);
    }
  }

  lemma {:induction false} WithoutKeepsDistinct(entries: seq<Entry>, id: u64)
    requires DistinctIds(entries)
    ensures DistinctIds(Without(entries, id))
  {
    if entries != [] {
      WithoutKeepsDistinct(entries[1..], id);
      forall e | e in Without(entries[1..], id) ensures e.id != entries[0].id {
        WithoutMembers(entries[1..], id, e);
      }
    }
  }

  lemma {:induction false} WakersMembers(entries: seq<Entry>, e: Entry)
    requires e in entries
    ensures e.waker in Wakers(entries)
  {
    if e != entries[0] {
      WakersMembers(entries[1..], e);
    }
  }

  /** Registering keeps one entry per id and touches no other wait's entry; the wait's own entry
      carries the waker of the latest poll, even when `wake_all` had removed it. */
  lemma RegisteredMembers(entries: seq<Entry>, id: u64, waker: Waker, e: Entry)
    requires DistinctIds(entries)
    ensures DistinctIds(Registered(entries, id, waker))
    ensures e in Registered(entries, id, waker) <==> (if e.id == id then e.waker == waker else e in entries)
  {
    var k := Find(entries, id);
    var r := Registered(entries, id, waker);
    assert r[k] == Entry(id, waker);
    if e in entries && e.id != id {
      var j :| 0 <= j < |entries| && entries[j] == e;
      assert r[j] == e;
    }
    if e in r && e.id != id {
      var j :| 0 <= j < |r| && r[j] == e;
      assert entries[j] == e;
    }
  }

  lemma WithoutCons(e: Entry, rest: seq<Entry>, id: u64)
    ensures Without([e] + rest, id) == (if e.id != id then [e] else []) + Without(rest, id)
  {
    assert ([e] + rest)[1..] == rest;
  }

  lemma {:induction false} WithoutParts(a: seq<Entry>, b: seq<Entry>, id: u64)
    ensures Without(a + b, id) == Without(a, id) + Without(b, id)
  {
    if a == [] {
      assert a + b == b;
    } else {
      var e, rest := a[0], a[1..];
      WithoutParts(rest, b, id);
      WithoutCons(e, rest, id);
      WithoutCons(e, rest + b, id);
      assert a == [e] + rest && a + b == [e] + (rest + b);
    }
  }

  lemma OneLess(a: seq<Entry>, e: Entry, b: seq<Entry>, id: u64)
    ensures Without(a + [e] + b, id) == Without(a, id) + (if e.id != id then [e] else []) + Without(b, id)
  {
    WithoutParts(a, [e] + b, id);
    WithoutCons(e, b, id);
    assert a + [e] + b == a + ([e] + b);
  }

  /** Registering leaves the other waits' entries as they are and in order, and so does removing one. */
  lemma OthersKeepOrder(entries: seq<Entry>, id: u64, waker: Waker, e: Entry, rest: seq<Entry>)
    ensures Without(Registered(entries, id, waker), id) == Without(entries, id)
    ensures e.id != id ==> Without(entries + [e] + rest, id) == Without(entries, id) + [e] + Without(rest, id)
  {
    var k, mine := Find(entries, id), Entry(id, waker);
    OneLess(entries, e, rest, id);
    if k < |entries| {
      assert entries == entries[..k] + [entries[k]] + entries[k + 1..];
      assert Registered(entries, id, waker) == entries[..k] + [mine] + entries[k + 1..];
      OneLess(entries[..k], entries[k], entries[k + 1..], id);
      OneLess(entries[..k], mine, entries[k + 1..], id);
    } else {
      assert entries + [mine] + [] == entries + [mine];
      OneLess(entries, mine, [], id);
    }
  }
}
