/** The store over its lifetime: sequences of saves and erases, and commits cut short. */
module KvHistory {
  import opened Common
  import opened Text
  import opened KvStore
  import opened KvTheorems

  // ----- erasing -----

  lemma {:induction false} RemovalsAreRemovals(kv: Kv, keys: seq<Key>, fails: Faults, n: nat)
    ensures |Removals(keys)| == |keys|
    ensures forall i :: 0 <= i < |keys| ==> Removals(keys)[i] == Remove(keys[i])
    ensures Perform(kv, Removals(keys), fails, n).ok && Perform(kv, Removals(keys), fails, n).calls == n + |keys|
  {
    if keys != [] {
      var init := keys[..|keys| - 1];
      RemovalsAreRemovals(kv, init, fails, n);
      var ops := Removals(init);
      assert Removals(keys) == ops + [Remove(keys[|keys| - 1])];
      assert Removals(keys)[..|ops|] == ops;
    }
  }

  /** Removals that may fail: a key one of them reached is gone, any other is as before. */
  lemma RemovalsAt(kv: Kv, keys: seq<Key>, fails: Faults, n: nat, k: Key)
    ensures At(Perform(kv, Removals(keys), fails, n).kv, k)
            == if Reached(Removals(keys), fails, n, k) then None else At(kv, k)
  {
    var ops := Removals(keys);
    RemovalsAreRemovals(kv, keys, fails, n);
    PerformedAt(kv, ops, fails, n, k, false);
    OnlyRemovals(kv, ops, k);
  }

  function GuardGone(kv: Kv, fails: Faults, n: nat): Kv { Perform(kv, [Remove(SchemaVer)], fails, n).kv }

  lemma GuardFirst(kv: Kv, fails: Faults, n: nat, k: Key)
    ensures At(GuardGone(kv, fails, n), k) == if k.SchemaVer? && !fails(n) then None else At(kv, k)
    ensures Perform(kv, [Remove(SchemaVer)], fails, n) == Outcome(GuardGone(kv, fails, n), n + 1, true)
  {
    assert [Remove(SchemaVer)][..0] == [];
    assert Perform(kv, [], fails, n) == Outcome(kv, n, true);
    ApplyAt(kv, Remove(SchemaVer), k);
  }

  /** The names an erase from call number `n` goes by. */
  function NamesForErase(kv: Kv, fails: Faults, n: nat): seq<string> { PreviousNames(kv, fails, n + 1) }

  function EraseOps(kv: Kv, fails: Faults, n: nat): seq<Op> { Removals(ErasedKeys(NamesForErase(kv, fails, n))) }

  /** Some removal of `k` by the erase did not fail. */
  predicate RemovedByErase(kv: Kv, fails: Faults, n: nat, k: Key) {
    (k.SchemaVer? && !fails(n)) || Reached(EraseOps(kv, fails, n), fails, n + 2, k)
  }

  lemma ErasedInTwoParts(kv: Kv, fails: Faults, n: nat)
    ensures Erased(kv, fails, n) == Perform(GuardGone(kv, fails, n), EraseOps(kv, fails, n), fails, n + 2)
  {
    GuardFirst(kv, fails, n, ExtrasIdx);
  }

  /** What the removals after the guard do. */
  lemma EraseRest(kv: Kv, fails: Faults, n: nat, k: Key)
    ensures Erased(kv, fails, n).ok
    ensures At(Erased(kv, fails, n).kv, k)
            == if Reached(EraseOps(kv, fails, n), fails, n + 2, k) then None else At(GuardGone(kv, fails, n), k)
  {
    var kv1, keys := GuardGone(kv, fails, n), ErasedKeys(NamesForErase(kv, fails, n));
    ErasedInTwoParts(kv, fails, n);
    RemovalsAreRemovals(kv1, keys, fails, n + 2);
    RemovalsAt(kv1, keys, fails, n + 2, k);
  }

  /** After an erase, which never reports a failure, a key is gone exactly if a removal of it went
      through or it was not there. */
  lemma EraseClears(kv: Kv, fails: Faults, n: nat, k: Key)
    ensures Erased(kv, fails, n).ok
    ensures At(Erased(kv, fails, n).kv, k) == if RemovedByErase(kv, fails, n, k) then None else At(kv, k)
  {
    EraseRest(kv, fails, n, k);
    GuardFirst(kv, fails, n, k);
  }

  /** An erase goes for every key but the extras it has no name for. */
  lemma ErasedKeysExactly(names: seq<string>, k: Key)
    ensures k in ErasedKeys(names) <==> if k.ExtraKey? then k.name in names else k != SchemaVer
  {
    var extras, fixed := ExtraKeys(names), [ExtrasIdx] + CANONICAL_KEYS;
    FixedKeys(k);
    assert ErasedKeys(names) == extras + fixed;
    if k.ExtraKey? && k.name in names {
      var i :| 0 <= i < |names| && names[i] == k.name;
      assert extras[i] == k;
    }
  }

  /** Where a fixed key stands. */
  lemma FixedIndex(k: Key) returns (i: nat)
    requires !k.ExtraKey? && !k.SchemaVer?
    ensures i < |[ExtrasIdx] + CANONICAL_KEYS| && ([ExtrasIdx] + CANONICAL_KEYS)[i] == k
  {
    i := match k
      case ExtrasIdx => 0
      case Profile => 1
      case WifiSsid => 2
      case WifiPass => 3
      case DevEui => 4
      case JoinEui => 5
      case AppKey => 6
      case MqttHost => 7
      case MqttPort => 8
      case MqttUser => 9
      case MqttPass => 10
      case MqttClient => 11
      case OtaUrl => 12
      case DevName => 13;
  }

  lemma FixedKeys(k: Key)
    ensures k in [ExtrasIdx] + CANONICAL_KEYS <==> !k.ExtraKey? && !k.SchemaVer?
  {
    if !k.ExtraKey? && !k.SchemaVer? {
      var i := FixedIndex(k);
    }
  }

  // ----- nothing stale -----

  /** The store holds `c` and nothing else. */
  ghost predicate HoldsExactly(kv: Kv, c: Config) { forall k: Key :: At(kv, k) == Wanted(c, k) }

  datatype Request = SaveRequest(c: Config) | EraseRequest

  function Serve(kv: Kv, r: Request, fails: Faults, n: nat): Outcome {
    match r
    case SaveRequest(c) => Saved(kv, c, fails, n)
    case EraseRequest => Erased(kv, fails, n)
  }

  function WantedBy(r: Request, k: Key): Option<Value> { if r.SaveRequest? then Wanted(r.c, k) else None }

  predicate RemovedBy(kv: Kv, r: Request, fails: Faults, n: nat, k: Key) {
    match r
    case SaveRequest(c) => RemovedBySave(kv, c, fails, n, k)
    case EraseRequest => RemovedByErase(kv, fails, n, k)
  }

  lemma ServeStores(kv: Kv, r: Request, fails: Faults, n: nat, k: Key)
    requires Serve(kv, r, fails, n).ok
    ensures At(Serve(kv, r, fails, n).kv, k)
            == if WantedBy(r, k).Some? then WantedBy(r, k)
               else if RemovedBy(kv, r, fails, n, k) then None
               else At(kv, k)
  {
    match r
    case SaveRequest(c) => SaveStores(kv, c, fails, n, k);
    case EraseRequest => EraseClears(kv, fails, n, k);
  }

  /** The contents are those of the latest request alone. */
  ghost predicate Current(kv: Kv, latest: Option<Config>) {
    match latest
    case None => kv == map[]
    case Some(c) => HoldsExactly(kv, c)
  }

  function LatestOf(r: Request): Option<Config> { if r.SaveRequest? then Some(r.c) else None }

  /** Every key that was there and is not wanted any more was removed. */
  ghost predicate NothingLeft(kv: Kv, r: Request, fails: Faults, n: nat) {
    forall k: Key {:trigger At(kv, k)} :: At(kv, k).Some? && WantedBy(r, k).None? ==> RemovedBy(kv, r, fails, n, k)
  }

  lemma CurrentIsWanted(kv: Kv, r: Request)
    ensures Current(kv, LatestOf(r)) <==> forall k: Key :: At(kv, k) == WantedBy(r, k)
  {
    if r.EraseRequest? && forall k: Key :: At(kv, k) == WantedBy(r, k) {
      forall k: Key ensures k !in kv {
        assert At(kv, k) == WantedBy(r, k);
      }
    }
  }

  /** From any contents and whichever calls fail, a request that succeeded leaves its own contents and
      nothing else exactly if every key that is not wanted any more was removed. */
  lemma ServeCurrentExactly(kv: Kv, r: Request, fails: Faults, n: nat)
    requires Serve(kv, r, fails, n).ok
    ensures Current(Serve(kv, r, fails, n).kv, LatestOf(r)) <==> NothingLeft(kv, r, fails, n)
  {
    var kv' := Serve(kv, r, fails, n).kv;
    CurrentIsWanted(kv', r);
    forall k: Key ensures At(kv', k) == WantedBy(r, k)
                          <==> (At(kv, k).Some? && WantedBy(r, k).None? ==> RemovedBy(kv, r, fails, n, k)) {
      ServeStores(kv, r, fails, n, k);
    }
  }

  /** If the index cannot be read, no extra is stored. */
  predicate IndexReadHarmless(kv: Kv, fails: Faults, n: nat) { fails(n) ==> forall k :: k in kv ==> !k.ExtraKey? }

  /** No removal of a key that is there fails. */
  predicate RemovalsHarmless(kv: Kv, ops: seq<Op>, fails: Faults, n: nat) {
    forall i :: 0 <= i < |ops| && ops[i].value.None? && ops[i].key in kv ==> !fails(n + i)
  }

  /** None of the failures that a request hides from its caller matters. */
  predicate Harmless(kv: Kv, r: Request, fails: Faults, n: nat) {
    match r
    case SaveRequest(c) =>
      IndexReadHarmless(kv, fails, n) && RemovalsHarmless(kv, SaveOps(kv, c, fails, n), fails, n + 1)
    case EraseRequest =>
      && (SchemaVer in kv ==> !fails(n))
      && IndexReadHarmless(kv, fails, n + 1)
      && RemovalsHarmless(kv, EraseOps(kv, fails, n), fails, n + 2)
  }

  /** Every stored extra is indexed, so the next save or erase finds it. */
  lemma StoredExtrasAreIndexed(kv: Kv, latest: Option<Config>, k: Key)
    requires Current(kv, latest) && (latest.Some? ==> Validated(latest.value) && CommaFree(latest.value))
    requires k.ExtraKey? && At(kv, k).Some?
    ensures k.name in ExtraNames(kv)
  {
    var c := latest.value;
    assert At(kv, k) == Wanted(c, k);
    ExtraValueNames(c.extras, k.name);
    assert At(kv, ExtrasIdx) == Wanted(c, ExtrasIdx) == Some(Str(IndexOf(c)));
    IndexSplits(c, kv);
  }

  lemma SaveLeavesNothing(kv: Kv, latest: Option<Config>, c: Config, fails: Faults, n: nat, k: Key)
    requires Current(kv, latest) && (latest.Some? ==> Validated(latest.value) && CommaFree(latest.value))
    requires Saved(kv, c, fails, n).ok && Harmless(kv, SaveRequest(c), fails, n)
    requires At(kv, k).Some? && Wanted(c, k).None?
    ensures RemovedBySave(kv, c, fails, n, k)
  {
    var previous, ops := PreviousNames(kv, fails, n), SaveOps(kv, c, fails, n);
    if k.ExtraKey? {
      StoredExtrasAreIndexed(kv, latest, k);
    }
    StaleIsPlanned(kv, previous, c, k);
    PlanFollows(previous, c);
    var i :| 0 <= i < |ops| && ops[i].key == k;
    assert !fails(n + 1 + i);
  }

  lemma EraseLeavesNothing(kv: Kv, fails: Faults, n: nat, k: Key)
    requires Harmless(kv, EraseRequest, fails, n) && At(kv, k).Some?
    requires k.ExtraKey? ==> k.name in ExtraNames(kv)
    ensures RemovedByErase(kv, fails, n, k)
  {
    var names := NamesForErase(kv, fails, n);
    RemovalsAreRemovals(kv, ErasedKeys(names), fails, n + 2);
    ErasedKeysExactly(names, k);
    if k != SchemaVer {
      var i :| 0 <= i < |ErasedKeys(names)| && ErasedKeys(names)[i] == k;
      assert EraseOps(kv, fails, n)[i] == Remove(k);
      assert !fails(n + 2 + i);
    }
  }

  lemma HarmlessKeepsCurrent(kv: Kv, latest: Option<Config>, r: Request, fails: Faults, n: nat)
    requires Current(kv, latest) && (latest.Some? ==> Validated(latest.value) && CommaFree(latest.value))
    requires Serve(kv, r, fails, n).ok && Harmless(kv, r, fails, n)
    ensures Current(Serve(kv, r, fails, n).kv, LatestOf(r))
  {
    forall k: Key | At(kv, k).Some? && WantedBy(r, k).None? ensures RemovedBy(kv, r, fails, n, k) {
      match r
      case SaveRequest(c) => SaveLeavesNothing(kv, latest, c, fails, n, k);
      case EraseRequest =>
        if k.ExtraKey? {
          StoredExtrasAreIndexed(kv, latest, k);
        }
        EraseLeavesNothing(kv, fails, n, k);
    }
    ServeCurrentExactly(kv, r, fails, n);
  }

  predicate Acceptable(r: Request) { r.SaveRequest? ==> Validated(r.c) && CommaFree(r.c) }

  /** Serving `r` led from one outcome to the next, succeeded, and hid no failure that matters. */
  predicate ServedWell(before: Outcome, r: Request, fails: Faults, after: Outcome) {
    after == Serve(before.kv, r, fails, before.calls) && after.ok && Harmless(before.kv, r, fails, before.calls)
  }

  /** The life of a store that starts empty: `os[i]` is where the first `i` requests led. */
  predicate Life(rs: seq<Request>, os: seq<Outcome>, fails: Faults) {
    && |os| == |rs| + 1 && os[0] == Outcome(map[], 0, true)
    && forall i :: 0 <= i < |rs| ==> Acceptable(rs[i]) && ServedWell(os[i], rs[i], fails, os[i + 1])
  }

  function Latest(rs: seq<Request>, n: nat): Option<Config>
    requires n <= |rs|
  {
    if n == 0 then None else LatestOf(rs[n - 1])
  }

  /** After any number of saves and erases of an initially empty store that all succeeded and hid no
      failure that matters, its keys and values are exactly those of the latest request: nothing
      survives a switch of profile, a dropped optional or a shrunken set of extras. */
  lemma {:induction false} NothingStale(rs: seq<Request>, os: seq<Outcome>, fails: Faults, n: nat)
    requires Life(rs, os, fails) && n <= |rs|
    ensures Current(os[n].kv, Latest(rs, n))
    decreases n
  {
    if n > 0 {
      NothingStale(rs, os, fails, n - 1);
      assert ServedWell(os[n - 1], rs[n - 1], fails, os[n]);
      assert n > 1 ==> Acceptable(rs[n - 2]);
      HarmlessKeepsCurrent(os[n - 1].kv, Latest(rs, n - 1), rs[n - 1], fails, os[n - 1].calls);
    }
  }

  /** No two keys of an erase are the same. */
  lemma ErasedKeysDistinct(names: seq<string>)
    requires forall i, j :: 0 <= i < j < |names| ==> names[i] != names[j]
    ensures forall i, j :: 0 <= i < j < |ErasedKeys(names)| ==> ErasedKeys(names)[i] != ErasedKeys(names)[j]
  {
    var extras, fixed := ExtraKeys(names), [ExtrasIdx] + CANONICAL_KEYS;
    assert ErasedKeys(names) == extras + fixed;
    forall i, j | 0 <= i < j < |extras + fixed| ensures (extras + fixed)[i] != (extras + fixed)[j] {
      if i < |extras| && j < |extras| {
        assert extras[i].name == names[i] && extras[j].name == names[j];
      } else if i < |extras| {
        FixedKeys(fixed[j - |extras|]);
      } else {
        FixedDistinct(i - |extras|, j - |extras|);
      }
    }
  }

  lemma FixedDistinct(i: nat, j: nat)
    requires i < j < |[ExtrasIdx] + CANONICAL_KEYS|
    ensures ([ExtrasIdx] + CANONICAL_KEYS)[i] != ([ExtrasIdx] + CANONICAL_KEYS)[j]
  {
  }

  /** An erase of a stored configuration empties the store exactly if no extra name contains the
      separator of the index and none of the failures it hides matters. */
  lemma ErasedExactly(kv: Kv, c: Config, fails: Faults, n: nat)
    requires Validated(c) && HoldsExactly(kv, c)
    ensures Erased(kv, fails, n).kv == map[] <==> CommaFree(c) && Harmless(kv, EraseRequest, fails, n)
  {
    EraseClears(kv, fails, n, SchemaVer);
    ServeCurrentExactly(kv, EraseRequest, fails, n);
    if CommaFree(c) && Harmless(kv, EraseRequest, fails, n) {
      HarmlessKeepsCurrent(kv, Some(c), EraseRequest, fails, n);
    }
    if Erased(kv, fails, n).kv == map[] {
      EmptiedIsCommaFree(kv, c, fails, n);
      EmptiedIsHarmless(kv, c, fails, n);
    }
  }

  lemma StoredExtra(kv: Kv, c: Config, i: nat)
    requires Validated(c) && HoldsExactly(kv, c) && i < |c.extras|
    ensures At(kv, ExtraKey(c.extras[i].name)).Some?
  {
    assert At(kv, ExtraKey(c.extras[i].name)) == Wanted(c, ExtraKey(c.extras[i].name));
    LastValueOf(c.extras, |c.extras|, i);
  }

  lemma ReachedIsPlanned(kv: Kv, fails: Faults, n: nat, k: Key)
    requires RemovedByErase(kv, fails, n, k) && k.ExtraKey?
    ensures k.name in NamesForErase(kv, fails, n)
  {
    var keys, ops := ErasedKeys(NamesForErase(kv, fails, n)), EraseOps(kv, fails, n);
    RemovalsAreRemovals(kv, keys, fails, n + 2);
    var i :| 0 <= i < |ops| && ops[i].key == k && !fails(n + 2 + i);
    assert keys[i] == k;
    ErasedKeysExactly(NamesForErase(kv, fails, n), k);
  }

  /** If the store is emptied, each extra was found by its name in the index. */
  lemma EmptiedExtra(kv: Kv, c: Config, fails: Faults, n: nat, i: nat)
    requires Validated(c) && HoldsExactly(kv, c) && Erased(kv, fails, n).kv == map[] && i < |c.extras|
    ensures !fails(n + 1) && Free(c.extras[i].name, ',')
  {
    var k := ExtraKey(c.extras[i].name);
    StoredExtra(kv, c, i);
    EraseClears(kv, fails, n, k);
    ReachedIsPlanned(kv, fails, n, k);
    IndexedIsFree(kv, c, c.extras[i].name);
  }

  lemma IndexedIsFree(kv: Kv, c: Config, name: string)
    requires Validated(c) && HoldsExactly(kv, c) && name in ExtraNames(kv)
    ensures Free(name, ',')
  {
    assert At(kv, ExtrasIdx) == Wanted(c, ExtrasIdx);
    IndexSplits(c, kv);
  }

  lemma EmptiedIsCommaFree(kv: Kv, c: Config, fails: Faults, n: nat)
    requires Validated(c) && HoldsExactly(kv, c) && Erased(kv, fails, n).kv == map[]
    ensures CommaFree(c) && (fails(n + 1) ==> c.extras == [])
  {
    forall i | 0 <= i < |c.extras| ensures Free(Names(c.extras)[i], ',') {
      EmptiedExtra(kv, c, fails, n, i);
    }
    if c.extras != [] {
      EmptiedExtra(kv, c, fails, n, 0);
    }
  }

  /** The only operation on a key, if that key was reached, did not fail. */
  lemma OnlyOneWorked(ops: seq<Op>, fails: Faults, n: nat, i: nat)
    requires i < |ops| && Reached(ops, fails, n, ops[i].key)
    requires forall j :: 0 <= j < |ops| && j != i ==> ops[j].key != ops[i].key
    ensures !fails(n + i)
  {
  }

  lemma EmptiedRemovals(kv: Kv, keys: seq<Key>, fails: Faults, n: nat)
    requires forall i, j :: 0 <= i < j < |keys| ==> keys[i] != keys[j]
    requires forall k :: k in keys && k in kv ==> Reached(Removals(keys), fails, n, k)
    ensures RemovalsHarmless(kv, Removals(keys), fails, n)
  {
    var ops := Removals(keys);
    RemovalsAreRemovals(kv, keys, fails, n);
    forall i | 0 <= i < |ops| && ops[i].key in kv ensures !fails(n + i) {
      assert keys[i] in keys && ops[i].key == keys[i];
      forall j | 0 <= j < |ops| && j != i ensures ops[j].key != ops[i].key {
        assert ops[j].key == keys[j];
      }
      OnlyOneWorked(ops, fails, n, i);
    }
  }

  lemma EmptiedReached(kv: Kv, fails: Faults, n: nat, k: Key)
    requires Erased(kv, fails, n).kv == map[] && k in kv
    ensures if k.SchemaVer? then !fails(n) else Reached(EraseOps(kv, fails, n), fails, n + 2, k)
  {
    EraseClears(kv, fails, n, k);
    GuardNotReached(kv, fails, n);
  }

  lemma EmptiedIsHarmless(kv: Kv, c: Config, fails: Faults, n: nat)
    requires Validated(c) && HoldsExactly(kv, c) && Erased(kv, fails, n).kv == map[]
    requires CommaFree(c) && (fails(n + 1) ==> c.extras == [])
    ensures Harmless(kv, EraseRequest, fails, n)
  {
    var names := NamesForErase(kv, fails, n);
    assert At(kv, ExtrasIdx) == Wanted(c, ExtrasIdx) == Some(Str(IndexOf(c)));
    IndexSplits(c, kv);
    assert names == Names(c.extras) || names == [];
    ErasedKeysDistinct(names);
    forall k | k in kv ensures if k.SchemaVer? then !fails(n) else Reached(EraseOps(kv, fails, n), fails, n + 2, k) {
      EmptiedReached(kv, fails, n, k);
    }
    ErasedKeysExactly(names, SchemaVer);
    EmptiedRemovals(kv, ErasedKeys(names), fails, n + 2);
    forall k | k in kv && fails(n + 1) ensures !k.ExtraKey? {
      assert At(kv, k) == Wanted(c, k);
    }
  }

  /** The guard is removed by its own call or not at all. */
  lemma GuardNotReached(kv: Kv, fails: Faults, n: nat)
    ensures !Reached(EraseOps(kv, fails, n), fails, n + 2, SchemaVer)
  {
    var keys, ops := ErasedKeys(NamesForErase(kv, fails, n)), EraseOps(kv, fails, n);
    RemovalsAreRemovals(kv, keys, fails, n + 2);
    ErasedKeysExactly(NamesForErase(kv, fails, n), SchemaVer);
    forall i | 0 <= i < |ops| ensures ops[i].key != SchemaVer {
      assert ops[i] == Remove(keys[i]) && keys[i] in keys;
    }
  }

  // ----- commits cut short -----

  lemma {:induction false} PerformUntouched(kv: Kv, ops: seq<Op>, fails: Faults, n: nat, k: Key)
    requires Untouched(ops, k)
    ensures At(Perform(kv, ops, fails, n).kv, k) == At(kv, k)
  {
    if ops != [] {
      PerformUntouched(kv, ops[..|ops| - 1], fails, n, k);
    }
  }

  predicate Inner(ops: seq<Op>) {
    forall j :: 0 <= j < |ops| ==> ops[j].key != SchemaVer && ops[j].key != WifiSsid
  }

  lemma InnerAppend(a: seq<Op>, b: seq<Op>)
    requires Inner(a) && Inner(b)
    ensures Inner(a + b)
  {
  }

  lemma ValuesAreInner(c: Config)
    requires c.mqtt.Some? || c.lora.Some?
    ensures ValueOps(c)[0] == Set(WifiSsid, c.ssid) && Inner(ValueOps(c)[1..])
  {
    ExtraOpsAreExtras(c.extras, |c.extras|);
    assert Inner(GroupOps(c));
    InnerAppend(CoreOps(c)[1..], GroupOps(c));
    InnerAppend(CoreOps(c)[1..] + GroupOps(c), ExtraOps(c.extras, |c.extras|));
    assert ValueOps(c)[1..] == (CoreOps(c)[1..] + GroupOps(c)) + ExtraOps(c.extras, |c.extras|);
  }

  /** The SSID is the first thing a save writes, the guard the last thing a complete one does, and
      neither is touched in between. */
  lemma PlanShape(previous: seq<string>, c: Config) returns (inner: seq<Op>)
    ensures var plan := SavePlan(previous, c);
            && plan.ops == [Set(WifiSsid, c.ssid)] + inner + (if plan.complete then [TailOps(c)[2]] else [])
            && Inner(inner) && inner != []
  {
    var plan := SavePlan(previous, c);
    if c.mqtt.None? && c.lora.None? {
      inner := CoreOps(c)[1..];
    } else {
      ValuesAreInner(c);
      var values := ValueOps(c);
      inner := values[1..];
      assert values == [values[0]] + inner;
      if plan.complete {
        var stale, tail := StaleOps(previous, Names(c.extras)), TailOps(c);
        StaleOpsAreExtras(previous, Names(c.extras));
        inner := CompleteInner(values, stale, tail);
      } else {
        assert plan.ops == values + [];
      }
    }
  }

  lemma CompleteInner(values: seq<Op>, stale: seq<Op>, tail: seq<Op>) returns (inner: seq<Op>)
    requires values != [] && |tail| == 3 && Inner(values[1..]) && Inner(tail[..2])
    requires forall j :: 0 <= j < |stale| ==> stale[j].key.ExtraKey?
    ensures values + (stale + tail) == [values[0]] + inner + [tail[2]]
    ensures Inner(inner) && inner != []
  {
    InnerAppend(values[1..], stale);
    InnerAppend(values[1..] + stale, tail[..2]);
    inner := (values[1..] + stale) + tail[..2];
  }

  lemma GuardIsLast(previous: seq<string>, c: Config)
    ensures var plan := SavePlan(previous, c);
            && |plan.ops| > 0 && plan.ops[0] == Set(WifiSsid, c.ssid)
            && (forall j :: 1 <= j < |plan.ops| ==> plan.ops[j].key != WifiSsid)
            && (forall j :: 0 <= j < |plan.ops| && plan.ops[j].key == SchemaVer ==>
                  plan.complete && j == |plan.ops| - 1)
  {
    var inner := PlanShape(previous, c);
  }

  /** A complete save writes the profile right before the guard and nowhere else. */
  lemma ProfileBeforeGuard(previous: seq<string>, c: Config)
    requires SavePlan(previous, c).complete
    ensures var ops := SavePlan(previous, c).ops;
            && |ops| >= 2 && ops[|ops| - 1] == Op(SchemaVer, Some(U8(2)))
            && ops[|ops| - 2] == Set(Profile, if c.mqtt.Some? then "wifi_mqtt" else "lorawan")
            && Untouched(ops[..|ops| - 2], Profile)
  {
    var stale := StaleOps(previous, Names(c.extras));
    StaleOpsAreExtras(previous, Names(c.extras));
    ValuesSkipProfile(c);
    LastTwo(ValueOps(c), stale, TailOps(c));
  }

  lemma LastTwo(values: seq<Op>, stale: seq<Op>, tail: seq<Op>)
    requires |tail| == 3 && tail[0].key != Profile && Untouched(values, Profile) && Untouched(stale, Profile)
    ensures var ops := values + (stale + tail);
            && ops[|ops| - 1] == tail[2] && ops[|ops| - 2] == tail[1] && Untouched(ops[..|ops| - 2], Profile)
  {
  }

  lemma ValuesSkipProfile(c: Config)
    requires c.mqtt.Some? || c.lora.Some?
    ensures Untouched(ValueOps(c), Profile)
  {
    ExtraOpsAreExtras(c.extras, |c.extras|);
    assert Untouched(CoreOps(c), Profile) && Untouched(GroupOps(c), Profile);
  }

  /** From a store without the guard, a save that is cut short anywhere, or that a backend error
      ends, leaves the device unprovisioned, whichever calls failed on the way. */
  lemma TornSaveStaysUnprovisioned(kv: Kv, previous: seq<string>, c: Config, fails: Faults, n: nat, k: nat)
    requires GetU8(kv, SchemaVer).None? && k <= |SavePlan(previous, c).ops|
    requires k < |SavePlan(previous, c).ops| || !SavePlan(previous, c).complete
             || !Perform(kv, SavePlan(previous, c).ops, fails, n).ok
    ensures !IsProvisioned(Perform(kv, SavePlan(previous, c).ops[..k], fails, n).kv)
  {
    GuardIsLast(previous, c);
    var ops := SavePlan(previous, c).ops;
    if k == |ops| && SavePlan(previous, c).complete {
      assert ops[..k] == ops;
      PerformUntouched(kv, ops[..k - 1], fails, n, SchemaVer);
    } else {
      PerformUntouched(kv, ops[..k], fails, n, SchemaVer);
    }
  }

  /** In general a save cut short reads as provisioned exactly if the guard was there before, whichever
      removals failed on the way: the guard of an earlier configuration is not dropped first. */
  lemma TornSaveReadsExactly(kv: Kv, previous: seq<string>, c: Config, fails: Faults, n: nat, k: nat)
    requires 0 < k < |SavePlan(previous, c).ops| && Perform(kv, SavePlan(previous, c).ops[..k], fails, n).ok
    ensures IsProvisioned(Perform(kv, SavePlan(previous, c).ops[..k], fails, n).kv) <==> GetU8(kv, SchemaVer).Some?
  {
    GuardIsLast(previous, c);
    var ops := SavePlan(previous, c).ops[..k];
    PerformUntouched(kv, ops, fails, n, SchemaVer);
    SsidWritten(kv, ops, fails, n, c.ssid);
  }

  lemma SsidWritten(kv: Kv, ops: seq<Op>, fails: Faults, n: nat, ssid: string)
    requires ops != [] && ops[0] == Set(WifiSsid, ssid) && forall j :: 1 <= j < |ops| ==> ops[j].key != WifiSsid
    requires Perform(kv, ops, fails, n).ok
    ensures GetStr(Perform(kv, ops, fails, n).kv, WifiSsid) == Some(ssid)
  {
    PerformedWrites(kv, ops, fails, n, WifiSsid);
    LastTouch(kv, ops, 0);
  }

  lemma FirstWriteMixes(kv: Kv, a: Config, ssid: string)
    requires Holds(kv, a) && NoneShows(kv, a)
    ensures Holds(Apply(kv, Set(WifiSsid, ssid)), a.(ssid := ssid))
            && NoneShows(Apply(kv, Set(WifiSsid, ssid)), a.(ssid := ssid))
  {
    var mixed := a.(ssid := ssid);
    var kv' := Apply(kv, Set(WifiSsid, ssid));
    forall k: Key | !k.ExtraKey? && Field(mixed, k).Some? ensures At(kv', k) == Field(mixed, k) {
      if k != WifiSsid {
        assert At(kv', k) == At(kv, k) == Field(a, k);
      }
    }
    forall i | 0 <= i < |a.extras| ensures At(kv', ExtraKey(a.extras[i].name)) == Some(Str(a.extras[i].value)) {
      assert At(kv', ExtraKey(a.extras[i].name)) == At(kv, ExtraKey(a.extras[i].name));
    }
    forall k | OptionalKey(k) ensures ShowsThrough(kv', mixed, k) == ShowsThrough(kv, a, k) {
      ApplyAt(kv, Set(WifiSsid, ssid), k);
    }
  }

  /** So a power loss after the first write of a new configuration over an old one leaves a device
      that is provisioned with a mixture of the two. */
  lemma TornSaveMixes(kv: Kv, previous: seq<string>, a: Config, b: Config)
    requires Holds(kv, a) && NoneShows(kv, a) && Validated(a) && CommaFree(a) && Validated(b)
    ensures SavePlan(previous, b).ops != []
    ensures LoadFrom(ApplyAll(kv, SavePlan(previous, b).ops[..1])) == Ok(Some(a.(ssid := b.ssid)))
  {
    GuardIsLast(previous, b);
    assert SavePlan(previous, b).ops[..1] == [] + [Set(WifiSsid, b.ssid)];
    ApplySnoc(kv, [], Set(WifiSsid, b.ssid));
    FirstWriteMixes(kv, a, b.ssid);
    LoadExactly(Apply(kv, Set(WifiSsid, b.ssid)), a.(ssid := b.ssid));
  }

  /** An erase that removed the guard reads as unprovisioned wherever it is cut short, whatever names
      it went by. */
  lemma TornEraseIsUnprovisioned(kv: Kv, names: seq<string>, fails: Faults, n: nat, k: nat)
    requires k <= |ErasedKeys(names)| && !fails(n)
    ensures !IsProvisioned(Perform(GuardGone(kv, fails, n), Removals(ErasedKeys(names)[..k]), fails, n + 2).kv)
  {
    GuardFirst(kv, fails, n, SchemaVer);
    RemovalsAt(GuardGone(kv, fails, n), ErasedKeys(names)[..k], fails, n + 2, SchemaVer);
  }
}
