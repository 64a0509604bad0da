/** What the stored keys mean: round trips, nothing stale, torn commits, migration. */
module KvTheorems {
  import opened Common
  import opened Text
  import opened KvStore

  // ----- a configuration the portal accepts -----

  predicate Fits(s: string, k: Key) { |s| <= Capacity(k) }
  predicate FitsOpt(s: Option<string>, k: Key) { s.Some? ==> Fits(s.value, k) }

  /** Exactly one field group, every value within its cap, at most eight extras with distinct,
      non-empty names: what form validation implies, and all that the theorems below need of it. */
  predicate Validated(c: Config) {
    && (c.lora.Some? <==> c.mqtt.None?)
    && Fits(c.ssid, WifiSsid) && Fits(c.password, WifiPass) && Fits(c.otaUrl, OtaUrl) && Fits(c.deviceName, DevName)
    && (c.lora.Some? ==>
          Fits(c.lora.value.devEui, DevEui) && Fits(c.lora.value.joinEui, JoinEui) && Fits(c.lora.value.appKey, AppKey))
    && (c.mqtt.Some? ==>
          && Fits(c.mqtt.value.host, MqttHost) && FitsOpt(c.mqtt.value.username, MqttUser)
          && FitsOpt(c.mqtt.value.password, MqttPass) && FitsOpt(c.mqtt.value.clientId, MqttClient))
    && |c.extras| <= EXTRA_FIELDS_MAX
    && (forall k :: 0 <= k < |c.extras| ==>
          0 < |c.extras[k].name| <= EXTRA_KEY_MAX_LEN && |c.extras[k].value| <= EXTRA_VALUE_MAX_LEN)
    && (forall j, k :: 0 <= j < k < |c.extras| ==> c.extras[j].name != c.extras[k].name)
  }

  predicate IsHex(c: char) { '0' <= c <= '9' || 'a' <= c <= 'f' || 'A' <= c <= 'F' }

  predicate HexOf(s: string, n: nat) { |s| == n && forall k :: 0 <= k < n ==> IsHex(s[k]) }

  /** A plain HTTP URL with a host. */
  predicate HttpUrl(s: string) { "http://" <= s && |s| > 7 && s[7] != '/' && s[7] != '?' && s[7] != '#' }

  predicate FilledIn(s: string, cap: nat) { 0 < |s| <= cap }
  predicate BlankOrFilled(s: Option<string>, cap: nat) { s.Some? ==> FilledIn(s.value, cap) }

  /** The input names of the form's own fields. */
  const FORM_NAMES: seq<string> :=
    ["wifi_ssid", "wifi_pass", "dev_eui", "join_eui", "app_key", "mqtt_uri", "mqtt_user", "mqtt_pass", "mqtt_client",
     "ota_url", "dev_name"]

  predicate FormTakesExtra(e: Extra) {
    && 0 < |e.name| <= 13 && |e.value| <= 64
    && e.name[0] != '_' && e.name !in FORM_NAMES
  }

  /** Some submission of the form is parsed into this configuration. */
  predicate FormAccepts(c: Config) {
    && FilledIn(c.ssid, 32) && FilledIn(c.deviceName, 24)
    && (c.password == "" || 8 <= |c.password| <= 64)
    && (c.otaUrl == "" ==> c.mqtt.Some?) && (c.otaUrl != "" ==> HttpUrl(c.otaUrl) && |c.otaUrl| <= 128)
    && (c.lora.Some? <==> c.mqtt.None?)
    && (c.lora.Some? ==>
          HexOf(c.lora.value.devEui, 16) && HexOf(c.lora.value.joinEui, 16) && HexOf(c.lora.value.appKey, 32))
    && (c.mqtt.Some? ==>
          && var m := c.mqtt.value;
          && FilledIn(m.host, 64) && m.port != 0
          && BlankOrFilled(m.username, 64) && BlankOrFilled(m.password, 64)
          && (m.password.Some? ==> m.username.Some?) && BlankOrFilled(m.clientId, 23))
    && |c.extras| <= 8
    && (forall k :: 0 <= k < |c.extras| ==> FormTakesExtra(c.extras[k]))
    && (forall j, k :: 0 <= j < k < |c.extras| ==> c.extras[j].name != c.extras[k].name)
  }

  lemma AcceptedIsValidated(c: Config)
    requires FormAccepts(c)
    ensures Validated(c)
  {
  }

  predicate CommaFree(c: Config) { AllFree(Names(c.extras), ',') }

  lemma {:induction false} IndexLength(extras: seq<Extra>, n: nat)
    requires n <= |extras| && forall k :: 0 <= k < n ==> |extras[k].name| <= EXTRA_KEY_MAX_LEN
    ensures |IndexUpTo(extras, n)| <= 14 * n
    decreases n
  {
    if n > 0 {
      IndexLength(extras, n - 1);
    }
  }

  /** The built-up index is the comma-joined list of names. */
  lemma {:induction false} IndexIsJoin(extras: seq<Extra>, n: nat)
    requires n <= |extras|
    ensures IndexUpTo(extras, n) == Join(Names(extras[..n]), ',')
    decreases n
  {
    if n > 0 {
      IndexIsJoin(extras, n - 1);
      var names := Names(extras[..n]);
      assert names[..n - 1] == Names(extras[..n - 1]);
      assert "" + extras[n - 1].name == extras[n - 1].name;
    }
  }

  lemma ValidatedPlanIsComplete(previous: seq<string>, c: Config)
    requires Validated(c)
    ensures SavePlan(previous, c).complete
  {
    IndexLength(c.extras, |c.extras|);
  }

  // ----- what each key holds after a save -----

  /** What a stored configuration puts under a key that is not an extra. */
  function Field(c: Config, k: Key): Option<Value>
    requires !k.ExtraKey?
  {
    match k
    case SchemaVer => Some(U8(2))
    case Profile => Some(Str(ProfileName(ProfileOf(c))))
    case WifiSsid => Some(Str(c.ssid))
    case WifiPass => Some(Str(c.password))
    case OtaUrl => Some(Str(c.otaUrl))
    case DevName => Some(Str(c.deviceName))
    case ExtrasIdx => Some(Str(IndexOf(c)))
    case DevEui => if c.mqtt.None? && c.lora.Some? then Some(Str(c.lora.value.devEui)) else None
    case JoinEui => if c.mqtt.None? && c.lora.Some? then Some(Str(c.lora.value.joinEui)) else None
    case AppKey => if c.mqtt.None? && c.lora.Some? then Some(Str(c.lora.value.appKey)) else None
    case MqttHost => if c.mqtt.Some? then Some(Str(c.mqtt.value.host)) else None
    case MqttPort => if c.mqtt.Some? then Some(Str(ToDecimal(c.mqtt.value.port))) else None
    case MqttUser =>
      if c.mqtt.Some? && c.mqtt.value.username.Some? then Some(Str(c.mqtt.value.username.value)) else None
    case MqttPass =>
      if c.mqtt.Some? && c.mqtt.value.password.Some? then Some(Str(c.mqtt.value.password.value)) else None
    case MqttClient =>
      if c.mqtt.Some? && c.mqtt.value.clientId.Some? then Some(Str(c.mqtt.value.clientId.value)) else None
  }

  /** The value of the last of the first `n` extras with that name. */
  function LastValue(extras: seq<Extra>, n: nat, name: string): Option<Value>
    requires n <= |extras|
  {
    if n == 0 then None
    else if extras[n - 1].name == name then Some(Str(extras[n - 1].value))
    else LastValue(extras, n - 1, name)
  }

  function ExtraValue(extras: seq<Extra>, name: string): Option<Value> { LastValue(extras, |extras|, name) }

  predicate Untouched(ops: seq<Op>, k: Key) { forall j :: 0 <= j < |ops| ==> ops[j].key != k }

  lemma {:induction false} UntouchedKeeps(kv: Kv, ops: seq<Op>, k: Key)
    requires Untouched(ops, k)
    ensures At(ApplyAll(kv, ops), k) == At(kv, k)
  {
    if ops != [] {
      UntouchedKeeps(kv, ops[..|ops| - 1], k);
    }
  }

  /** The last operation on a key decides. */
  lemma {:induction false} LastTouch(kv: Kv, ops: seq<Op>, i: nat)
    requires i < |ops| && forall j :: i < j < |ops| ==> ops[j].key != ops[i].key
    ensures At(ApplyAll(kv, ops), ops[i].key) == ops[i].value
    decreases |ops|
  {
    if i < |ops| - 1 {
      LastTouch(kv, ops[..|ops| - 1], i);
    }
  }

  lemma {:induction false} ApplyAppend(kv: Kv, a: seq<Op>, b: seq<Op>)
    ensures ApplyAll(kv, a + b) == ApplyAll(ApplyAll(kv, a), b)
    decreases |b|
  {
    if b == [] {
      assert a + b == a;
    } else {
      ApplyAppend(kv, a, b[..|b| - 1]);
      assert (a + b)[..|a + b| - 1] == a + b[..|b| - 1];
    }
  }

  /** Without faults `Perform` applies everything. */
  lemma {:induction false} PerformWithoutFaults(kv: Kv, ops: seq<Op>, fails: Faults, n: nat)
    requires forall k :: n <= k < n + |ops| ==> !fails(k)
    ensures Perform(kv, ops, fails, n) == Outcome(ApplyAll(kv, ops), n + |ops|, true)
    decreases |ops|
  {
    if ops != [] {
      PerformWithoutFaults(kv, ops[..|ops| - 1], fails, n);
    }
  }

  lemma ApplySnoc(kv: Kv, ops: seq<Op>, op: Op)
    ensures ApplyAll(kv, ops + [op]) == Apply(ApplyAll(kv, ops), op)
  {
    assert (ops + [op])[..|ops|] == ops;
  }

  lemma ApplyAt(kv: Kv, op: Op, k: Key)
    ensures At(Apply(kv, op), k) == if k == op.key then op.value else At(kv, k)
  {
  }

  lemma {:induction false} ExtraOpsAt(kv: Kv, extras: seq<Extra>, n: nat, k: Key)
    requires n <= |extras|
    ensures At(ApplyAll(kv, ExtraOps(extras, n)), k)
            == if k.ExtraKey? && LastValue(extras, n, k.name).Some? then LastValue(extras, n, k.name) else At(kv, k)
    decreases n
  {
    if n > 0 {
      var op := Set(ExtraKey(extras[n - 1].name), extras[n - 1].value);
      ExtraOpsAt(kv, extras, n - 1, k);
      ApplySnoc(kv, ExtraOps(extras, n - 1), op);
      ApplyAt(ApplyAll(kv, ExtraOps(extras, n - 1)), op, k);
      assert ExtraOps(extras, n) == ExtraOps(extras, n - 1) + [op];
      if k == op.key {
        assert LastValue(extras, n, k.name) == op.value;
      } else if k.ExtraKey? {
        assert LastValue(extras, n, k.name) == LastValue(extras, n - 1, k.name);
      }
    }
  }

  lemma {:induction false} StaleKeeps(kv: Kv, previous: seq<string>, names: seq<string>, k: Key)
    requires forall i :: 0 <= i < |previous| && k == ExtraKey(previous[i]) ==> previous[i] in names
    ensures At(ApplyAll(kv, StaleOps(previous, names)), k) == At(kv, k)
  {
    if previous != [] {
      var init, last := previous[..|previous| - 1], previous[|previous| - 1];
      StaleKeeps(kv, init, names, k);
      if last in names {
        assert StaleOps(previous, names) == StaleOps(init, names);
      } else {
        ApplySnoc(kv, StaleOps(init, names), Remove(ExtraKey(last)));
      }
    }
  }

  lemma {:induction false} StaleRemoves(kv: Kv, previous: seq<string>, names: seq<string>, i: nat)
    requires i < |previous| && previous[i] !in names
    ensures At(ApplyAll(kv, StaleOps(previous, names)), ExtraKey(previous[i])) == None
    decreases |previous|
  {
    var init, last := previous[..|previous| - 1], previous[|previous| - 1];
    if i < |init| {
      StaleRemoves(kv, init, names, i);
    }
    if last in names {
      assert StaleOps(previous, names) == StaleOps(init, names);
    } else {
      ApplySnoc(kv, StaleOps(init, names), Remove(ExtraKey(last)));
    }
  }

  lemma StaleOpsAt(kv: Kv, previous: seq<string>, names: seq<string>, k: Key)
    ensures At(ApplyAll(kv, StaleOps(previous, names)), k)
            == if k.ExtraKey? && k.name in previous && k.name !in names then None else At(kv, k)
  {
    if k.ExtraKey? && k.name in previous && k.name !in names {
      var i :| 0 <= i < |previous| && previous[i] == k.name;
      StaleRemoves(kv, previous, names, i);
    } else {
      StaleKeeps(kv, previous, names, k);
    }
  }

  lemma {:induction false} LastValueNames(extras: seq<Extra>, n: nat, name: string)
    requires n <= |extras|
    ensures LastValue(extras, n, name).Some? <==> exists k :: 0 <= k < n && extras[k].name == name
    decreases n
  {
    if n > 0 {
      LastValueNames(extras, n - 1, name);
    }
  }

  lemma ExtraValueNames(extras: seq<Extra>, name: string)
    ensures ExtraValue(extras, name).Some? <==> name in Names(extras)
  {
    LastValueNames(extras, |extras|, name);
    if name in Names(extras) {
      var k :| 0 <= k < |extras| && Names(extras)[k] == name;
      assert extras[k].name == name;
    }
    if k :| 0 <= k < |extras| && extras[k].name == name {
      assert Names(extras)[k] == name;
    }
  }

  /** The common fields and the field group, before the extras. */
  lemma HeadAt(kv: Kv, c: Config, k: Key)
    requires c.lora.Some? || c.mqtt.Some?
    ensures At(ApplyAll(kv, CoreOps(c) + GroupOps(c)), k)
            == if k.ExtraKey? || k.SchemaVer? || k.Profile? || k.ExtrasIdx? then At(kv, k) else Field(c, k)
  {
    var ops := CoreOps(c) + GroupOps(c);
    if k.ExtraKey? || k.SchemaVer? || k.Profile? || k.ExtrasIdx? {
      UntouchedKeeps(kv, ops, k);
    } else {
      var i := HeadIndex(c, k);
      LastTouch(kv, ops, i);
    }
  }

  lemma HeadIndex(c: Config, k: Key) returns (i: nat)
    requires c.lora.Some? || c.mqtt.Some?
    requires !k.ExtraKey? && !k.SchemaVer? && !k.Profile? && !k.ExtrasIdx?
    ensures var ops := CoreOps(c) + GroupOps(c);
            && i < |ops| && ops[i].key == k && ops[i].value == Field(c, k)
            && forall j :: i < j < |ops| ==> ops[j].key != k
  {
    var mqtt := c.mqtt.Some?;
    i := match k
      case WifiSsid => 0
      case WifiPass => 1
      case OtaUrl => 2
      case DevName => 3
      case DevEui => if mqtt then 9 else 4
      case JoinEui => if mqtt then 10 else 5
      case AppKey => if mqtt then 11 else 6
      case MqttHost => if mqtt then 4 else 7
      case MqttPort => if mqtt then 5 else 8
      case MqttUser => if mqtt then 6 else 9
      case MqttPass => if mqtt then 7 else 10
      case MqttClient => if mqtt then 8 else 11;
  }

  lemma TailAt(kv: Kv, c: Config, k: Key)
    ensures At(ApplyAll(kv, TailOps(c)), k)
            == if k.SchemaVer? || k.Profile? || k.ExtrasIdx? then Field(c, k) else At(kv, k)
  {
    match k
    case ExtrasIdx => LastTouch(kv, TailOps(c), 0);
    case Profile => LastTouch(kv, TailOps(c), 1);
    case SchemaVer => LastTouch(kv, TailOps(c), 2);
    case _ => UntouchedKeeps(kv, TailOps(c), k);
  }

  lemma ValuesAt(kv: Kv, c: Config, k: Key)
    requires c.lora.Some? || c.mqtt.Some?
    ensures At(ApplyAll(kv, ValueOps(c)), k)
            == if k.SchemaVer? || k.Profile? || k.ExtrasIdx? then At(kv, k)
               else if !k.ExtraKey? then Field(c, k)
               else if ExtraValue(c.extras, k.name).Some? then ExtraValue(c.extras, k.name)
               else At(kv, k)
  {
    var head := CoreOps(c) + GroupOps(c);
    assert ValueOps(c) == head + ExtraOps(c.extras, |c.extras|);
    ApplyAppend(kv, head, ExtraOps(c.extras, |c.extras|));
    HeadAt(kv, c, k);
    ExtraOpsAt(ApplyAll(kv, head), c.extras, |c.extras|, k);
  }

  /** What a stored configuration puts under a key. */
  function Wanted(c: Config, k: Key): Option<Value> {
    if k.ExtraKey? then ExtraValue(c.extras, k.name) else Field(c, k)
  }

  /** What the operations of a save do to a key if none of them fails. */
  lemma PlanStores(kv: Kv, previous: seq<string>, c: Config, k: Key)
    requires SavePlan(previous, c).complete
    ensures At(ApplyAll(kv, SavePlan(previous, c).ops), k)
            == if Wanted(c, k).Some? then Wanted(c, k)
               else if k.ExtraKey? && k.name !in previous then At(kv, k)
               else None
  {
    var stale := StaleOps(previous, Names(c.extras));
    var kv1 := ApplyAll(kv, ValueOps(c));
    ApplyAppend(kv, ValueOps(c), stale + TailOps(c));
    ApplyAppend(kv1, stale, TailOps(c));
    ValuesAt(kv, c, k);
    StaleOpsAt(kv1, previous, Names(c.extras), k);
    TailAt(ApplyAll(kv1, stale), c, k);
    if k.ExtraKey? {
      ExtraValueNames(c.extras, k.name);
    }
  }

  // ----- failing backend calls -----

  /** Every operation on `k` is a write, or every one is a removal. */
  predicate OneKind(ops: seq<Op>, k: Key, write: bool) {
    forall i :: 0 <= i < |ops| && ops[i].key == k ==> ops[i].value.Some? == write
  }

  /** Some operation on `k` did not fail, the first of `ops` being call number `n`. */
  predicate Reached(ops: seq<Op>, fails: Faults, n: nat, k: Key) {
    exists i :: 0 <= i < |ops| && ops[i].key == k && !fails(n + i)
  }

  lemma ReachedSnoc(ops: seq<Op>, fails: Faults, n: nat, k: Key)
    requires ops != []
    ensures var last := |ops| - 1;
            Reached(ops, fails, n, k) <==> Reached(ops[..last], fails, n, k) || (ops[last].key == k && !fails(n + last))
  {
    var last := |ops| - 1;
    if Reached(ops, fails, n, k) {
      var i :| 0 <= i < |ops| && ops[i].key == k && !fails(n + i);
      assert i < last ==> ops[..last][i] == ops[i];
    }
    if Reached(ops[..last], fails, n, k) {
      var i :| 0 <= i < last && ops[..last][i].key == k && !fails(n + i);
      assert ops[i].key == k;
    }
  }

  /** A key with a removal and nothing else is gone. */
  lemma {:induction false} OnlyRemovals(kv: Kv, ops: seq<Op>, k: Key)
    requires OneKind(ops, k, false)
    ensures At(ApplyAll(kv, ops), k) == if Untouched(ops, k) then At(kv, k) else None
  {
    if ops != [] {
      var last := |ops| - 1;
      OnlyRemovals(kv, ops[..last], k);
      assert forall i :: 0 <= i < last ==> ops[..last][i] == ops[i];
      ApplyAt(ApplyAll(kv, ops[..last]), ops[last], k);
    }
  }

  lemma PerformSnoc(kv: Kv, ops: seq<Op>, fails: Faults, n: nat)
    requires ops != [] && Perform(kv, ops, fails, n).ok
    ensures var last := |ops| - 1;
            var before := Perform(kv, ops[..last], fails, n);
            && before.ok
            && Perform(kv, ops, fails, n)
               == Outcome(if fails(before.calls) then before.kv else Apply(before.kv, ops[last]),
                          before.calls + 1, true)
            && (fails(before.calls) ==> ops[last].value.None?)
  {
  }

  lemma {:induction false} PerformCounts(kv: Kv, ops: seq<Op>, fails: Faults, n: nat)
    requires Perform(kv, ops, fails, n).ok
    ensures Perform(kv, ops, fails, n).calls == n + |ops|
    decreases |ops|
  {
    if ops != [] {
      PerformSnoc(kv, ops, fails, n);
      PerformCounts(kv, ops[..|ops| - 1], fails, n);
    }
  }

  /** No write failed. */
  lemma {:induction false} WriteWorked(kv: Kv, ops: seq<Op>, fails: Faults, n: nat, i: nat)
    requires Perform(kv, ops, fails, n).ok && i < |ops| && ops[i].value.Some?
    ensures !fails(n + i)
    decreases |ops|
  {
    var last := |ops| - 1;
    PerformSnoc(kv, ops, fails, n);
    PerformCounts(kv, ops[..last], fails, n);
    if i < last {
      WriteWorked(kv, ops[..last], fails, n, i);
    }
  }

  /** No write among `ops` fails, the first of them being call number `n`. */
  predicate NoWriteFails(ops: seq<Op>, fails: Faults, n: nat) {
    forall i :: 0 <= i < |ops| && ops[i].value.Some? ==> !fails(n + i)
  }

  /** It counts as carried out exactly if no write failed. */
  lemma {:induction false} PerformedExactly(kv: Kv, ops: seq<Op>, fails: Faults, n: nat)
    ensures Perform(kv, ops, fails, n).ok <==> NoWriteFails(ops, fails, n)
    decreases |ops|
  {
    if ops != [] {
      var last := |ops| - 1;
      PerformedExactly(kv, ops[..last], fails, n);
      assert forall i :: 0 <= i < last ==> ops[..last][i] == ops[i];
      if Perform(kv, ops[..last], fails, n).ok {
        PerformCounts(kv, ops[..last], fails, n);
      }
      assert ops[last].value.Some? ==> (fails(n + last) ==> !Perform(kv, ops, fails, n).ok);
    }
  }

  lemma WritesReach(kv: Kv, ops: seq<Op>, fails: Faults, n: nat, k: Key)
    requires Perform(kv, ops, fails, n).ok && OneKind(ops, k, true)
    ensures Reached(ops, fails, n, k) <==> !Untouched(ops, k)
  {
    forall i | 0 <= i < |ops| && ops[i].key == k ensures !fails(n + i) {
      WriteWorked(kv, ops, fails, n, i);
    }
  }

  /** If the operations on a key are writes, it holds what the last of them says; if they are
      removals, it is gone once one of them was carried out. */
  lemma {:induction false} PerformedWrites(kv: Kv, ops: seq<Op>, fails: Faults, n: nat, k: Key)
    requires Perform(kv, ops, fails, n).ok && OneKind(ops, k, true)
    ensures At(Perform(kv, ops, fails, n).kv, k) == At(ApplyAll(kv, ops), k)
    decreases |ops|
  {
    if ops != [] {
      var last := |ops| - 1;
      assert forall i :: 0 <= i < last ==> ops[..last][i] == ops[i];
      PerformSnoc(kv, ops, fails, n);
      PerformedWrites(kv, ops[..last], fails, n, k);
      ApplyAt(Perform(kv, ops[..last], fails, n).kv, ops[last], k);
      ApplyAt(ApplyAll(kv, ops[..last]), ops[last], k);
    }
  }

  lemma {:induction false} PerformedRemovals(kv: Kv, ops: seq<Op>, fails: Faults, n: nat, k: Key)
    requires Perform(kv, ops, fails, n).ok && OneKind(ops, k, false)
    ensures At(Perform(kv, ops, fails, n).kv, k) == if Reached(ops, fails, n, k) then None else At(kv, k)
    decreases |ops|
  {
    if ops != [] {
      var last := |ops| - 1;
      assert forall i :: 0 <= i < last ==> ops[..last][i] == ops[i];
      PerformSnoc(kv, ops, fails, n);
      PerformCounts(kv, ops[..last], fails, n);
      PerformedRemovals(kv, ops[..last], fails, n, k);
      ReachedSnoc(ops, fails, n, k);
      ApplyAt(Perform(kv, ops[..last], fails, n).kv, ops[last], k);
    }
  }

  /** A sequence of operations that counts as carried out leaves behind what it would have without
      failures, except under keys of which every removal failed: those are as before. */
  lemma PerformedAt(kv: Kv, ops: seq<Op>, fails: Faults, n: nat, k: Key, write: bool)
    requires Perform(kv, ops, fails, n).ok && OneKind(ops, k, write)
    ensures At(Perform(kv, ops, fails, n).kv, k)
            == if Reached(ops, fails, n, k) then At(ApplyAll(kv, ops), k) else At(kv, k)
    ensures write ==> (Reached(ops, fails, n, k) <==> !Untouched(ops, k))
  {
    if write {
      PerformedWrites(kv, ops, fails, n, k);
      WritesReach(kv, ops, fails, n, k);
      if Untouched(ops, k) {
        UntouchedKeeps(kv, ops, k);
      }
    } else {
      PerformedRemovals(kv, ops, fails, n, k);
      OnlyRemovals(kv, ops, k);
    }
  }

  /** What a save does to a key is write it or remove it, never both, as the configuration says. */
  predicate Follows(ops: seq<Op>, c: Config) {
    forall i :: 0 <= i < |ops| ==> (ops[i].value.Some? <==> Wanted(c, ops[i].key).Some?)
  }

  lemma FollowsAppend(a: seq<Op>, b: seq<Op>, c: Config)
    requires Follows(a, c) && Follows(b, c)
    ensures Follows(a + b, c)
  {
  }

  lemma {:induction false} ExtraOpsFollow(c: Config, n: nat)
    requires n <= |c.extras|
    ensures Follows(ExtraOps(c.extras, n), c)
    decreases n
  {
    if n > 0 {
      var name := c.extras[n - 1].name;
      ExtraOpsFollow(c, n - 1);
      assert Names(c.extras)[n - 1] == name;
      ExtraValueNames(c.extras, name);
    }
  }

  lemma {:induction false} StaleOpsFollow(c: Config, previous: seq<string>)
    ensures Follows(StaleOps(previous, Names(c.extras)), c)
  {
    if previous != [] {
      StaleOpsFollow(c, previous[..|previous| - 1]);
      ExtraValueNames(c.extras, previous[|previous| - 1]);
    }
  }

  lemma CoreOpsFollow(c: Config)
    ensures Follows(CoreOps(c), c) && Follows(TailOps(c), c)
  {
  }

  lemma LoraOpsFollow(c: Config)
    requires c.mqtt.None? && c.lora.Some?
    ensures Follows(LoraOps(c.lora.value), c)
  {
  }

  lemma MqttOpsFollow(c: Config)
    requires c.mqtt.Some?
    ensures Follows(MqttOps(c.mqtt.value), c)
  {
  }

  lemma PlanFollows(previous: seq<string>, c: Config)
    requires SavePlan(previous, c).complete
    ensures Follows(SavePlan(previous, c).ops, c)
  {
    var stale := StaleOps(previous, Names(c.extras));
    ExtraOpsFollow(c, |c.extras|);
    StaleOpsFollow(c, previous);
    CoreOpsFollow(c);
    if c.mqtt.Some? {
      MqttOpsFollow(c);
    } else {
      LoraOpsFollow(c);
    }
    FollowsAppend(GroupOps(c), ExtraOps(c.extras, |c.extras|), c);
    FollowsAppend(CoreOps(c), GroupOps(c) + ExtraOps(c.extras, |c.extras|), c);
    FollowsAppend(stale, TailOps(c), c);
    FollowsAppend(ValueOps(c), stale + TailOps(c), c);
  }

  /** The operations of a save from call number `n`. */
  function SaveOps(kv: Kv, c: Config, fails: Faults, n: nat): seq<Op> {
    SavePlan(PreviousNames(kv, fails, n), c).ops
  }

  /** Some removal of `k` by the save did not fail. */
  predicate RemovedBySave(kv: Kv, c: Config, fails: Faults, n: nat, k: Key) {
    Reached(SaveOps(kv, c, fails, n), fails, n + 1, k)
  }

  /** After a save that succeeded every key of the configuration holds its value. Any other key is
      gone if a removal of it went through, and otherwise still what it was: removals are best
      effort, and extras the index did not name are not removed at all. */
  lemma SaveStores(kv: Kv, c: Config, fails: Faults, n: nat, k: Key)
    requires Saved(kv, c, fails, n).ok
    ensures At(Saved(kv, c, fails, n).kv, k)
            == if Wanted(c, k).Some? then Wanted(c, k)
               else if RemovedBySave(kv, c, fails, n, k) then None
               else At(kv, k)
  {
    var previous := PreviousNames(kv, fails, n);
    var ops := SavePlan(previous, c).ops;
    PlanFollows(previous, c);
    PerformedAt(kv, ops, fails, n + 1, k, Wanted(c, k).Some?);
    PlanStores(kv, previous, c, k);
    if Wanted(c, k).Some? {
      // A key that no operation touches would stay absent in an empty store.
      PlanStores(map[], previous, c, k);
      if Untouched(ops, k) {
        UntouchedKeeps(map[], ops, k);
      }
    } else if Reached(ops, fails, n + 1, k) {
      OnlyRemovals(kv, ops, k);
    }
  }

  lemma PlanCompletesExactly(previous: seq<string>, c: Config)
    ensures SavePlan(previous, c).complete
            <==> (c.mqtt.Some? || c.lora.Some?) && |Join(Names(c.extras), ',')| <= 256
  {
    IndexIsJoin(c.extras, |c.extras|);
    assert c.extras[..|c.extras|] == c.extras;
  }

  lemma SavedOk(kv: Kv, c: Config, fails: Faults, n: nat)
    ensures Saved(kv, c, fails, n).ok
            <==> SavePlan(PreviousNames(kv, fails, n), c).complete
                 && Perform(kv, SaveOps(kv, c, fails, n), fails, n + 1).ok
  {
  }

  /** Whether a save succeeds, from any earlier contents: the configuration has a field group, its
      extra names joined by commas take at most 256 bytes, and no write fails. Failed removals and an
      unreadable old index do not count. */
  lemma SaveSucceedsExactly(kv: Kv, c: Config, fails: Faults, n: nat)
    ensures Saved(kv, c, fails, n).ok <==>
              && (c.mqtt.Some? || c.lora.Some?)
              && |Join(Names(c.extras), ',')| <= 256
              && NoWriteFails(SaveOps(kv, c, fails, n), fails, n + 1)
  {
    PlanCompletesExactly(PreviousNames(kv, fails, n), c);
    SavedOk(kv, c, fails, n);
    PerformedExactly(kv, SaveOps(kv, c, fails, n), fails, n + 1);
  }

  // ----- round trip -----

  /** The store holds everything `c` has. */
  ghost predicate Holds(kv: Kv, c: Config) {
    && (forall k: Key {:trigger Field(c, k)} :: !k.ExtraKey? && Field(c, k).Some? ==> At(kv, k) == Field(c, k))
    && (forall i :: 0 <= i < |c.extras| ==> At(kv, ExtraKey(c.extras[i].name)) == Some(Str(c.extras[i].value)))
  }

  predicate OptionalKey(k: Key) { k.MqttUser? || k.MqttPass? || k.MqttClient? }

  /** An optional MQTT field that `c` leaves out, under which a string is stored. */
  predicate ShowsThrough(kv: Kv, c: Config, k: Key) {
    OptionalKey(k) && c.mqtt.Some? && Field(c, k).None? && GetStr(kv, k).Some?
  }

  predicate NoneShows(kv: Kv, c: Config) {
    !ShowsThrough(kv, c, MqttUser) && !ShowsThrough(kv, c, MqttPass) && !ShowsThrough(kv, c, MqttClient)
  }

  lemma {:induction false} LastValueOf(extras: seq<Extra>, n: nat, i: nat)
    requires i < n <= |extras| && forall j, k :: 0 <= j < k < |extras| ==> extras[j].name != extras[k].name
    ensures LastValue(extras, n, extras[i].name) == Some(Str(extras[i].value))
    decreases n
  {
    if i < n - 1 {
      LastValueOf(extras, n - 1, i);
    }
  }

  lemma SaveEstablishesHolds(kv: Kv, c: Config, fails: Faults, n: nat)
    requires Validated(c) && Saved(kv, c, fails, n).ok
    ensures Holds(Saved(kv, c, fails, n).kv, c)
  {
    var kv' := Saved(kv, c, fails, n).kv;
    forall k: Key | !k.ExtraKey? && Field(c, k).Some? ensures At(kv', k) == Field(c, k) {
      SaveStores(kv, c, fails, n, k);
    }
    forall i | 0 <= i < |c.extras| ensures At(kv', ExtraKey(c.extras[i].name)) == Some(Str(c.extras[i].value)) {
      SaveStores(kv, c, fails, n, ExtraKey(c.extras[i].name));
      LastValueOf(c.extras, |c.extras|, i);
    }
  }

  lemma IndexSplits(c: Config, kv: Kv)
    requires Validated(c) && At(kv, ExtrasIdx) == Some(Str(IndexOf(c)))
    ensures CommaFree(c) ==> ExtraNames(kv) == Names(c.extras)
    ensures AllFree(ExtraNames(kv), ',')
  {
    var names := Names(c.extras);
    SplitIsFree(IndexOf(c), ',');
    IndexIsJoin(c.extras, |c.extras|);
    assert c.extras[..|c.extras|] == c.extras;
    if names != [] {
      SplitJoin(names, ',');
    }
  }

  /** Extras stored under their names load back, in order. */
  lemma {:induction false} ExtrasLoad(kv: Kv, extras: seq<Extra>, n: nat)
    requires n <= |extras|
    requires forall i :: 0 <= i < n ==>
               && At(kv, ExtraKey(extras[i].name)) == Some(Str(extras[i].value))
               && |extras[i].name| <= EXTRA_KEY_MAX_LEN && |extras[i].value| <= EXTRA_VALUE_MAX_LEN
    ensures LoadExtras(kv, ALL_READABLE, Names(extras), n) == Ok(extras[..n])
    decreases n
  {
    if n > 0 {
      ExtrasLoad(kv, extras, n - 1);
      var e := extras[n - 1];
      assert GetStr(kv, ExtraKey(e.name)) == Some(e.value) && LoadExtra(e.name, e.value) == Ok(e);
      assert extras[..n] == extras[..n - 1] + [e];
    }
  }

  lemma {:induction false} LoadedNamesAreIndexed(kv: Kv, bad: Unreadable, names: seq<string>, n: nat, i: nat)
    requires n <= |names| && LoadExtras(kv, bad, names, n).Ok? && i < |LoadExtras(kv, bad, names, n).value|
    ensures exists j :: 0 <= j < n && names[j] == LoadExtras(kv, bad, names, n).value[i].name
    decreases n
  {
    var before := LoadExtras(kv, bad, names, n - 1).value;
    if i < |before| {
      LoadedNamesAreIndexed(kv, bad, names, n - 1, i);
    } else {
      assert names[n - 1] == LoadExtras(kv, bad, names, n).value[i].name;
    }
  }

  lemma CoreLoads(kv: Kv, c: Config)
    requires Validated(c)
    requires At(kv, WifiSsid) == Field(c, WifiSsid) && At(kv, WifiPass) == Field(c, WifiPass)
    requires At(kv, OtaUrl) == Field(c, OtaUrl) && At(kv, DevName) == Field(c, DevName)
    ensures ReadCapped(kv, ALL_READABLE, WifiSsid) == Ok(c.ssid)
            && ReadCapped(kv, ALL_READABLE, WifiPass) == Ok(c.password)
    ensures ReadCapped(kv, ALL_READABLE, OtaUrl) == Ok(c.otaUrl)
            && ReadCapped(kv, ALL_READABLE, DevName) == Ok(c.deviceName)
    ensures GetStr(kv, WifiSsid).Some?
  {
  }

  lemma LoraLoads(kv: Kv, c: Config)
    requires Validated(c) && c.lora.Some?
    requires At(kv, DevEui) == Field(c, DevEui) && At(kv, JoinEui) == Field(c, JoinEui)
             && At(kv, AppKey) == Field(c, AppKey)
    ensures LoadLora(kv, ALL_READABLE) == Ok(c.lora.value)
  {
  }

  /** An optional field reads as given exactly if nothing shows through. */
  lemma OptionalLoads(kv: Kv, k: Key, v: Option<string>)
    requires FitsOpt(v, k) && (v.Some? ==> At(kv, k) == Some(Str(v.value)))
    ensures ReadCappedOpt(kv, ALL_READABLE, k) == Ok(v) <==> v.Some? || GetStr(kv, k).None?
  {
  }

  lemma AddressLoads(kv: Kv, c: Config)
    requires Validated(c) && c.mqtt.Some? && Holds(kv, c)
    ensures ReadCapped(kv, ALL_READABLE, MqttHost) == Ok(c.mqtt.value.host)
    ensures LoadPort(kv, ALL_READABLE) == Ok(c.mqtt.value.port)
  {
    assert At(kv, MqttHost) == Field(c, MqttHost) && At(kv, MqttPort) == Field(c, MqttPort);
    DecimalRoundTrip(c.mqtt.value.port);
  }

  lemma MqttLoads(kv: Kv, c: Config)
    requires Validated(c) && c.mqtt.Some? && Holds(kv, c)
    ensures LoadMqtt(kv, ALL_READABLE) == Ok(c.mqtt.value) <==> NoneShows(kv, c)
  {
    var m := c.mqtt.value;
    AddressLoads(kv, c);
    assert m.username.Some? ==> At(kv, MqttUser) == Field(c, MqttUser);
    assert m.password.Some? ==> At(kv, MqttPass) == Field(c, MqttPass);
    assert m.clientId.Some? ==> At(kv, MqttClient) == Field(c, MqttClient);
    OptionalLoads(kv, MqttUser, m.username);
    OptionalLoads(kv, MqttPass, m.password);
    OptionalLoads(kv, MqttClient, m.clientId);
  }

  lemma GroupLoads(kv: Kv, c: Config)
    requires Validated(c) && Holds(kv, c)
    ensures LoadGroup(kv, ALL_READABLE, ProfileOf(c)) == Ok((c.lora, c.mqtt)) <==> NoneShows(kv, c)
  {
    if c.lora.Some? {
      assert At(kv, DevEui) == Field(c, DevEui) && At(kv, JoinEui) == Field(c, JoinEui)
             && At(kv, AppKey) == Field(c, AppKey);
      LoraLoads(kv, c);
    } else {
      MqttLoads(kv, c);
    }
  }

  lemma FieldsLoad(kv: Kv, c: Config)
    requires Validated(c) && Holds(kv, c)
    ensures CheckProvisioned(kv, ALL_READABLE) == Ok(true) && LoadProfile(kv, ALL_READABLE) == Ok(ProfileOf(c))
    ensures ReadCapped(kv, ALL_READABLE, WifiSsid) == Ok(c.ssid)
            && ReadCapped(kv, ALL_READABLE, WifiPass) == Ok(c.password)
    ensures ReadCapped(kv, ALL_READABLE, OtaUrl) == Ok(c.otaUrl)
            && ReadCapped(kv, ALL_READABLE, DevName) == Ok(c.deviceName)
  {
    assert At(kv, WifiSsid) == Field(c, WifiSsid) && At(kv, WifiPass) == Field(c, WifiPass);
    assert At(kv, OtaUrl) == Field(c, OtaUrl) && At(kv, DevName) == Field(c, DevName);
    assert At(kv, SchemaVer) == Field(c, SchemaVer) && At(kv, Profile) == Field(c, Profile);
    CoreLoads(kv, c);
  }

  lemma CommaFreeExtrasLoad(kv: Kv, c: Config)
    requires Validated(c) && CommaFree(c) && At(kv, ExtrasIdx) == Some(Str(IndexOf(c)))
    requires forall i :: 0 <= i < |c.extras| ==> At(kv, ExtraKey(c.extras[i].name)) == Some(Str(c.extras[i].value))
    ensures IndexedExtras(kv, ALL_READABLE) == Ok(c.extras)
  {
    IndexSplits(c, kv);
    ExtrasLoad(kv, c.extras, |c.extras|);
    assert c.extras[..|c.extras|] == c.extras;
  }

  lemma LoadedExtrasAreCommaFree(kv: Kv, c: Config)
    requires Validated(c) && At(kv, ExtrasIdx) == Some(Str(IndexOf(c)))
             && IndexedExtras(kv, ALL_READABLE) == Ok(c.extras)
    ensures CommaFree(c)
  {
    IndexSplits(c, kv);
    var names := ExtraNames(kv);
    forall k | 0 <= k < |c.extras| ensures Free(Names(c.extras)[k], ',') {
      LoadedNamesAreIndexed(kv, ALL_READABLE, names, |names|, k);
      var j :| 0 <= j < |names| && names[j] == c.extras[k].name;
      assert Free(names[j], ',');
    }
  }

  lemma IndexedExtrasExactly(kv: Kv, c: Config)
    requires Validated(c) && Holds(kv, c)
    ensures IndexedExtras(kv, ALL_READABLE) == Ok(c.extras) <==> CommaFree(c)
  {
    assert At(kv, ExtrasIdx) == Field(c, ExtrasIdx);
    if CommaFree(c) {
      CommaFreeExtrasLoad(kv, c);
    } else if IndexedExtras(kv, ALL_READABLE) == Ok(c.extras) {
      LoadedExtrasAreCommaFree(kv, c);
    }
  }

  /** Loading from a store that holds a configuration gives it back exactly if no extra name contains
      the separator of the index and no optional field it leaves out shows through. */
  lemma LoadExactly(kv: Kv, c: Config)
    requires Validated(c) && Holds(kv, c)
    ensures LoadFrom(kv) == Ok(Some(c)) <==> CommaFree(c) && NoneShows(kv, c)
  {
    FieldsLoad(kv, c);
    GroupLoads(kv, c);
    IndexedExtrasExactly(kv, c);
  }

  /** A save keeps a string under an optional field that the configuration leaves out: it was there,
      and every removal of it failed. */
  predicate KeepsOptional(kv: Kv, c: Config, fails: Faults, n: nat, k: Key) {
    ShowsThrough(kv, c, k) && !RemovedBySave(kv, c, fails, n, k)
  }

  /** Loading after a save that succeeded returns the configuration, from any earlier contents and
      whichever removals failed, exactly if no extra name contains a comma and no optional field it
      leaves out kept an earlier string. Form validation accepts a comma, and a failed removal does
      not fail the save, so both are real restrictions. */
  lemma SaveLoadRoundTrip(kv: Kv, c: Config, fails: Faults, n: nat)
    requires Validated(c) && Saved(kv, c, fails, n).ok
    ensures LoadFrom(Saved(kv, c, fails, n).kv) == Ok(Some(c)) <==>
            && CommaFree(c)
            && !KeepsOptional(kv, c, fails, n, MqttUser)
            && !KeepsOptional(kv, c, fails, n, MqttPass)
            && !KeepsOptional(kv, c, fails, n, MqttClient)
  {
    SaveEstablishesHolds(kv, c, fails, n);
    LoadExactly(Saved(kv, c, fails, n).kv, c);
    OptionalAfterSave(kv, c, fails, n, MqttUser);
    OptionalAfterSave(kv, c, fails, n, MqttPass);
    OptionalAfterSave(kv, c, fails, n, MqttClient);
  }

  lemma OptionalAfterSave(kv: Kv, c: Config, fails: Faults, n: nat, k: Key)
    requires Saved(kv, c, fails, n).ok && OptionalKey(k)
    ensures ShowsThrough(Saved(kv, c, fails, n).kv, c, k) <==> KeepsOptional(kv, c, fails, n, k)
  {
    SaveStores(kv, c, fails, n, k);
  }

  /** A configuration with one extra, the name of which is two names to the index. */
  const COMMA_CONFIG := Config(
    "home-net", "", "", "hive-01", None, Some(Mqtt("broker.local", 1883, None, None, None)), [Extra("a,b", "v")])

  /** The form accepts such a configuration, and no save that succeeds brings it back. */
  lemma CommaNameIsLost(kv: Kv, fails: Faults, n: nat)
    ensures FormAccepts(COMMA_CONFIG)
    ensures Saved(kv, COMMA_CONFIG, fails, n).ok ==>
              LoadFrom(Saved(kv, COMMA_CONFIG, fails, n).kv) != Ok(Some(COMMA_CONFIG))
  {
    CommaConfigAccepted();
    AcceptedIsValidated(COMMA_CONFIG);
    if Saved(kv, COMMA_CONFIG, fails, n).ok {
      SaveLoadRoundTrip(kv, COMMA_CONFIG, fails, n);
    }
  }

  lemma CommaConfigAccepted()
    ensures FormAccepts(COMMA_CONFIG) && !CommaFree(COMMA_CONFIG)
  {
    var name := COMMA_CONFIG.extras[0].name;
    assert |name| == 3 && name[0] == 'a' && name[1] == ',';
    forall k | 0 <= k < |FORM_NAMES| ensures FORM_NAMES[k] != name {
      assert |FORM_NAMES[k]| >= 7;
    }
    assert Names(COMMA_CONFIG.extras)[0] == name && !Free(name, ',');
  }

  /** Whatever a save without failures has to remove, it does remove. */
  lemma StaleIsPlanned(kv: Kv, previous: seq<string>, c: Config, k: Key)
    requires SavePlan(previous, c).complete && At(kv, k).Some? && Wanted(c, k).None?
    requires k.ExtraKey? ==> k.name in previous
    ensures !Untouched(SavePlan(previous, c).ops, k)
  {
    PlanStores(kv, previous, c, k);
    if Untouched(SavePlan(previous, c).ops, k) {
      UntouchedKeeps(kv, SavePlan(previous, c).ops, k);
    }
  }

  predicate NoFaults(fails: Faults, from: nat, to: nat) { forall i :: from <= i < to ==> !fails(i) }

  /** If no backend call fails, saving a validated configuration succeeds, and loading it returns it
      exactly if no extra name contains a comma. */
  lemma FaultlessSave(kv: Kv, c: Config, fails: Faults, n: nat)
    requires Validated(c) && NoFaults(fails, n, n + 1 + |SaveOps(kv, c, fails, n)|)
    ensures Saved(kv, c, fails, n).ok
    ensures LoadFrom(Saved(kv, c, fails, n).kv) == Ok(Some(c)) <==> CommaFree(c)
  {
    var previous, ops := PreviousNames(kv, fails, n), SaveOps(kv, c, fails, n);
    ValidatedPlanIsComplete(previous, c);
    PerformWithoutFaults(kv, ops, fails, n + 1);
    SaveLoadRoundTrip(kv, c, fails, n);
    forall k | OptionalKey(k) ensures !KeepsOptional(kv, c, fails, n, k) {
      if ShowsThrough(kv, c, k) {
        StaleIsPlanned(kv, previous, c, k);
        var i :| 0 <= i < |ops| && ops[i].key == k;
        assert !fails(n + 1 + i);
      }
    }
  }

  /** The user name is removed once, as the seventh of the fixed operations. */
  lemma UserRemoval(c: Config, m: Mqtt)
    requires m.username.None?
    ensures var head := CoreOps(c) + MqttOps(m);
            |head| == 12 && head[6] == Remove(MqttUser) && forall j :: 0 <= j < 12 && j != 6 ==> head[j].key != MqttUser
  {
  }

  lemma UserElsewhere(c: Config, previous: seq<string>)
    ensures Untouched(ExtraOps(c.extras, |c.extras|) + (StaleOps(previous, Names(c.extras)) + TailOps(c)), MqttUser)
  {
    ExtraOpsAreExtras(c.extras, |c.extras|);
    StaleOpsAreExtras(previous, Names(c.extras));
  }

  predicate OnlyAt(ops: seq<Op>, i: nat, k: Key) {
    i < |ops| && ops[i] == Remove(k) && forall j :: 0 <= j < |ops| && j != i ==> ops[j].key != k
  }

  lemma OnlyAtPrefix(head: seq<Op>, rest: seq<Op>, i: nat, k: Key)
    requires OnlyAt(head, i, k) && Untouched(rest, k)
    ensures OnlyAt(head + rest, i, k)
  {
  }

  /** So call 7 of a save that starts with call 0 is the removal of the user name. */
  lemma CallSeven(kv: Kv, c: Config, fails: Faults)
    requires Validated(c) && c.mqtt.Some? && c.mqtt.value.username.None?
    ensures OnlyAt(SaveOps(kv, c, fails, 0), 6, MqttUser)
  {
    var previous := PreviousNames(kv, fails, 0);
    ValidatedPlanIsComplete(previous, c);
    UserRemoval(c, c.mqtt.value);
    UserElsewhere(c, previous);
    var head := CoreOps(c) + MqttOps(c.mqtt.value);
    var rest := ExtraOps(c.extras, |c.extras|) + (StaleOps(previous, Names(c.extras)) + TailOps(c));
    OnlyAtPrefix(head, rest, 6, MqttUser);
    Regroup(CoreOps(c), GroupOps(c), ExtraOps(c.extras, |c.extras|), StaleOps(previous, Names(c.extras)) + TailOps(c));
  }

  lemma Regroup(a: seq<Op>, b: seq<Op>, c: seq<Op>, d: seq<Op>)
    ensures (a + (b + c)) + d == (a + b) + (c + d)
  {
  }

  lemma NotReached(ops: seq<Op>, fails: Faults, n: nat, i: nat, k: Key)
    requires OnlyAt(ops, i, k) && fails(n + i)
    ensures !Reached(ops, fails, n, k)
  {
  }

  lemma {:induction false} ExtraOpsAreExtras(extras: seq<Extra>, n: nat)
    requires n <= |extras|
    ensures forall j :: 0 <= j < n ==> ExtraOps(extras, n)[j].key.ExtraKey?
    decreases n
  {
    if n > 0 {
      ExtraOpsAreExtras(extras, n - 1);
    }
  }

  lemma {:induction false} StaleOpsAreExtras(previous: seq<string>, names: seq<string>)
    ensures forall j :: 0 <= j < |StaleOps(previous, names)| ==> StaleOps(previous, names)[j].key.ExtraKey?
  {
    if previous != [] {
      StaleOpsAreExtras(previous[..|previous| - 1], names);
    }
  }

  /** Which of the other optional fields could show through: none, their removals went through. */
  lemma OthersAreRemoved(kv: Kv, c: Config, fails: Faults, k: Key)
    requires Validated(c) && c.mqtt.Some? && c.mqtt.value.username.None? && OptionalKey(k) && k != MqttUser
    requires forall i :: fails(i) <==> i == 7
    ensures !KeepsOptional(kv, c, fails, 0, k)
  {
    var previous, ops := PreviousNames(kv, fails, 0), SaveOps(kv, c, fails, 0);
    CallSeven(kv, c, fails);
    ValidatedPlanIsComplete(previous, c);
    if ShowsThrough(kv, c, k) {
      StaleIsPlanned(kv, previous, c, k);
      var i :| 0 <= i < |ops| && ops[i].key == k;
      assert !fails(1 + i);
    }
  }

  lemma MixedIsHeld(kv: Kv, c: Config, user: string, mixed: Config)
    requires c.mqtt.Some? && c.mqtt.value.username.None? && Holds(kv, c) && At(kv, MqttUser) == Some(Str(user))
    requires mixed == c.(mqtt := Some(c.mqtt.value.(username := Some(user))))
    ensures Holds(kv, mixed)
    ensures ShowsThrough(kv, mixed, MqttPass) == ShowsThrough(kv, c, MqttPass)
    ensures ShowsThrough(kv, mixed, MqttClient) == ShowsThrough(kv, c, MqttClient)
    ensures !ShowsThrough(kv, mixed, MqttUser)
  {
    forall k: Key | !k.ExtraKey? && Field(mixed, k).Some? ensures At(kv, k) == Field(mixed, k) {
      if k != MqttUser {
        assert Field(mixed, k) == Field(c, k);
      }
    }
  }

  lemma SaveGoesThrough(kv: Kv, c: Config, fails: Faults)
    requires Validated(c) && OnlyAt(SaveOps(kv, c, fails, 0), 6, MqttUser)
    requires forall i :: fails(i) <==> i == 7
    ensures Saved(kv, c, fails, 0).ok
  {
    ValidatedPlanIsComplete(PreviousNames(kv, fails, 0), c);
    OneRemovalFails(kv, SaveOps(kv, c, fails, 0), fails, 1, 6);
  }

  lemma UserIsKept(kv: Kv, c: Config, fails: Faults)
    requires Validated(c) && c.mqtt.Some? && c.mqtt.value.username.None?
    requires forall i :: fails(i) <==> i == 7
    ensures Saved(kv, c, fails, 0).ok
    ensures At(Saved(kv, c, fails, 0).kv, MqttUser) == At(kv, MqttUser)
  {
    CallSeven(kv, c, fails);
    SaveGoesThrough(kv, c, fails);
    NotReached(SaveOps(kv, c, fails, 0), fails, 1, 6, MqttUser);
    assert !RemovedBySave(kv, c, fails, 0, MqttUser) && Wanted(c, MqttUser).None?;
    SaveStores(kv, c, fails, 0, MqttUser);
  }

  lemma OthersDoNotShow(kv: Kv, c: Config, fails: Faults)
    requires Validated(c) && c.mqtt.Some? && c.mqtt.value.username.None? && Saved(kv, c, fails, 0).ok
    requires forall i :: fails(i) <==> i == 7
    ensures var kv' := Saved(kv, c, fails, 0).kv;
            !ShowsThrough(kv', c, MqttPass) && !ShowsThrough(kv', c, MqttClient)
  {
    OthersAreRemoved(kv, c, fails, MqttPass);
    OthersAreRemoved(kv, c, fails, MqttClient);
    OptionalAfterSave(kv, c, fails, 0, MqttPass);
    OptionalAfterSave(kv, c, fails, 0, MqttClient);
  }

  lemma MixedIsValidated(c: Config, user: string, mixed: Config)
    requires Validated(c) && CommaFree(c) && c.mqtt.Some? && Fits(user, MqttUser)
    requires mixed == c.(mqtt := Some(c.mqtt.value.(username := Some(user))))
    ensures Validated(mixed) && CommaFree(mixed)
  {
  }

  /** The failing run: only the removal of the earlier user name fails. The save reports success, and
      the configuration that loads is `mixed`, which logs in with that name. */
  lemma FailedRemovalReadsBack(kv: Kv, c: Config, fails: Faults, user: string, mixed: Config)
    requires Validated(c) && CommaFree(c) && c.mqtt.Some? && c.mqtt.value.username.None?
    requires GetStr(kv, MqttUser) == Some(user) && Fits(user, MqttUser)
    requires mixed == c.(mqtt := Some(c.mqtt.value.(username := Some(user))))
    requires forall i :: fails(i) <==> i == 7
    ensures Saved(kv, c, fails, 0).ok
    ensures LoadFrom(Saved(kv, c, fails, 0).kv) == Ok(Some(mixed))
  {
    UserIsKept(kv, c, fails);
    var kv' := Saved(kv, c, fails, 0).kv;
    SaveEstablishesHolds(kv, c, fails, 0);
    MixedIsHeld(kv', c, user, mixed);
    OthersDoNotShow(kv, c, fails);
    MixedIsValidated(c, user, mixed);
    LoadExactly(kv', mixed);
  }

  /** A single failed removal does not stop the others. */
  lemma {:induction false} OneRemovalFails(kv: Kv, ops: seq<Op>, fails: Faults, n: nat, at: nat)
    requires forall i :: fails(i) <==> i == n + at
    requires at < |ops| ==> ops[at].value.None?
    ensures Perform(kv, ops, fails, n).ok && Perform(kv, ops, fails, n).calls == n + |ops|
    decreases |ops|
  {
    if ops != [] {
      OneRemovalFails(kv, ops[..|ops| - 1], fails, n, at);
    }
  }

  // ----- read errors and migration -----

  predicate FailedIn<T>(r: Result<T>, bad: Unreadable) { r.Err? && r.error.ReadFailed? && r.error.key in bad }

  /** A read error makes a load fail, and does nothing else: what loads despite unreadable keys is
      what loads without them. */
  lemma ReadErrorsOnlyFail(kv: Kv, bad: Unreadable)
    ensures LoadWith(kv, bad) == LoadFrom(kv) || FailedIn(LoadWith(kv, bad), bad)
  {
    IndexReadsOrFails(kv, bad);
    CoreReadsOrFails(kv, bad, WifiSsid);
    CoreReadsOrFails(kv, bad, WifiPass);
    CoreReadsOrFails(kv, bad, OtaUrl);
    CoreReadsOrFails(kv, bad, DevName);
    assert LoadProfile(kv, bad) == LoadProfile(kv, ALL_READABLE) || FailedIn(LoadProfile(kv, bad), bad);
    assert CheckProvisioned(kv, bad) == CheckProvisioned(kv, ALL_READABLE) || FailedIn(CheckProvisioned(kv, bad), bad);
    if LoadProfile(kv, bad).Ok? {
      GroupReadsOrFails(kv, bad, LoadProfile(kv, bad).value);
    }
  }

  lemma CoreReadsOrFails(kv: Kv, bad: Unreadable, k: Key)
    ensures ReadCapped(kv, bad, k) == ReadCapped(kv, ALL_READABLE, k) || FailedIn(ReadCapped(kv, bad, k), bad)
  {
  }

  lemma LoraReadsOrFails(kv: Kv, bad: Unreadable)
    ensures LoadLora(kv, bad) == LoadLora(kv, ALL_READABLE) || FailedIn(LoadLora(kv, bad), bad)
  {
  }

  lemma MqttReadsOrFails(kv: Kv, bad: Unreadable)
    ensures LoadMqtt(kv, bad) == LoadMqtt(kv, ALL_READABLE) || FailedIn(LoadMqtt(kv, bad), bad)
  {
  }

  lemma GroupReadsOrFails(kv: Kv, bad: Unreadable, p: SchemaProfile)
    ensures LoadGroup(kv, bad, p) == LoadGroup(kv, ALL_READABLE, p) || FailedIn(LoadGroup(kv, bad, p), bad)
  {
    LoraReadsOrFails(kv, bad);
    MqttReadsOrFails(kv, bad);
  }

  lemma IndexReadsOrFails(kv: Kv, bad: Unreadable)
    ensures IndexedExtras(kv, bad) == IndexedExtras(kv, ALL_READABLE) || FailedIn(IndexedExtras(kv, bad), bad)
  {
    var names := ExtraNames(kv);
    ExtrasReadOrFail(kv, bad, names, |names|);
  }

  lemma {:induction false} ExtrasReadOrFail(kv: Kv, bad: Unreadable, names: seq<string>, n: nat)
    requires n <= |names|
    ensures LoadExtras(kv, bad, names, n) == LoadExtras(kv, ALL_READABLE, names, n)
            || FailedIn(LoadExtras(kv, bad, names, n), bad)
    decreases n
  {
    if n > 0 {
      ExtrasReadOrFail(kv, bad, names, n - 1);
    }
  }

  /** A record of schema version 1 has no profile key; such a record always reads as LoRaWAN. */
  lemma RecordWithoutProfileIsLorawan(kv: Kv, bad: Unreadable)
    requires GetStr(kv, Profile).None? && LoadWith(kv, bad).Ok? && LoadWith(kv, bad).value.Some?
    ensures LoadWith(kv, bad).value.value.lora.Some? && LoadWith(kv, bad).value.value.mqtt.None?
  {
  }

  /** A LoRaWAN record keeps loading unchanged when read as version 1 wrote it. */
  lemma VersionOneRecordLoads(kv: Kv, c: Config)
    requires Validated(c) && c.lora.Some? && CommaFree(c) && Holds(kv, c)
    ensures LoadFrom((kv - {Profile})[SchemaVer := U8(1)]) == Ok(Some(c))
  {
    var kv1 := (kv - {Profile})[SchemaVer := U8(1)];
    VersionOneFields(kv, kv1, c);
    VersionOneExtras(kv, kv1, c);
  }

  lemma VersionOneFields(kv: Kv, kv1: Kv, c: Config)
    requires Validated(c) && c.lora.Some? && Holds(kv, c) && kv1 == (kv - {Profile})[SchemaVer := U8(1)]
    ensures CheckProvisioned(kv1, ALL_READABLE) == Ok(true)
    ensures LoadProfile(kv1, ALL_READABLE) == Ok(LorawanFieldDevice) && LoadLora(kv1, ALL_READABLE) == Ok(c.lora.value)
    ensures ReadCapped(kv1, ALL_READABLE, WifiSsid) == Ok(c.ssid)
            && ReadCapped(kv1, ALL_READABLE, WifiPass) == Ok(c.password)
    ensures ReadCapped(kv1, ALL_READABLE, OtaUrl) == Ok(c.otaUrl)
            && ReadCapped(kv1, ALL_READABLE, DevName) == Ok(c.deviceName)
  {
    assert forall k: Key :: k != Profile && k != SchemaVer ==> At(kv1, k) == At(kv, k);
    assert At(kv, WifiSsid) == Field(c, WifiSsid) && At(kv, WifiPass) == Field(c, WifiPass);
    assert At(kv, OtaUrl) == Field(c, OtaUrl) && At(kv, DevName) == Field(c, DevName);
    assert At(kv, DevEui) == Field(c, DevEui) && At(kv, JoinEui) == Field(c, JoinEui)
           && At(kv, AppKey) == Field(c, AppKey);
    CoreLoads(kv1, c);
    LoraLoads(kv1, c);
    assert GetStr(kv1, Profile).None? && GetU8(kv1, SchemaVer) == Some(1);
  }

  lemma VersionOneExtras(kv: Kv, kv1: Kv, c: Config)
    requires Validated(c) && CommaFree(c) && Holds(kv, c) && kv1 == (kv - {Profile})[SchemaVer := U8(1)]
    ensures IndexedExtras(kv1, ALL_READABLE) == Ok(c.extras)
  {
    assert At(kv1, ExtrasIdx) == At(kv, ExtrasIdx) == Field(c, ExtrasIdx);
    forall i | 0 <= i < |c.extras| ensures At(kv1, ExtraKey(c.extras[i].name)) == Some(Str(c.extras[i].value)) {
      assert At(kv1, ExtraKey(c.extras[i].name)) == At(kv, ExtraKey(c.extras[i].name));
    }
    CommaFreeExtrasLoad(kv1, c);
  }
}
