/** Key-value persistence of the provisioning configuration (`provisioning/kv_store.rs`). */
module KvStore {
  import opened Common
  import opened Text

  // ----- keys and values -----

  datatype Key =
    | SchemaVer | Profile | WifiSsid | WifiPass | DevEui | JoinEui | AppKey
    | MqttHost | MqttPort | MqttUser | MqttPass | MqttClient | OtaUrl | DevName | ExtrasIdx
    | ExtraKey(name: string)

  /** The key as stored. */
  function KeyName(k: Key): string {
    match k
    case SchemaVer => "schema_ver"
    case Profile => "profile"
    case WifiSsid => "wifi_ssid"
    case WifiPass => "wifi_pass"
    case DevEui => "lora_dev_eui"
    case JoinEui => "lora_join_eui"
    case AppKey => "lora_app_key"
    case MqttHost => "mqtt_host"
    case MqttPort => "mqtt_port"
    case MqttUser => "mqtt_user"
    case MqttPass => "mqtt_pass"
    case MqttClient => "mqtt_client"
    case OtaUrl => "ota_url"
    case DevName => "dev_name"
    case ExtrasIdx => "extras_idx"
    case ExtraKey(name) => "x_" + name
  }

  /** Stored keys never collide, whatever the extras are called, and a name within its cap keeps
      the stored key within the 15 bytes a key may have. */
  lemma KeyNamesDistinct(a: Key, b: Key)
    ensures KeyName(a) == KeyName(b) ==> a == b
    ensures |KeyName(a)| <= 15 <==> (a.ExtraKey? ==> |a.name| <= EXTRA_KEY_MAX_LEN)
  {
    var s, t := KeyName(a), KeyName(b);
    if s == t {
      if a.ExtraKey? && b.ExtraKey? {
        assert a.name == s[2..] == t[2..] == b.name;
      } else {
        assert s[0] == t[0] && s[5] == t[5] && s[6] == t[6];
      }
    }
  }

  datatype Value = U8(n: u8) | Str(s: string)

  type Kv = map<Key, Value>

  function At(kv: Kv, k: Key): Option<Value> { if k in kv then Some(kv[k]) else None }

  /** A typed read of a key stored with the other type reads as absent. */
  function GetU8(kv: Kv, k: Key): Option<u8> {
    match At(kv, k) case Some(U8(n)) => Some(n) case _ => None
  }

  function GetStr(kv: Kv, k: Key): Option<string> {
    match At(kv, k) case Some(Str(s)) => Some(s) case _ => None
  }

  // ----- the configuration -----

  const EXTRA_FIELDS_MAX := 8
  const EXTRA_KEY_MAX_LEN := 13
  const EXTRA_VALUE_MAX_LEN := 64
  const EXTRAS_IDX_MAX := 256
  const SCHEMA_VERSION: u8 := 2

  datatype Lora = Lora(devEui: string, joinEui: string, appKey: string)

  datatype Mqtt = Mqtt(host: string, port: u16, username: Option<string>, password: Option<string>,
          clientId: Option<string>)

  datatype Extra = Extra(name: string, value: string)

  datatype Config = Config(
    ssid: string,
    password: string,
    otaUrl: string,     // empty for "no OTA configured"
    deviceName: string,
    lora: Option<Lora>,
    mqtt: Option<Mqtt>,
    extras: seq<Extra>)

  datatype SchemaProfile = LorawanFieldDevice | WifiMqttDevice

  function ProfileOf(c: Config): SchemaProfile { if c.mqtt.Some? then WifiMqttDevice else LorawanFieldDevice }

  function ProfileName(p: SchemaProfile): string { if p.LorawanFieldDevice? then "lorawan" else "wifi_mqtt" }

  function ProfileFromName(s: string): Option<SchemaProfile> {
    if s == "lorawan" then Some(LorawanFieldDevice) else if s == "wifi_mqtt" then Some(WifiMqttDevice) else None
  }

  function Names(extras: seq<Extra>): (ns: seq<string>)
    ensures |ns| == |extras|
  {
    seq(|extras|, k requires 0 <= k < |extras| => extras[k].name)
  }

  function Capacity(k: Key): nat {
    match k
    case WifiSsid => 32
    case WifiPass => 64
    case OtaUrl => 128
    case DevName => 24
    case DevEui => 16
    case JoinEui => 16
    case AppKey => 32
    case MqttClient => 23
    case _ => 64
  }

  // ----- writing -----

  /** One backend call: `None` removes the key. */
  datatype Op = Op(key: Key, value: Option<Value>)

  function Apply(kv: Kv, op: Op): Kv {
    if op.value.Some? then kv[op.key := op.value.value] else kv - {op.key}
  }

  function ApplyAll(kv: Kv, ops: seq<Op>): Kv {
    if ops == [] then kv else Apply(ApplyAll(kv, ops[..|ops| - 1]), ops[|ops| - 1])
  }

  /** Which backend calls fail. */
  type Faults = nat -> bool

  datatype Outcome = Outcome(kv: Kv, calls: nat, ok: bool)

  /** Carrying out `ops` from call number `n`: a failed write ends it, a failed removal is skipped. */
  function Perform(kv: Kv, ops: seq<Op>, fails: Faults, n: nat): Outcome
    decreases |ops|
  {
    if ops == [] then Outcome(kv, n, true)
    else
      var before := Perform(kv, ops[..|ops| - 1], fails, n);
      var op := ops[|ops| - 1];
      if !before.ok then before
      else if !fails(before.calls) then Outcome(Apply(before.kv, op), before.calls + 1, true)
      else Outcome(before.kv, before.calls + 1, op.value.None?)
  }

  function Set(k: Key, s: string): Op { Op(k, Some(Str(s))) }
  function Remove(k: Key): Op { Op(k, None) }
  function SetOrRemove(k: Key, s: Option<string>): Op { if s.Some? then Set(k, s.value) else Remove(k) }

  function CoreOps(c: Config): seq<Op> {
    [Set(WifiSsid, c.ssid), Set(WifiPass, c.password), Set(OtaUrl, c.otaUrl), Set(DevName, c.deviceName)]
  }

  function LoraOps(l: Lora): seq<Op> {
    [Set(DevEui, l.devEui), Set(JoinEui, l.joinEui), Set(AppKey, l.appKey),
     Remove(MqttHost), Remove(MqttPort), Remove(MqttUser), Remove(MqttPass), Remove(MqttClient)]
  }

  function MqttOps(m: Mqtt): seq<Op> {
    [Set(MqttHost, m.host), Set(MqttPort, ToDecimal(m.port)),
     SetOrRemove(MqttUser, m.username), SetOrRemove(MqttPass, m.password), SetOrRemove(MqttClient, m.clientId),
     Remove(DevEui), Remove(JoinEui), Remove(AppKey)]
  }

  function GroupOps(c: Config): seq<Op>
    requires c.mqtt.Some? || c.lora.Some?
  {
    if c.mqtt.Some? then MqttOps(c.mqtt.value) else LoraOps(c.lora.value)
  }

  /** The writes of the first `n` extras. */
  function ExtraOps(extras: seq<Extra>, n: nat): (ops: seq<Op>)
    requires n <= |extras|
    ensures |ops| == n
  {
    if n == 0 then [] else ExtraOps(extras, n - 1) + [Set(ExtraKey(extras[n - 1].name), extras[n - 1].value)]
  }

  /** The index of the first `n` extras, as it is built up. */
  function IndexUpTo(extras: seq<Extra>, n: nat): string
    requires n <= |extras|
  {
    if n == 0 then ""
    else (if n > 1 then IndexUpTo(extras, n - 1) + "," else "") + extras[n - 1].name
  }

  /** Removals of the extras that the new configuration no longer names. */
  function StaleOps(previous: seq<string>, names: seq<string>): seq<Op> {
    if previous == [] then []
    else
      var last := previous[|previous| - 1];
      StaleOps(previous[..|previous| - 1], names) + (if last in names then [] else [Remove(ExtraKey(last))])
  }

  function IndexOf(c: Config): string { IndexUpTo(c.extras, |c.extras|) }

  function TailOps(c: Config): seq<Op> {
    [Set(ExtrasIdx, IndexOf(c)), Set(Profile, ProfileName(ProfileOf(c))), Op(SchemaVer, Some(U8(SCHEMA_VERSION)))]
  }

  /** The names in the stored index. */
  function ExtraNames(kv: Kv): seq<string> {
    match GetStr(kv, ExtrasIdx)
    case Some(idx) => if idx != "" then Split(idx, ',') else []
    case None => []
  }

  function ValueOps(c: Config): seq<Op>
    requires c.mqtt.Some? || c.lora.Some?
  {
    CoreOps(c) + (GroupOps(c) + ExtraOps(c.extras, |c.extras|))
  }

  /** What a save sends to the backend, and whether it then succeeds: it gives up after the common
      fields if the field group is missing, and after the extras if their index is too long. */
  datatype Plan = Plan(ops: seq<Op>, complete: bool)

  function SavePlan(previous: seq<string>, c: Config): Plan {
    if c.mqtt.None? && c.lora.None? then Plan(CoreOps(c), false)
    else if |IndexOf(c)| > EXTRAS_IDX_MAX then Plan(ValueOps(c), false)
    else Plan(ValueOps(c) + (StaleOps(previous, Names(c.extras)) + TailOps(c)), true)
  }

  /** The indexed names as call number `n`; an index that cannot be read counts as empty. */
  function PreviousNames(kv: Kv, fails: Faults, n: nat): seq<string> {
    if fails(n) then [] else ExtraNames(kv)
  }

  /** A whole save from call number `n`: the index is read first. */
  function Saved(kv: Kv, c: Config, fails: Faults, n: nat): Outcome {
    var plan := SavePlan(PreviousNames(kv, fails, n), c);
    var o := Perform(kv, plan.ops, fails, n + 1);
    Outcome(o.kv, o.calls, plan.complete && o.ok)
  }

  const CANONICAL_KEYS: seq<Key> :=
    [Profile, WifiSsid, WifiPass, DevEui, JoinEui, AppKey, MqttHost, MqttPort, MqttUser, MqttPass, MqttClient,
      OtaUrl, DevName]

  function Removals(keys: seq<Key>): seq<Op> {
    if keys == [] then [] else Removals(keys[..|keys| - 1]) + [Remove(keys[|keys| - 1])]
  }

  function ExtraKeys(names: seq<string>): (keys: seq<Key>)
    ensures |keys| == |names|
  {
    seq(|names|, k requires 0 <= k < |names| => ExtraKey(names[k]))
  }

  function ErasedKeys(names: seq<string>): seq<Key> {
    ExtraKeys(names) + [ExtrasIdx] + CANONICAL_KEYS
  }

  /** A whole erase from call number `n`: the guard goes first, then the index is read. */
  function Erased(kv: Kv, fails: Faults, n: nat): Outcome {
    var o := Perform(kv, [Remove(SchemaVer)], fails, n);
    Perform(o.kv, Removals(ErasedKeys(PreviousNames(o.kv, fails, o.calls))), fails, o.calls + 1)
  }

  // ----- reading -----

  datatype LoadError =
    | ReadFailed(key: Key)
    | UnknownProfile
    | MissingPort
    | BadPort
    | OverCap(key: Key)
    | TooManyExtras

  datatype Result<+T> = Ok(value: T) | Err(error: LoadError) {
    predicate IsFailure() { Err? }
    function PropagateFailure<U>(): Result<U>
      requires Err?
    {
      Err(error)
    }
    function Extract(): T
      requires Ok?
    {
      value
    }
  }

  /** The keys the backend fails to read. */
  type Unreadable = iset<Key>

  predicate IsProvisioned(kv: Kv) { GetU8(kv, SchemaVer).Some? && GetStr(kv, WifiSsid).Some? }

  function ReadStr(kv: Kv, bad: Unreadable, k: Key): Result<Option<string>> {
    if k in bad then Err(ReadFailed(k)) else Ok(GetStr(kv, k))
  }

  /** `is_provisioned` with its read errors: the SSID is read only if the guard is there. */
  function CheckProvisioned(kv: Kv, bad: Unreadable): (r: Result<bool>)
    ensures r.Ok? ==> r.value == IsProvisioned(kv)
  {
    if SchemaVer in bad then Err(ReadFailed(SchemaVer))
    else if GetU8(kv, SchemaVer).None? then Ok(false)
    else var ssid :- ReadStr(kv, bad, WifiSsid); Ok(ssid.Some?)
  }

  function Capped(k: Key, s: string, cap: nat): Result<string> {
    if |s| <= cap then Ok(s) else Err(OverCap(k))
  }

  function ReadCapped(kv: Kv, bad: Unreadable, k: Key): Result<string> {
    var s :- ReadStr(kv, bad, k);
    Capped(k, if s.Some? then s.value else "", Capacity(k))
  }

  function ReadCappedOpt(kv: Kv, bad: Unreadable, k: Key): Result<Option<string>> {
    var s :- ReadStr(kv, bad, k);
    if s.None? then Ok(None) else var v :- Capped(k, s.value, Capacity(k)); Ok(Some(v))
  }

  function ReadNames(kv: Kv, bad: Unreadable): Result<seq<string>> {
    if ExtrasIdx in bad then Err(ReadFailed(ExtrasIdx)) else Ok(ExtraNames(kv))
  }

  function LoadExtra(name: string, value: string): Result<Extra> {
    var n :- Capped(ExtrasIdx, name, EXTRA_KEY_MAX_LEN);
    var v :- Capped(ExtraKey(name), value, EXTRA_VALUE_MAX_LEN);
    Ok(Extra(n, v))
  }

  /** The extras stored under the first `n` names; a name without a value is skipped. */
  function LoadExtras(kv: Kv, bad: Unreadable, names: seq<string>, n: nat): Result<seq<Extra>>
    requires n <= |names|
  {
    if n == 0 then Ok([])
    else
      var before :- LoadExtras(kv, bad, names, n - 1);
      var value :- ReadStr(kv, bad, ExtraKey(names[n - 1]));
      if value.None? then Ok(before) else var e :- LoadExtra(names[n - 1], value.value); Ok(before + [e])
  }

  function LoadLora(kv: Kv, bad: Unreadable): Result<Lora> {
    var devEui :- ReadCapped(kv, bad, DevEui);
    var joinEui :- ReadCapped(kv, bad, JoinEui);
    var appKey :- ReadCapped(kv, bad, AppKey);
    Ok(Lora(devEui, joinEui, appKey))
  }

  function LoadPort(kv: Kv, bad: Unreadable): Result<u16> {
    var portStr :- ReadStr(kv, bad, MqttPort);
    match portStr
    case None => Err(MissingPort)
    case Some(s) => (match ParseU16(s) case None => Err(BadPort) case Some(port) => Ok(port))
  }

  function LoadMqtt(kv: Kv, bad: Unreadable): Result<Mqtt> {
    var host :- ReadCapped(kv, bad, MqttHost);
    var port :- LoadPort(kv, bad);
    var username :- ReadCappedOpt(kv, bad, MqttUser);
    var password :- ReadCappedOpt(kv, bad, MqttPass);
    var clientId :- ReadCappedOpt(kv, bad, MqttClient);
    Ok(Mqtt(host, port, username, password, clientId))
  }

  function LoadProfile(kv: Kv, bad: Unreadable): Result<SchemaProfile> {
    var stored :- ReadStr(kv, bad, Profile);
    match stored
    case None => Ok(LorawanFieldDevice)
    case Some(s) => (match ProfileFromName(s) case Some(p) => Ok(p) case None => Err(UnknownProfile))
  }

  /** The field group of the profile. */
  function LoadGroup(kv: Kv, bad: Unreadable, p: SchemaProfile): Result<(Option<Lora>, Option<Mqtt>)> {
    match p
    case LorawanFieldDevice => var lora :- LoadLora(kv, bad); Ok((Some(lora), None))
    case WifiMqttDevice => var mqtt :- LoadMqtt(kv, bad); Ok((None, Some(mqtt)))
  }

  /** The extras the index leads to. */
  function IndexedExtras(kv: Kv, bad: Unreadable): Result<seq<Extra>> {
    var names :- ReadNames(kv, bad);
    var extras :- LoadExtras(kv, bad, names, |names|);
    if |extras| > EXTRA_FIELDS_MAX then Err(TooManyExtras) else Ok(extras)
  }

  /** `None` if the device is not provisioned. */
  function LoadWith(kv: Kv, bad: Unreadable): Result<Option<Config>> {
    var provisioned :- CheckProvisioned(kv, bad);
    if !provisioned then Ok(None)
    else
      var profile :- LoadProfile(kv, bad);
      var ssid :- ReadCapped(kv, bad, WifiSsid);
      var password :- ReadCapped(kv, bad, WifiPass);
      var otaUrl :- ReadCapped(kv, bad, OtaUrl);
      var deviceName :- ReadCapped(kv, bad, DevName);
      var group :- LoadGroup(kv, bad, profile);
      var extras :- IndexedExtras(kv, bad);
      Ok(Some(Config(ssid, password, otaUrl, deviceName, group.0, group.1, extras)))
  }

  const ALL_READABLE: Unreadable := iset{}

  function LoadFrom(kv: Kv): Result<Option<Config>> { LoadWith(kv, ALL_READABLE) }

  lemma {:induction false} PerformAppend(kv: Kv, a: seq<Op>, b: seq<Op>, fails: Faults, n: nat)
    ensures var o := Perform(kv, a, fails, n);
            Perform(kv, a + b, fails, n) == if o.ok then Perform(o.kv, b, fails, o.calls) else o
    decreases |b|
  {
    if b == [] {
      assert a + b == a;
    } else {
      PerformAppend(kv, a, b[..|b| - 1], fails, n);
      assert (a + b)[..|a + b| - 1] == a + b[..|b| - 1];
    }
  }

  lemma FailedPrefix(kv: Kv, done: seq<Op>, all: seq<Op>, fails: Faults, n: nat)
    requires done <= all && !Perform(kv, done, fails, n).ok
    ensures Perform(kv, all, fails, n) == Perform(kv, done, fails, n)
  {
    PerformAppend(kv, done, all[|done|..], fails, n);
    assert done + all[|done|..] == all;
  }

  lemma {:induction false} ExtraOpsPrefix(extras: seq<Extra>, k: nat, n: nat)
    requires k <= n <= |extras|
    ensures ExtraOps(extras, k) <= ExtraOps(extras, n)
    decreases n
  {
    if k < n {
      ExtraOpsPrefix(extras, k, n - 1);
    }
  }

  // ----- the store -----

  class KvProvisioningStore {
    var kv: Kv
    var calls: nat
    const fails: Faults

    constructor (kv: Kv, fails: Faults)
      ensures this.kv == kv && this.fails == fails && calls == 0
    {
      this.kv, this.fails, calls := kv, fails, 0;
    }

    /** One write or removal; `false` is a backend error. */
    method Call(op: Op) returns (ok: bool)
      modifies this
      ensures ok == !fails(old(calls)) && calls == old(calls) + 1
      ensures kv == if ok then Apply(old(kv), op) else old(kv)
    {
      ok := !fails(calls);
      calls := calls + 1;
      if ok {
        match op.value {
          case Some(v) => kv := kv[op.key := v];
          case None => kv := kv - {op.key};
        }
      }
    }

    /** Sends `op` as the next step after `done`; a failed removal counts as done. */
    method Send(op: Op, ghost start: Outcome, ghost done: seq<Op>) returns (ok: bool, ghost done': seq<Op>)
      requires start.ok && Outcome(kv, calls, true) == Perform(start.kv, done, fails, start.calls)
      modifies this
      ensures done' == done + [op]
      ensures Outcome(kv, calls, ok) == Perform(start.kv, done', fails, start.calls)
      ensures op.value.None? ==> ok
    {
      done' := done + [op];
      assert done'[..|done|] == done;
      var success := Call(op);
      ok := success || op.value.None?;
    }

    method SendAll(ops: seq<Op>) returns (ok: bool)
      modifies this
      ensures Outcome(kv, calls, ok) == Perform(old(kv), ops, fails, old(calls))
    {
      ghost var start, done := Outcome(kv, calls, true), [];
      var i := 0;
      while i < |ops|
        invariant 0 <= i <= |ops| && done == ops[..i]
        invariant Outcome(kv, calls, true) == Perform(start.kv, done, fails, start.calls)
      {
        ok, done := Send(ops[i], start, done);
        assert done == ops[..i + 1];
        if !ok {
          FailedPrefix(start.kv, done, ops, fails, start.calls);
          return;
        }
        i := i + 1;
      }
      assert ops[..i] == ops;
      ok := true;
    }

    method WriteProfileGroup(c: Config) returns (ok: bool)
      modifies this
      ensures if c.mqtt.Some? || c.lora.Some?
              then Outcome(kv, calls, ok) == Perform(old(kv), GroupOps(c), fails, old(calls))
              else !ok && kv == old(kv) && calls == old(calls)
    {
      match (c.mqtt, c.lora) {
        case (Some(m), _) => ok := SendAll(MqttOps(m));
        case (None, Some(l)) => ok := SendAll(LoraOps(l));
        case (None, None) => ok := false;
      }
    }

    /** Writes every extra and builds the comma-joined index on the way. */
    method WriteExtras(extras: seq<Extra>) returns (ok: bool, index: string)
      modifies this
      ensures Outcome(kv, calls, ok) == Perform(old(kv), ExtraOps(extras, |extras|), fails, old(calls))
      ensures ok ==> index == IndexUpTo(extras, |extras|)
    {
      ghost var start, done := Outcome(kv, calls, true), [];
      var i := 0;
      index := "";
      ok := true;
      while i < |extras|
        invariant 0 <= i <= |extras| && done == ExtraOps(extras, i)
        invariant Outcome(kv, calls, true) == Perform(start.kv, done, fails, start.calls)
        invariant index == IndexUpTo(extras, i) && ok
      {
        if i > 0 {
          index := index + ",";
        }
        index := index + extras[i].name;
        ok, done := Send(Set(ExtraKey(extras[i].name), extras[i].value), start, done);
        i := i + 1;
        if !ok {
          ExtraOpsPrefix(extras, i, |extras|);
          FailedPrefix(start.kv, done, ExtraOps(extras, |extras|), fails, start.calls);
          return;
        }
      }
    }

    /** Removes the extras that are no longer named, best effort. */
    method RemoveStale(previous: seq<string>, names: seq<string>)
      modifies this
      ensures Outcome(kv, calls, true) == Perform(old(kv), StaleOps(previous, names), fails, old(calls))
    {
      ghost var start, done := Outcome(kv, calls, true), [];
      var i := 0;
      while i < |previous|
        invariant 0 <= i <= |previous| && done == StaleOps(previous[..i], names)
        invariant Outcome(kv, calls, true) == Perform(start.kv, done, fails, start.calls)
      {
        assert previous[..i + 1][..i] == previous[..i];
        if previous[i] !in names {
          var ok;
          ok, done := Send(Remove(ExtraKey(previous[i])), start, done);
        }
        i := i + 1;
      }
      assert previous[..i] == previous;
    }

    /** Everything up to the extras and their index; gives up if the field group is missing. */
    method WriteValues(c: Config) returns (ok: bool, index: string)
      modifies this
      ensures var ops := if c.mqtt.Some? || c.lora.Some? then ValueOps(c) else CoreOps(c);
              var o := Perform(old(kv), ops, fails, old(calls));
              kv == o.kv && calls == o.calls && (ok <==> o.ok && (c.mqtt.Some? || c.lora.Some?))
      ensures ok ==> index == IndexOf(c)
    {
      ghost var kv0, n0 := kv, calls;
      index := "";
      ok := SendAll(CoreOps(c));
      if c.mqtt.None? && c.lora.None? {
        if ok {
          ok := WriteProfileGroup(c);
        }
        return;
      }
      PerformAppend(kv0, CoreOps(c), GroupOps(c) + ExtraOps(c.extras, |c.extras|), fails, n0);
      if !ok {
        return;
      }
      ghost var kv1, n1 := kv, calls;
      ok := WriteProfileGroup(c);
      PerformAppend(kv1, GroupOps(c), ExtraOps(c.extras, |c.extras|), fails, n1);
      if !ok {
        return;
      }
      ok, index := WriteExtras(c.extras);
    }

    /** Reads the index; one that cannot be read counts as empty. */
    method ReadPrevious() returns (names: seq<string>)
      modifies this`calls
      ensures names == PreviousNames(kv, fails, old(calls)) && calls == old(calls) + 1
    {
      names := if fails(calls) then [] else ExtraNames(kv);
      calls := calls + 1;
    }

    /** One commit: values, then the extras and their index, then the profile, the guard last. */
    method Save(c: Config) returns (ok: bool)
      modifies this
      ensures Outcome(kv, calls, ok) == Saved(old(kv), c, fails, old(calls))
    {
      // Read before anything is overwritten.
      var previous := ReadPrevious();
      ghost var kv0, n0 := kv, calls;
      var index;
      ok, index := WriteValues(c);
      ghost var stale := StaleOps(previous, Names(c.extras));
      if c.mqtt.Some? || c.lora.Some? {
        PerformAppend(kv0, ValueOps(c), stale + TailOps(c), fails, n0);
      }
      if !ok {
        return;
      }
      if |index| > EXTRAS_IDX_MAX {
        return false;
      }
      ghost var kv1, n1 := kv, calls;
      RemoveStale(previous, Names(c.extras));
      PerformAppend(kv1, stale, TailOps(c), fails, n1);
      ok := SendAll(TailOps(c));
    }

    /** Removes `keys` in order, each best effort. */
    method RemoveAll(keys: seq<Key>)
      modifies this
      ensures Outcome(kv, calls, true) == Perform(old(kv), Removals(keys), fails, old(calls))
    {
      ghost var start, done := Outcome(kv, calls, true), [];
      var i := 0;
      while i < |keys|
        invariant 0 <= i <= |keys| && done == Removals(keys[..i])
        invariant Outcome(kv, calls, true) == Perform(start.kv, done, fails, start.calls)
      {
        assert keys[..i + 1][..i] == keys[..i];
        var ok;
        ok, done := Send(Remove(keys[i]), start, done);
        i := i + 1;
      }
      assert keys[..i] == keys;
    }

    /** Removes every key of the store, the guard first; each removal is best effort. */
    method EraseAll()
      modifies this
      ensures Outcome(kv, calls, true) == Erased(old(kv), fails, old(calls))
    {
      ghost var start := Outcome(kv, calls, true);
      ghost var done: seq<Op> := [];
      var ok;
      ok, done := Send(Remove(SchemaVer), start, done);
      var names := ReadPrevious();
      RemoveAll(ErasedKeys(names));
    }

    /** Collects the indexed extras that have a value. */
    method ReadExtras(bad: Unreadable, names: seq<string>) returns (r: Result<seq<Extra>>)
      ensures r == LoadExtras(kv, bad, names, |names|)
    {
      var extras, i := [], 0;
      while i < |names|
        invariant 0 <= i <= |names| && LoadExtras(kv, bad, names, i) == Ok(extras)
      {
        var value := ReadStr(kv, bad, ExtraKey(names[i]));
        if value.Err? {
          FirstErrorWins(kv, bad, names, i + 1, |names|);
          return Err(value.error);
        }
        if value.value.Some? {
          var e := LoadExtra(names[i], value.value.value);
          if e.Err? {
            FirstErrorWins(kv, bad, names, i + 1, |names|);
            return Err(e.error);
          }
          extras := extras + [e.value];
        }
        i := i + 1;
      }
      return Ok(extras);
    }

    /** The stored configuration, `None` if the device is not provisioned; reading `bad` keys fails. */
    method Load(bad: Unreadable) returns (r: Result<Option<Config>>)
      ensures r == LoadWith(kv, bad)
    {
      var provisioned :- CheckProvisioned(kv, bad);
      if !provisioned {
        return Ok(None);
      }
      var profile :- LoadProfile(kv, bad);
      var ssid :- ReadCapped(kv, bad, WifiSsid);
      var password :- ReadCapped(kv, bad, WifiPass);
      var otaUrl :- ReadCapped(kv, bad, OtaUrl);
      var deviceName :- ReadCapped(kv, bad, DevName);
      var lora, mqtt := None, None;
      match profile {
        case LorawanFieldDevice =>
          var fields :- LoadLora(kv, bad);
          lora := Some(fields);
        case WifiMqttDevice =>
          var fields :- LoadMqtt(kv, bad);
          mqtt := Some(fields);
      }
      var names :- ReadNames(kv, bad);
      var extras :- ReadExtras(bad, names);
      if |extras| > EXTRA_FIELDS_MAX {
        return Err(TooManyExtras);
      }
      return Ok(Some(Config(ssid, password, otaUrl, deviceName, lora, mqtt, extras)));
    }
  }

  lemma {:induction false} FirstErrorWins(kv: Kv, bad: Unreadable, names: seq<string>, k: nat, n: nat)
    requires k <= n <= |names| && LoadExtras(kv, bad, names, k).Err?
    ensures LoadExtras(kv, bad, names, n) == LoadExtras(kv, bad, names, k)
    decreases n
  {
    if k < n {
      FirstErrorWins(kv, bad, names, k, n - 1);
    }
  }
}
