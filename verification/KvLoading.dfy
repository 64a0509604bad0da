/** What a load returns, for every contents of the store and every set of keys that cannot be read. */
module KvLoading {
  import opened Common
  import opened Text
  import opened KvStore

  /** The documented caps in bytes: what a longer stored value is refused for. */
  function Limit(k: Key): Option<nat> {
    match k
    case WifiSsid => Some(32)
    case WifiPass => Some(64)
    case OtaUrl => Some(128)
    case DevName => Some(24)
    case DevEui => Some(16)
    case JoinEui => Some(16)
    case AppKey => Some(32)
    case MqttHost => Some(64)
    case MqttUser => Some(64)
    case MqttPass => Some(64)
    case MqttClient => Some(23)
    case ExtraKey(_) => Some(64)
    case _ => None
  }

  predicate TooLong(kv: Kv, k: Key) {
    Limit(k).Some? && GetStr(kv, k).Some? && |GetStr(kv, k).value| > Limit(k).value
  }

  /** What is wrong with one key, whatever the others hold. */
  function Trouble(kv: Kv, bad: Unreadable, k: Key): Option<LoadError> {
    var stored := GetStr(kv, k);
    if k in bad then Some(ReadFailed(k))
    else if k.Profile? && stored.Some? && stored.value != "lorawan" && stored.value != "wifi_mqtt" then
      Some(UnknownProfile)
    else if k.MqttPort? && stored.None? then Some(MissingPort)
    else if k.MqttPort? && ParseU16(stored.value).None? then Some(BadPort)
    else if k.ExtraKey? && stored.Some? && |k.name| > 13 then Some(OverCap(ExtrasIdx))
    else if TooLong(kv, k) then Some(OverCap(k))
    else None
  }

  predicate IsMqtt(kv: Kv) { GetStr(kv, Profile) == Some("wifi_mqtt") }

  /** The keys of a provisioned record in the order in which they are read. */
  function FieldKeys(kv: Kv): seq<Key> {
    if IsMqtt(kv) then
      [Profile, WifiSsid, WifiPass, OtaUrl, DevName, MqttHost, MqttPort, MqttUser, MqttPass, MqttClient, ExtrasIdx]
    else [Profile, WifiSsid, WifiPass, OtaUrl, DevName, DevEui, JoinEui, AppKey, ExtrasIdx]
  }

  function ReadingOrder(kv: Kv): seq<Key> { FieldKeys(kv) + ExtraKeys(ExtraNames(kv)) }

  predicate Clean(kv: Kv, bad: Unreadable, keys: seq<Key>) {
    forall j :: 0 <= j < |keys| ==> Trouble(kv, bad, keys[j]).None?
  }

  /** The first key with trouble is at `i`. */
  predicate FirstAt(kv: Kv, bad: Unreadable, keys: seq<Key>, i: nat) {
    i < |keys| && Trouble(kv, bad, keys[i]).Some? && Clean(kv, bad, keys[..i])
  }

  /** A provisioned record that can be seen to be one. */
  predicate Present(kv: Kv, bad: Unreadable) {
    && SchemaVer !in bad && GetU8(kv, SchemaVer).Some?
    && WifiSsid !in bad && GetStr(kv, WifiSsid).Some?
  }

  /** A load finds nothing exactly if the guard, or with the guard in place the SSID, is absent, and
      fails before it looks at the record exactly if the one of the two it reads is unreadable. */
  lemma FindsNothingExactly(kv: Kv, bad: Unreadable)
    ensures var r := LoadWith(kv, bad);
            var guarded := SchemaVer !in bad && GetU8(kv, SchemaVer).Some?;
            && (r == Ok(None) <==>
                  || (SchemaVer !in bad && GetU8(kv, SchemaVer).None?)
                  || (guarded && WifiSsid !in bad && GetStr(kv, WifiSsid).None?))
            && (SchemaVer in bad ==> r == Err(ReadFailed(SchemaVer)))
            && (guarded && WifiSsid in bad ==> r == Err(ReadFailed(WifiSsid)))
  {
  }

  // ----- one key -----

  function StoredText(kv: Kv, k: Key): string {
    if GetStr(kv, k).Some? then GetStr(kv, k).value else ""
  }

  lemma CappedReads(kv: Kv, bad: Unreadable, k: Key)
    requires Limit(k).Some? && !k.ExtraKey?
    ensures ReadCapped(kv, bad, k)
            == var t := Trouble(kv, bad, k); if t.Some? then Err(t.value) else Ok(StoredText(kv, k))
    ensures ReadCappedOpt(kv, bad, k)
            == var t := Trouble(kv, bad, k); if t.Some? then Err(t.value) else Ok(GetStr(kv, k))
  {
  }

  /** The LoRaWAN group by its three keys. */
  lemma LoraOutcome(kv: Kv, bad: Unreadable)
    ensures var r := LoadLora(kv, bad);
            var d, j, a := Trouble(kv, bad, DevEui), Trouble(kv, bad, JoinEui), Trouble(kv, bad, AppKey);
            r == if d.Some? then Err(d.value) else if j.Some? then Err(j.value) else if a.Some? then Err(a.value)
                 else Ok(Lora(StoredText(kv, DevEui), StoredText(kv, JoinEui), StoredText(kv, AppKey)))
  {
    CappedReads(kv, bad, DevEui);
    CappedReads(kv, bad, JoinEui);
    CappedReads(kv, bad, AppKey);
  }

  lemma PortOutcome(kv: Kv, bad: Unreadable)
    ensures var t := Trouble(kv, bad, MqttPort);
            LoadPort(kv, bad) == if t.Some? then Err(t.value) else Ok(ParseU16(StoredText(kv, MqttPort)).value)
  {
  }

  /** The MQTT group by its five keys. */
  lemma MqttOutcome(kv: Kv, bad: Unreadable)
    ensures var r := LoadMqtt(kv, bad);
            var h, p, u := Trouble(kv, bad, MqttHost), Trouble(kv, bad, MqttPort), Trouble(kv, bad, MqttUser);
            var w, c := Trouble(kv, bad, MqttPass), Trouble(kv, bad, MqttClient);
            r == if h.Some? then Err(h.value) else if p.Some? then Err(p.value) else if u.Some? then Err(u.value)
                 else if w.Some? then Err(w.value) else if c.Some? then Err(c.value)
                 else Ok(Mqtt(StoredText(kv, MqttHost), ParseU16(StoredText(kv, MqttPort)).value, GetStr(kv, MqttUser),
                              GetStr(kv, MqttPass), GetStr(kv, MqttClient)))
  {
    CappedReads(kv, bad, MqttHost);
    PortOutcome(kv, bad);
    CappedReads(kv, bad, MqttUser);
    CappedReads(kv, bad, MqttPass);
    CappedReads(kv, bad, MqttClient);
  }

  lemma ProfileOutcome(kv: Kv, bad: Unreadable)
    ensures var t := Trouble(kv, bad, Profile);
            LoadProfile(kv, bad)
            == if t.Some? then Err(t.value) else Ok(if IsMqtt(kv) then WifiMqttDevice else LorawanFieldDevice)
  {
  }

  lemma FieldOutcomes(kv: Kv, bad: Unreadable)
    requires Present(kv, bad)
    ensures forall k :: k in [WifiSsid, WifiPass, OtaUrl, DevName] ==>
              ReadCapped(kv, bad, k)
              == var t := Trouble(kv, bad, k); if t.Some? then Err(t.value) else Ok(StoredText(kv, k))
  {
    forall k | k in [WifiSsid, WifiPass, OtaUrl, DevName]
      ensures ReadCapped(kv, bad, k)
              == var t := Trouble(kv, bad, k); if t.Some? then Err(t.value) else Ok(StoredText(kv, k))
    {
      CappedReads(kv, bad, k);
    }
  }

  // ----- the extras -----

  /** The extras that the first `n` indexed names lead to: a name without a value is skipped. */
  function Kept(kv: Kv, names: seq<string>, n: nat): seq<Extra>
    requires n <= |names|
  {
    if n == 0 then []
    else
      var value := GetStr(kv, ExtraKey(names[n - 1]));
      Kept(kv, names, n - 1) + (if value.Some? then [Extra(names[n - 1], value.value)] else [])
  }

  lemma ExtraOutcome(kv: Kv, bad: Unreadable, name: string)
    ensures var t := Trouble(kv, bad, ExtraKey(name));
            var value := ReadStr(kv, bad, ExtraKey(name));
            if value.Err? then t == Some(value.error)
            else if value.value.None? then t.None?
            else LoadExtra(name, value.value.value)
                 == if t.Some? then Err(t.value) else Ok(Extra(name, value.value.value))
  {
  }

  lemma {:induction false} CleanExtrasLoad(kv: Kv, bad: Unreadable, names: seq<string>, n: nat)
    requires n <= |names| && Clean(kv, bad, ExtraKeys(names)[..n])
    ensures LoadExtras(kv, bad, names, n) == Ok(Kept(kv, names, n))
  {
    if n > 0 {
      assert ExtraKeys(names)[..n][..n - 1] == ExtraKeys(names)[..n - 1];
      assert ExtraKeys(names)[..n][n - 1] == ExtraKey(names[n - 1]);
      assert Trouble(kv, bad, ExtraKey(names[n - 1])).None?;
      ExtraOutcome(kv, bad, names[n - 1]);
      CleanExtrasLoad(kv, bad, names, n - 1);
      assert Kept(kv, names, n - 1) + [] == Kept(kv, names, n - 1);
    }
  }

  lemma ExtraFails(kv: Kv, bad: Unreadable, names: seq<string>, i: nat)
    requires FirstAt(kv, bad, ExtraKeys(names), i)
    ensures LoadExtras(kv, bad, names, |names|) == Err(Trouble(kv, bad, ExtraKey(names[i])).value)
  {
    CleanExtrasLoad(kv, bad, names, i);
    ExtraOutcome(kv, bad, names[i]);
    FirstErrorWins(kv, bad, names, i + 1, |names|);
  }

  // ----- the whole record -----

  /** The configuration that the stored strings spell. */
  function Spelled(kv: Kv): Config
    requires IsMqtt(kv) ==> ParseU16(StoredText(kv, MqttPort)).Some?
  {
    Config(
      StoredText(kv, WifiSsid), StoredText(kv, WifiPass), StoredText(kv, OtaUrl), StoredText(kv, DevName),
      if IsMqtt(kv) then None else Some(Lora(StoredText(kv, DevEui), StoredText(kv, JoinEui), StoredText(kv, AppKey))),
      if IsMqtt(kv) then
        Some(Mqtt(StoredText(kv, MqttHost), ParseU16(StoredText(kv, MqttPort)).value, GetStr(kv, MqttUser),
                  GetStr(kv, MqttPass), GetStr(kv, MqttClient)))
      else None,
      Kept(kv, ExtraNames(kv), |ExtraNames(kv)|))
  }

  /** The troubles of the first `i` keys, one by one. */
  lemma CleanFields(kv: Kv, bad: Unreadable, i: nat)
    requires i <= |FieldKeys(kv)| && Clean(kv, bad, FieldKeys(kv)[..i])
    ensures var clean := (k: Key) => Trouble(kv, bad, k).None?;
            && (i > 0 ==> clean(Profile)) && (i > 1 ==> clean(WifiSsid)) && (i > 2 ==> clean(WifiPass))
            && (i > 3 ==> clean(OtaUrl)) && (i > 4 ==> clean(DevName))
            && (if IsMqtt(kv) then
                  && (i > 5 ==> clean(MqttHost)) && (i > 6 ==> clean(MqttPort)) && (i > 7 ==> clean(MqttUser))
                  && (i > 8 ==> clean(MqttPass)) && (i > 9 ==> clean(MqttClient)) && (i > 10 ==> clean(ExtrasIdx))
                else
                  && (i > 5 ==> clean(DevEui)) && (i > 6 ==> clean(JoinEui)) && (i > 7 ==> clean(AppKey))
                  && (i > 8 ==> clean(ExtrasIdx)))
  {
    var keys := FieldKeys(kv);
    forall j | 0 <= j < i ensures Trouble(kv, bad, keys[j]).None? {
      assert keys[..i][j] == keys[j];
    }
    assert keys[0] == Profile && keys[1] == WifiSsid && keys[2] == WifiPass && keys[3] == OtaUrl && keys[4] == DevName;
    if IsMqtt(kv) {
      assert keys[5] == MqttHost && keys[6] == MqttPort && keys[7] == MqttUser;
      assert keys[8] == MqttPass && keys[9] == MqttClient && keys[10] == ExtrasIdx;
    } else {
      assert keys[5] == DevEui && keys[6] == JoinEui && keys[7] == AppKey && keys[8] == ExtrasIdx;
    }
  }

  /** The field group of the stored profile. */
  function SpelledGroup(kv: Kv): (Option<Lora>, Option<Mqtt>)
    requires IsMqtt(kv) ==> ParseU16(StoredText(kv, MqttPort)).Some?
  {
    (Spelled(kv).lora, Spelled(kv).mqtt)
  }

  /** The fields read before the group, and then the group. */
  lemma CoreFails(kv: Kv, bad: Unreadable, i: nat)
    requires Present(kv, bad) && i < 5 && FirstAt(kv, bad, FieldKeys(kv), i)
    ensures LoadWith(kv, bad) == Err(Trouble(kv, bad, FieldKeys(kv)[i]).value)
  {
    CleanFields(kv, bad, i);
    ProfileOutcome(kv, bad);
    FieldOutcomes(kv, bad);
  }

  /** The common fields are read: what is left of the load. */
  lemma CoreLoads(kv: Kv, bad: Unreadable)
    requires Present(kv, bad) && Clean(kv, bad, FieldKeys(kv)[..5])
    ensures var group := LoadGroup(kv, bad, if IsMqtt(kv) then WifiMqttDevice else LorawanFieldDevice);
            var extras := IndexedExtras(kv, bad);
            LoadWith(kv, bad)
            == if group.Err? then Err(group.error) else if extras.Err? then Err(extras.error)
               else Ok(Some(Config(StoredText(kv, WifiSsid), StoredText(kv, WifiPass), StoredText(kv, OtaUrl),
                                   StoredText(kv, DevName), group.value.0, group.value.1, extras.value)))
  {
    CleanFields(kv, bad, 5);
    ProfileOutcome(kv, bad);
    FieldOutcomes(kv, bad);
  }

  lemma GroupFails(kv: Kv, bad: Unreadable, i: nat)
    requires 5 <= i < |FieldKeys(kv)| - 1 && FirstAt(kv, bad, FieldKeys(kv), i)
    ensures LoadGroup(kv, bad, if IsMqtt(kv) then WifiMqttDevice else LorawanFieldDevice)
            == Err(Trouble(kv, bad, FieldKeys(kv)[i]).value)
  {
    CleanFields(kv, bad, i);
    LoraOutcome(kv, bad);
    MqttOutcome(kv, bad);
  }

  lemma GroupLoads(kv: Kv, bad: Unreadable)
    requires Clean(kv, bad, FieldKeys(kv)[..|FieldKeys(kv)| - 1])
    ensures IsMqtt(kv) ==> ParseU16(StoredText(kv, MqttPort)).Some?
    ensures LoadGroup(kv, bad, if IsMqtt(kv) then WifiMqttDevice else LorawanFieldDevice) == Ok(SpelledGroup(kv))
  {
    CleanFields(kv, bad, |FieldKeys(kv)| - 1);
    LoraOutcome(kv, bad);
    MqttOutcome(kv, bad);
  }

  lemma CleanPrefix(kv: Kv, bad: Unreadable, keys: seq<Key>, i: nat, j: nat)
    requires i <= j <= |keys| && Clean(kv, bad, keys[..j])
    ensures Clean(kv, bad, keys[..i])
  {
    assert keys[..j] == keys[..i] + keys[i..j];
    CleanParts(kv, bad, keys[..i], keys[i..j]);
  }

  lemma FieldFails(kv: Kv, bad: Unreadable, i: nat)
    requires Present(kv, bad) && FirstAt(kv, bad, FieldKeys(kv), i)
    ensures LoadWith(kv, bad) == Err(Trouble(kv, bad, FieldKeys(kv)[i]).value)
  {
    if i < 5 {
      CoreFails(kv, bad, i);
    } else {
      CleanPrefix(kv, bad, FieldKeys(kv), 5, i);
      CoreLoads(kv, bad);
      if i < |FieldKeys(kv)| - 1 {
        GroupFails(kv, bad, i);
      } else {
        GroupLoads(kv, bad);
        assert FieldKeys(kv)[i] == ExtrasIdx;
      }
    }
  }

  lemma FieldsAreClean(kv: Kv, bad: Unreadable)
    requires Present(kv, bad) && Clean(kv, bad, FieldKeys(kv))
    ensures var e := LoadExtras(kv, bad, ExtraNames(kv), |ExtraNames(kv)|);
            (IsMqtt(kv) ==> ParseU16(StoredText(kv, MqttPort)).Some?) &&
            LoadWith(kv, bad)
            == if e.Err? then Err(e.error) else if |e.value| > 8 then Err(TooManyExtras)
               else Ok(Some(Spelled(kv).(extras := e.value)))
  {
    var keys := FieldKeys(kv);
    assert keys[..|keys|] == keys;
    CleanFields(kv, bad, |keys|);
    CleanPrefix(kv, bad, keys, 5, |keys|);
    CleanPrefix(kv, bad, keys, |keys| - 1, |keys|);
    CoreLoads(kv, bad);
    GroupLoads(kv, bad);
    assert ExtrasIdx !in bad;
  }

  /** Loading a provisioned record fails with the trouble of the first troubled key in reading order:
      unreadable, an unknown profile, a missing or unparsable port, an over-long name or value. So a
      value is refused exactly if it is longer than its documented cap, once nothing before it is. */
  lemma LoadFailsExactly(kv: Kv, bad: Unreadable, i: nat)
    requires Present(kv, bad) && FirstAt(kv, bad, ReadingOrder(kv), i)
    ensures LoadWith(kv, bad) == Err(Trouble(kv, bad, ReadingOrder(kv)[i]).value)
  {
    var keys, all := FieldKeys(kv), ReadingOrder(kv);
    if i < |keys| {
      assert all[..i] == keys[..i];
      FieldFails(kv, bad, i);
    } else {
      assert all[..i] == keys + ExtraKeys(ExtraNames(kv))[..i - |keys|];
      CleanParts(kv, bad, keys, ExtraKeys(ExtraNames(kv))[..i - |keys|]);
      FieldsAreClean(kv, bad);
      ExtraFails(kv, bad, ExtraNames(kv), i - |keys|);
    }
  }

  lemma CleanParts(kv: Kv, bad: Unreadable, a: seq<Key>, b: seq<Key>)
    requires Clean(kv, bad, a + b)
    ensures Clean(kv, bad, a) && Clean(kv, bad, b)
  {
    forall j | 0 <= j < |a| ensures Trouble(kv, bad, a[j]).None? {
      assert (a + b)[j] == a[j];
    }
    forall j | 0 <= j < |b| ensures Trouble(kv, bad, b[j]).None? {
      assert (a + b)[|a| + j] == b[j];
    }
  }

  /** Without such trouble it fails exactly if more than eight indexed extras have a value, and
      otherwise returns what the stored strings spell. */
  lemma LoadSucceedsExactly(kv: Kv, bad: Unreadable)
    requires Present(kv, bad) && Clean(kv, bad, ReadingOrder(kv))
    ensures IsMqtt(kv) ==> ParseU16(StoredText(kv, MqttPort)).Some?
    ensures LoadWith(kv, bad)
            == if |Kept(kv, ExtraNames(kv), |ExtraNames(kv)|)| > 8 then Err(TooManyExtras) else Ok(Some(Spelled(kv)))
  {
    var names := ExtraNames(kv);
    CleanParts(kv, bad, FieldKeys(kv), ExtraKeys(names));
    FieldsAreClean(kv, bad);
    assert ExtraKeys(names)[..|names|] == ExtraKeys(names);
    CleanExtrasLoad(kv, bad, names, |names|);
  }

  /** Where no other key has trouble, a readable value with a cap is refused exactly if it is longer
      than 32 bytes for the SSID, 64 for the password, and so on. */
  lemma RefusedExactlyByLength(kv: Kv, i: nat)
    requires Present(kv, ALL_READABLE) && i < |ReadingOrder(kv)|
    requires Limit(ReadingOrder(kv)[i]).Some? && Names13(ReadingOrder(kv)[i])
    requires forall j :: 0 <= j < |ReadingOrder(kv)| && j != i ==>
               Trouble(kv, ALL_READABLE, ReadingOrder(kv)[j]).None?
    ensures var k := ReadingOrder(kv)[i];
            LoadFrom(kv) == Err(OverCap(k)) <==> |StoredText(kv, k)| > Limit(k).value
  {
    if TooLong(kv, ReadingOrder(kv)[i]) {
      LoadFailsExactly(kv, ALL_READABLE, i);
    } else {
      LoadSucceedsExactly(kv, ALL_READABLE);
    }
  }

  predicate Names13(k: Key) { k.ExtraKey? ==> |k.name| <= 13 }
}
