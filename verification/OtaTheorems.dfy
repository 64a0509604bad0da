/** What the reconciliation decides over every run of the device. */
module OtaTheorems {
  import opened Common
  import opened Decision
  import opened Reconcile
  import opened OtaDevice
  import opened OtaInvariant

  /** A rollback is reported exactly when the target really became the boot slot, the previous
      image runs again, and some durable trace of the switch can be read. */
  lemma RollbackDetectionExact(d: Device, readable: bool)
    requires Reachable(d) && (d.pc.Early? || d.pc.Serving?)
    ensures Decide(d, readable).ReportRollback? <==>
            && FellBack(d)
            && var a := d.nvs.attempt.value;
               a.bootSelected || a.activated || (readable && !a.slotWasInvalid)
  {
    ReachableInv(d);
  }

  /** The one hole: with a readable update slot, a real fallback is taken for an interrupted
      download exactly when neither flag was persisted and the slot was `Invalid` beforehand. */
  lemma FallbackMissedExactly(d: Device, readable: bool)
    requires Reachable(d) && (d.pc.Early? || d.pc.Serving?) && FellBack(d)
    ensures Decide(d, readable).ClearAttempt? <==> readable && NoTrace(d.nvs.attempt.value)
    ensures Decide(d, readable).ClearAttempt? || Decide(d, readable).Defer? || Decide(d, readable).ReportRollback?
  {
    ReachableInv(d);
  }

  /** An attempt whose slot was never switched to is dropped, or kept while the slot is unreadable. */
  lemma InterruptedDownloadIsDropped(d: Device, readable: bool)
    requires Reachable(d) && (d.pc.Early? || d.pc.Serving?)
    requires d.nvs.attempt.Some? && d.nvs.attempt.value.attemptId !in d.hist.switched
    ensures Decide(d, readable) == if readable then ClearAttempt else Defer
  {
    ReachableInv(d);
  }

  /** While the target runs, the decision follows the image and its verification, never `ClearAttempt`. */
  lemma TargetRunningExact(d: Device, readable: bool)
    requires Reachable(d) && (d.pc.Early? || d.pc.Serving?) && TargetRuns(d)
    ensures var a := d.nvs.attempt.value;
            && (Decide(d, readable).CompleteAttempt? <==> a.attemptId in d.hist.healthy)
            && (Decide(d, readable).AwaitHealthCheck?
               <==> a.attemptId !in d.hist.healthy && d.RunningVersion() == a.version)
            && (Decide(d, readable).RefuseImage? <==> a.attemptId !in d.hist.healthy && d.RunningVersion() != a.version)
  {
    ReachableInv(d);
  }

  /** An unverified target that runs without a durable `activated` is not checked or rolled back yet:
      the step after the decision persists the flag, whether or not the image is the promised one. */
  lemma ActivationComesFirst(d: Device, readable: bool)
    requires Reachable(d) && d.pc.Early? && TargetRuns(d) && !d.State().Good?
    ensures var d1 := Next(d, Event.Reconcile(readable));
            var promised := d.RunningVersion() == d.nvs.attempt.value.version;
            && (d1.pc.Activating? <==> !d.nvs.attempt.value.activated)
            && (d1.pc.HealthCheck? <==> d.nvs.attempt.value.activated && promised)
            && (d1.pc.RollingBack? <==> d.nvs.attempt.value.activated && !promised)
            && (d1.pc.Activating? ==>
                  var d2 := Next(d1, Act(true));
                  && d2.nvs.attempt == Some(d.nvs.attempt.value.(activated := true))
                  && (d2.pc.HealthCheck? <==> promised) && (d2.pc.RollingBack? <==> !promised))
  {
    ReachableInv(d);
  }

  predicate MarksNeverFail(d: Device, es: seq<Event>)
    requires Feasible(d, es)
    decreases |es|
  {
    es == [] || (!(d.pc.Activating? && es[0] == Act(false)) && MarksNeverFail(Next(d, es[0]), es[1..]))
  }

  predicate CheckedIsMarked(d: Device) {
    d.pc.HealthCheck? || d.pc.RollingBack? ==> d.nvs.attempt.Some? && d.nvs.attempt.value.activated
  }

  lemma {:induction false} MarksAreKept(d: Device, es: seq<Event>)
    requires Inv(d) && CheckedIsMarked(d) && Feasible(d, es) && MarksNeverFail(d, es)
    ensures CheckedIsMarked(Exec(d, es))
    decreases |es|
  {
    if es != [] {
      StepKeepsInv(d, es[0]);
      MarksAreKept(Next(d, es[0]), es[1..]);
    }
  }

  /** In every run in which no write of `activated` fails, an image is checked or rolled back only once
      the flag is durable, so that its fallback can be told from an interrupted download. */
  lemma ActivationIsDurable(d: Device, es: seq<Event>)
    requires Init(d) && Feasible(d, es) && MarksNeverFail(d, es)
    ensures CheckedIsMarked(Exec(d, es))
  {
    MarksAreKept(d, es);
  }

  predicate RunsPromised(d: Device) { TargetRuns(d) && d.RunningVersion() == d.nvs.attempt.value.version }

  /** A step of the script that fails changes no durable record and no slot. It ends the script and the
      device serves, except that a failed download is reconciled at once, losing one of the two flags
      stops nothing, a failed health check leads to the rollback, and the rollback is tried again. */
  lemma FailedStepsChangeNothing(d: Device)
    requires Reachable(d) && Enabled(d, Act(false))
    ensures var d' := Next(d, Act(false));
            && d'.nvs == d.nvs && d'.otadata == d.otadata && d'.boot == d.boot && d'.image == d.image
            && (d'.pc.Early? <==> d.pc.Switching?)
            && (d'.pc.RollingBack? <==>
                  d.pc.HealthCheck? || d.pc.RollingBack?
                  || (d.pc.Activating? && !RunsPromised(d)))
            && (d'.pc.HealthCheck? <==> d.pc.Activating? && RunsPromised(d))
            && (d'.pc.Rebooting? <==> d.pc.Selecting?)
            && (d'.pc.CompletingClear? <==>
                  d.pc.Completing? && (d.nvs.refused.None? || d.nvs.refused == d.RunningVersion()))
            && (d'.pc.Serving? || d'.pc.Early? || d'.pc.RollingBack? || d'.pc.HealthCheck? || d'.pc.Rebooting?
                || d'.pc.CompletingClear?)
  {
    ReachableInv(d);
  }

  /** Deleting the record is always accounted for: the update succeeded and no refusal of another
      version is left, or its rollback is reported and refused, or the slot was never switched to,
      or the documented hole hit. */
  lemma RecordRemovalAccounted(d: Device, e: Event)
    requires Reachable(d) && Enabled(d, e) && d.nvs.attempt.Some? && Next(d, e).nvs.attempt.None?
    ensures var a := d.nvs.attempt.value;
            if TargetRuns(d) then
              a.attemptId in d.hist.healthy && d.RunningVersion() == a.version
              && (d.nvs.refused.None? || d.nvs.refused == d.RunningVersion())
            else if FellBack(d) then
              NoTrace(a) || (a.attemptId in d.hist.created && d.nvs.refused == a.version)
            else a.attemptId !in d.hist.switched
  {
    ReachableInv(d);
  }

  /** The record of `d'` is the record of `d`, possibly with more evidence. */
  predicate SameRecord(d: Device, d': Device) {
    d.nvs.attempt.Some? && d'.nvs.attempt.Some? ==>
      var a, b := d.nvs.attempt.value, d'.nvs.attempt.value;
      && b == a.(bootSelected := b.bootSelected, activated := b.activated)
      && (a.bootSelected ==> b.bootSelected) && (a.activated ==> b.activated)
  }

  lemma ActKeepsRecord(d: Device, ok: bool)
    requires ScriptSound(d)
    ensures SameRecord(d, ActStep(d, ok))
  {
  }

  /** A record is never overwritten by another attempt, and its evidence is never taken back. */
  lemma RecordNeverOverwritten(d: Device, e: Event)
    requires Reachable(d) && Enabled(d, e)
    ensures SameRecord(d, Next(d, e))
  {
    ReachableInv(d);
    if e.Act? {
      ActKeepsRecord(d, e.ok);
    }
  }

  /** Ids grow: a new attempt is numbered above every earlier one. */
  lemma AttemptIdsIncrease(d: Device, e: Event)
    requires Reachable(d) && Enabled(d, e) && d.nvs.attempt.None? && Next(d, e).nvs.attempt.Some?
    ensures forall id :: id in d.hist.versions || id in d.hist.created ==> id < Next(d, e).nvs.attempt.value.attemptId
  {
    ReachableInv(d);
  }

  /** No attempt is ever reported twice, whatever writes fail and wherever power is lost. */
  lemma AtMostOneReportPerAttempt(d: Device)
    requires Reachable(d)
    ensures forall id :: multiset(d.hist.created)[id] <= 1
  {
    ReachableInv(d);
    DistinctCount(d.hist.created);
  }

  lemma {:induction false} DistinctCount(s: seq<nat>)
    requires Distinct(s)
    ensures forall id :: multiset(s)[id] <= 1
  {
    if s != [] {
      var last := |s| - 1;
      DistinctCount(s[..last]);
      assert s == s[..last] + [s[last]];
    }
  }

  /** A report is written only for an attempt that fell back, and never over an undelivered one. */
  lemma ReportsAreEarned(d: Device, e: Event)
    requires Reachable(d) && Enabled(d, e)
    ensures Next(d, e).hist.created != d.hist.created ==>
            FellBack(d) && !d.Undelivered()
              && Next(d, e).hist.created == d.hist.created + [d.nvs.attempt.value.attemptId]
    ensures d.Undelivered() ==>
            Next(d, e).nvs.report == if e.Deliver? then Some(d.nvs.report.value.(delivered := true)) else d.nvs.report
  {
    ReachableInv(d);
  }

  /** A version becomes refused only because the device really fell back from it. */
  lemma RefusalsAreEarned(d: Device, e: Event)
    requires Reachable(d) && Enabled(d, e)
    ensures Next(d, e).nvs.refused.Some? && Next(d, e).nvs.refused != d.nvs.refused ==>
            FellBack(d) && d.nvs.attempt.value.attemptId !in d.hist.healthy
            && Next(d, e).nvs.refused == d.nvs.attempt.value.version
  {
    ReachableInv(d);
  }

  /** An image is marked valid only if it is the one the manifest promised. */
  lemma OnlyPromisedImagesBecomeValid(d: Device, e: Event, s: Slot)
    requires Reachable(d) && Enabled(d, e)
    requires !d.otadata.Get(s).Good? && Next(d, e).otadata.Get(s).Good?
    ensures s == d.running && TargetRuns(d) && d.RunningVersion() == d.nvs.attempt.value.version
  {
    ReachableInv(d);
  }

  /** The device always comes up: from any loss of power the bootloader needs at most two
      decisions, and an image that was not verified in its one boot is not run again. */
  lemma AlwaysBoots(d: Device)
    requires Reachable(d) && d.pc.Off?
    ensures BootStep(d).pc.Early? || BootStep(BootStep(d)).pc.Early?
    ensures d.otadata.Get(d.boot).Pending? ==>
            && BootStep(BootStep(d)).running == Other(d.boot)
            && BootStep(BootStep(d)).State().Good?
  {
    ReachableInv(d);
  }

  /** The steps that end the refusal of `v`: another version that passed its health check is
      being completed, or the device is refusing another version it fell back from. */
  predicate Displaces(d: Device, e: Event, v: Version) {
    && e == Act(true)
    && (|| (d.pc.Completing? && d.RunningVersion() != Some(v))
        || (d.pc.Refusing? && d.pc.left.Some? && d.pc.left != Some(v)))
  }

  lemma RefusalEndsExactly(d: Device, e: Event, v: Version)
    requires Reachable(d) && Enabled(d, e) && d.nvs.refused == Some(v)
    ensures Next(d, e).nvs.refused == Some(v) <==> !Displaces(d, e, v)
    ensures Displaces(d, e, v) && d.pc.Completing? ==>
            TargetRuns(d) && d.nvs.attempt.value.attemptId in d.hist.healthy && d.nvs.attempt.value.version != Some(v)
    ensures Displaces(d, e, v) && d.pc.Refusing? ==>
            FellBack(d) && d.nvs.attempt.value.version != Some(v)
  {
    ReachableInv(d);
  }

  predicate NeverDisplaced(d: Device, es: seq<Event>, v: Version)
    requires Feasible(d, es)
    decreases |es|
  {
    es == [] || (!Displaces(d, es[0], v) && NeverDisplaced(Next(d, es[0]), es[1..], v))
  }

  /** A refused version is not attempted again in any run without such a step. */
  lemma RefusedVersionStaysOut(d: Device, es: seq<Event>, v: Version)
    requires Reachable(d) && d.nvs.refused == Some(v) && Feasible(d, es) && NeverDisplaced(d, es, v)
    ensures Exec(d, es).nvs.refused == Some(v)
    ensures forall id :: id in Exec(d, es).hist.versions && Exec(d, es).hist.versions[id] == v ==> id in d.hist.versions
  {
    ReachableInv(d);
    RefusedStaysOutFrom(d, es, v);
  }

  /** One undisplaced step: the refusal stays, and no attempt of `v` is started. */
  lemma RefusedStaysOutStep(d: Device, e: Event, v: Version)
    requires Inv(d) && Enabled(d, e) && d.nvs.refused == Some(v) && !Displaces(d, e, v)
    ensures Next(d, e).nvs.refused == Some(v)
    ensures Next(d, e).hist.versions == d.hist.versions
            || (d.pc.Starting? && d.pc.v != v && d.nvs.counter !in d.hist.versions
                && Next(d, e).hist.versions == d.hist.versions[d.nvs.counter := d.pc.v])
  {
  }

  lemma {:induction false} RefusedStaysOutFrom(d: Device, es: seq<Event>, v: Version)
    requires Inv(d) && d.nvs.refused == Some(v) && Feasible(d, es) && NeverDisplaced(d, es, v)
    ensures Exec(d, es).nvs.refused == Some(v)
    ensures forall id :: id in d.hist.versions ==>
            id in Exec(d, es).hist.versions && Exec(d, es).hist.versions[id] == d.hist.versions[id]
    ensures forall id :: id in Exec(d, es).hist.versions && Exec(d, es).hist.versions[id] == v ==> id in d.hist.versions
    decreases |es|
  {
    if es != [] {
      var d1 := Next(d, es[0]);
      StepKeepsInv(d, es[0]);
      RefusedStaysOutStep(d, es[0], v);
      RefusedStaysOutFrom(d1, es[1..], v);
    }
  }

  lemma {:induction false} ExecAppend(d: Device, es: seq<Event>, fs: seq<Event>)
    requires Feasible(d, es) && Feasible(Exec(d, es), fs)
    ensures Feasible(d, es + fs) && Exec(d, es + fs) == Exec(Exec(d, es), fs)
    decreases |es|
  {
    if es == [] {
      assert es + fs == fs;
    } else {
      ExecAppend(Next(d, es[0]), es[1..], fs);
      assert (es + fs)[1..] == es[1..] + fs;
    }
  }

  lemma Extend(d0: Device, es: seq<Event>, d: Device, e: Event) returns (es': seq<Event>, d': Device)
    requires Feasible(d0, es) && d == Exec(d0, es) && Enabled(d, e)
    ensures Feasible(d0, es') && es' == es + [e] && d' == Exec(d0, es') && d' == Next(d, e)
  {
    es', d' := es + [e], Next(d, e);
    var one := [e];
    assert one[1..] == [];
    assert Exec(d, one) == Exec(Next(d, one[0]), one[1..]);
    ExecAppend(d0, es, one);
  }

  /** A step in which nothing goes wrong; the only reboot is the one requested after an update. */
  predicate Faultless(d: Device, e: Event) {
    match e
    case PowerLoss => d.pc.Rebooting?
    case Reconcile(readable) => readable
    case Act(ok) => ok
    case Fetch(_, ok) => ok
    case _ => true
  }

  predicate FaultlessRun(d: Device, es: seq<Event>)
    decreases |es|
  {
    es == [] || (Enabled(d, es[0]) && Faultless(d, es[0]) && FaultlessRun(Next(d, es[0]), es[1..]))
  }

  /** What happens next if nothing goes wrong and no new offer arrives; an update under way downloads
      the image it was promised. */
  function Proceed(d: Device): Event {
    match d.pc
    case Off => Boot
    case Early => Event.Reconcile(true)
    case Serving => if d.nvs.attempt.Some? then Event.Reconcile(true) else Deliver
    case Downloading => Fetch(if d.nvs.attempt.Some? then d.nvs.attempt.value.version else None, true)
    case Rebooting => PowerLoss
    case _ => Act(true)
  }

  /** No attempt is recorded and no report is undelivered: a new offer may start. */
  predicate AdmissionOpen(d: Device) {
    d.pc.Serving? && FromRecords(d.nvs.attempt.Some?, d.Undelivered()) == Open
  }

  /** The most steps that can still be needed. */
  function Distance(d: Device): nat {
    match d.pc
    case Serving => if d.nvs.attempt.Some? then 6 else if d.Undelivered() then 1 else 0
    case Clearing | CompletingClear | ReportClear => 2
    case Completing | Refusing(_) => 3
    case Reporting(_, _) | HealthCheck => 4
    case Activating(refuse) => if refuse then 9 else 5
    case Early => if d.State().Good? then 6 else 10
    case Off => if d.otadata.Get(d.boot).Good? then 7 else if d.otadata.Get(d.boot).New? then 11 else 8
    case RollingBack => 8
    case Rebooting => 12
    case Selecting => 13
    case Switching => 14
    case Downloading => 15
    case Starting(_) => 16
    case Reserving(_) => 17
  }

  lemma ProceedFromRest(d: Device)
    requires Inv(d) && (d.pc.Off? || d.pc.Early? || d.pc.Serving? || d.pc.Rebooting? || d.pc.Downloading?)
    requires !AdmissionOpen(d)
    ensures Enabled(d, Proceed(d)) && Faultless(d, Proceed(d)) && Distance(Next(d, Proceed(d))) < Distance(d)
  {
  }

  lemma ProceedInScript(d: Device)
    requires Inv(d) && Enabled(d, Act(true))
    ensures Proceed(d) == Act(true) && Distance(ActStep(d, true)) < Distance(d)
  {
  }

  lemma {:induction false} Proceeds(d: Device) returns (es: seq<Event>)
    requires Inv(d)
    ensures FaultlessRun(d, es) && Feasible(d, es) && |es| <= Distance(d) && AdmissionOpen(Exec(d, es))
    decreases Distance(d)
  {
    if AdmissionOpen(d) {
      es := [];
    } else {
      var e := Proceed(d);
      if Enabled(d, Act(true)) {
        ProceedInScript(d);
      } else {
        ProceedFromRest(d);
      }
      StepKeepsInv(d, e);
      var rest := Proceeds(Next(d, e));
      es := [e] + rest;
      assert es[0] == e && es[1..] == rest;
    }
  }

  /** Nothing stays stuck: from every reachable state, in the middle of an update, a rollback, a
      refusal or with no power, at most 17 steps in which nothing goes wrong lead to a device that
      serves with no attempt recorded and nothing undelivered, so that a new offer may start. */
  lemma AdmissionReopens(d: Device) returns (es: seq<Event>)
    requires Reachable(d)
    ensures FaultlessRun(d, es) && Feasible(d, es) && |es| <= 17 && AdmissionOpen(Exec(d, es))
  {
    ReachableInv(d);
    es := Proceeds(d);
  }

  /** A boot without faults that detects a rollback ends with the rollback
      reported, the version refused and the record gone. */
  lemma FaultFreeBootResolves(d: Device) returns (es: seq<Event>)
    requires Reachable(d) && d.pc.Early? && Decide(d, true).ReportRollback?
    ensures Feasible(d, es) && PowerLoss !in es
    ensures var end := Exec(d, es);
            && end.pc.Serving? && end.nvs.attempt.None?
            && d.nvs.attempt.value.attemptId in end.hist.created
            && end.nvs.refused == d.nvs.attempt.value.version
  {
    ReachableInv(d);
    var d1 := Next(d, Event.Reconcile(true));
    StepKeepsInv(d, Event.Reconcile(true));
    var rest := ScriptResolves(d1);
    es := [Event.Reconcile(true)] + rest;
    assert es[0] == Event.Reconcile(true) && es[1..] == rest;
  }

  /** The rest of the script, from the report or from the refusal on. */
  lemma {:induction false} ScriptResolves(d: Device) returns (es: seq<Event>)
    requires Inv(d) && (d.pc.Reporting? || d.pc.Refusing? || d.pc.ReportClear?)
    ensures Feasible(d, es) && PowerLoss !in es
    ensures var end := Exec(d, es);
            && end.pc.Serving? && end.nvs.attempt.None?
            && d.nvs.attempt.value.attemptId in end.hist.created
            && end.nvs.refused == d.nvs.attempt.value.version
    decreases Distance(d)
  {
    var d1 := Next(d, Act(true));
    StepKeepsInv(d, Act(true));
    if d.pc.ReportClear? {
      es := [Act(true)];
      assert es[1..] == [];
    } else {
      var rest := ScriptResolves(d1);
      es := [Act(true)] + rest;
      assert es[0] == Act(true) && es[1..] == rest;
    }
  }

  const VERSION_A := Version(3, 0, 0)
  const VERSION_B := Version(2, 0, 0)

  /** A device running 1.0.0 that once rolled back from A. */
  const REFUSED_A := Device(
    Pair(Good, Bad), Pair(Some(Version(1, 0, 0)), Some(VERSION_A)), 0, 0, Off, Nvs(None, 1, Some(VERSION_A), None),
    History(map[], {}, {}, []))

  /** The same device after B was downloaded and selected. */
  const SELECTED_B := Device(
    Pair(Good, New), Pair(Some(Version(1, 0, 0)), Some(VERSION_B)), 1, 0, Rebooting,
    Nvs(Some(AttemptRecord(2, Some(VERSION_B), 1, true, false, true)), 2, Some(VERSION_A), None),
    History(map[2 := VERSION_B], {2}, {}, []))

  /** B booted once, lost power, and the bootloader fell back. */
  const FELL_BACK_B := SELECTED_B.(otadata := Pair(Good, Bad), boot := 0, pc := Early)

  /** B accepted and its attempt recorded. */
  const RECORDED_B := SELECTED_B.(
    otadata := Pair(Good, Bad), image := REFUSED_A.image, boot := 0, pc := Downloading,
    nvs := SELECTED_B.nvs.(attempt := Some(AttemptRecord(2, Some(VERSION_B), 1, false, false, true))),
    hist := SELECTED_B.hist.(switched := {}))

  lemma AcceptB() returns (es: seq<Event>)
    ensures Feasible(REFUSED_A, es) && Exec(REFUSED_A, es) == RECORDED_B
  {
    var s := REFUSED_A;
    es, s := Extend(REFUSED_A, [], s, Boot);
    es, s := Extend(REFUSED_A, es, s, Event.Reconcile(true));
    es, s := Extend(REFUSED_A, es, s, Offer(VERSION_B));
    es, s := Extend(REFUSED_A, es, s, Act(true));
    es, s := Extend(REFUSED_A, es, s, Act(true));
  }

  lemma DownloadB() returns (es: seq<Event>)
    ensures Feasible(RECORDED_B, es) && Exec(RECORDED_B, es) == SELECTED_B
  {
    var s := RECORDED_B;
    es, s := Extend(RECORDED_B, [], s, Fetch(Some(VERSION_B), true));
    es, s := Extend(RECORDED_B, es, s, Act(true));
    es, s := Extend(RECORDED_B, es, s, Act(true));
  }

  lemma FallBackFromB() returns (es: seq<Event>)
    ensures Feasible(SELECTED_B, es) && Exec(SELECTED_B, es) == FELL_BACK_B
  {
    var s := SELECTED_B;
    es, s := Extend(SELECTED_B, [], s, PowerLoss);
    es, s := Extend(SELECTED_B, es, s, Boot);
    es, s := Extend(SELECTED_B, es, s, PowerLoss);
    es, s := Extend(SELECTED_B, es, s, Boot);
    es, s := Extend(SELECTED_B, es, s, Boot);
  }

  /** The rollback from B reported and refused, the report not yet delivered. */
  const REPORTED_B := FELL_BACK_B.(
    pc := Serving,
    nvs := Nvs(None, 2, Some(VERSION_B), Some(Report(2, false))),
    hist := SELECTED_B.hist.(created := [2]))

  lemma ReportB() returns (es: seq<Event>)
    ensures Feasible(FELL_BACK_B, es) && Exec(FELL_BACK_B, es) == REPORTED_B
  {
    var s := FELL_BACK_B;
    es, s := Extend(FELL_BACK_B, [], s, Event.Reconcile(true));
    es, s := Extend(FELL_BACK_B, es, s, Act(true));
    es, s := Extend(FELL_BACK_B, es, s, Act(true));
    es, s := Extend(FELL_BACK_B, es, s, Act(true));
    assert s.hist.created == [2];
  }

  lemma OfferAAgain() returns (es: seq<Event>)
    ensures Feasible(REPORTED_B, es)
    ensures Exec(REPORTED_B, es).pc == Reserving(VERSION_A) && Exec(REPORTED_B, es).hist.healthy == {}
  {
    var s := REPORTED_B;
    es, s := Extend(REPORTED_B, [], s, Deliver);
    es, s := Extend(REPORTED_B, es, s, Offer(VERSION_A));
  }

  /** The documentation keeps a refusal until a different version passes its health check. The
      code keeps one refused version only, so a second rollback replaces it: here A is refused, B
      is tried and rolled back, no image ever passes a health check, and A is accepted again. */
  lemma SecondRollbackReadmits()
    ensures exists d: Device, es: seq<Event>, a: Version ::
              && Init(d) && d.nvs.refused == Some(a) && Feasible(d, es)
              && Exec(d, es).hist.healthy == {}
              && Exec(d, es).pc == Reserving(a)
  {
    var es0 := AcceptB();
    var es1 := DownloadB();
    var es2 := FallBackFromB();
    var es3 := ReportB();
    var es4 := OfferAAgain();
    ExecAppend(FELL_BACK_B, es3, es4);
    ExecAppend(SELECTED_B, es2, es3 + es4);
    ExecAppend(RECORDED_B, es1, es2 + (es3 + es4));
    var es := es0 + (es1 + (es2 + (es3 + es4)));
    ExecAppend(REFUSED_A, es0, es1 + (es2 + (es3 + es4)));
    assert Init(REFUSED_A) && Feasible(REFUSED_A, es);
    assert Exec(REFUSED_A, es).pc == Reserving(VERSION_A) && Exec(REFUSED_A, es).hist.healthy == {};
  }

  // ----- the hole is real, and what it can cost -----

  /** A real fallback that left no durable trace. */
  predicate InHole(d: Device) { FellBack(d) && NoTrace(d.nvs.attempt.value) }

  /** B was switched to, but power went before `boot_selected` was persisted and again before the
      new image did anything; its slot had been `Invalid` before. */
  const HOLE_B := SELECTED_B.(
    otadata := Pair(Good, Bad), boot := 0, pc := Early,
    nvs := SELECTED_B.nvs.(attempt := Some(AttemptRecord(2, Some(VERSION_B), 1, false, false, true))))

  lemma LoseTraceOfB() returns (es: seq<Event>)
    ensures Feasible(RECORDED_B, es) && Exec(RECORDED_B, es) == HOLE_B
  {
    var s := RECORDED_B;
    es, s := Extend(RECORDED_B, [], s, Fetch(Some(VERSION_B), true));
    es, s := Extend(RECORDED_B, es, s, Act(true));
    es, s := Extend(RECORDED_B, es, s, PowerLoss);
    es, s := Extend(RECORDED_B, es, s, Boot);
    es, s := Extend(RECORDED_B, es, s, PowerLoss);
    es, s := Extend(RECORDED_B, es, s, Boot);
    es, s := Extend(RECORDED_B, es, s, Boot);
  }

  /** The documented limitation happens: a run ends in a real fallback whose record is cleared as an
      interrupted download, although every slot can be read. */
  lemma HoleIsReached()
    ensures exists d: Device :: Reachable(d) && d.pc.Early? && InHole(d) && Decide(d, true).ClearAttempt?
  {
    var es0 := AcceptB();
    var es1 := LoseTraceOfB();
    ExecAppend(REFUSED_A, es0, es1);
    assert Init(REFUSED_A);
    assert Reachable(HOLE_B);
  }

  /** The step deletes the record of a fallback that left no trace: one download for nothing. */
  predicate LostInHole(d: Device, e: Event)
    requires Enabled(d, e)
  {
    InHole(d) && Next(d, e).nvs.attempt.None?
  }

  /** Power goes, or the write fails, between the switch of the boot slot and `boot_selected`. */
  predicate HitsWindow(d: Device, e: Event) {
    d.pc.Selecting? && (e.PowerLoss? || e == Act(false))
  }

  function CountLost(d: Device, es: seq<Event>): nat
    requires Feasible(d, es)
    decreases |es|
  {
    if es == [] then 0 else (if LostInHole(d, es[0]) then 1 else 0) + CountLost(Next(d, es[0]), es[1..])
  }

  function CountHits(d: Device, es: seq<Event>): nat
    requires Feasible(d, es)
    decreases |es|
  {
    if es == [] then 0 else (if HitsWindow(d, es[0]) then 1 else 0) + CountHits(Next(d, es[0]), es[1..])
  }

  /** The recorded attempt was switched to and will never have `boot_selected`: its window was hit. */
  function Hit(d: Device): nat {
    if d.nvs.attempt.Some? && d.nvs.attempt.value.attemptId in d.hist.switched
       && !d.nvs.attempt.value.bootSelected && !d.pc.Selecting?
    then 1 else 0
  }

  lemma HoleStep(d: Device, e: Event)
    requires Inv(d) && Enabled(d, e)
    ensures (if LostInHole(d, e) then 1 else 0) + Hit(Next(d, e)) <= Hit(d) + (if HitsWindow(d, e) then 1 else 0)
  {
  }

  lemma {:induction false} LossesPaidFor(d: Device, es: seq<Event>)
    requires Inv(d) && Feasible(d, es)
    ensures CountLost(d, es) <= Hit(d) + CountHits(d, es)
    decreases |es|
  {
    if es != [] {
      HoleStep(d, es[0]);
      StepKeepsInv(d, es[0]);
      LossesPaidFor(Next(d, es[0]), es[1..]);
    }
  }

  /** The cost of the hole is bounded: over any run at most one download is lost to it per loss of
      power, or failed write, that hit the window between the switch and `boot_selected`. */
  lemma HoleCostIsBounded(d: Device, es: seq<Event>)
    requires Init(d) && Feasible(d, es)
    ensures CountLost(d, es) <= CountHits(d, es)
  {
    LossesPaidFor(d, es);
  }
}
