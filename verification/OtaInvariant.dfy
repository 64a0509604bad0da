/** What every step of the device keeps. */
module OtaInvariant {
  import opened Common
  import opened Decision
  import opened Reconcile
  import opened OtaDevice

  predicate Unverified(o: Otadata) { o.New? || o.Pending? }

  /** The bootloader always finds an image it will run, and only the boot slot may be unverified. */
  predicate Bootable(d: Device) {
    && (d.otadata.Get(d.boot).Good? || Unverified(d.otadata.Get(d.boot)))
    && !Unverified(d.otadata.Get(Other(d.boot)))
    && (Unverified(d.otadata.Get(d.boot)) ==>
        && d.otadata.Get(Other(d.boot)).Good?
        && d.nvs.attempt.Some? && d.nvs.attempt.value.slot == d.boot
        && d.nvs.attempt.value.attemptId in d.hist.switched)
  }

  /** Where the target slot of a recorded attempt stands. */
  predicate AttemptEvidence(d: Device, a: AttemptRecord) {
    && a.slot < 2
    && a.attemptId <= d.nvs.counter
    && a.attemptId in d.hist.versions && a.version == Some(d.hist.versions[a.attemptId])
    && (if a.attemptId !in d.hist.switched then
          && d.boot == Other(a.slot) && !a.bootSelected && !a.activated
          && a.slotWasInvalid == d.otadata.Get(a.slot).Bad?
          && a.attemptId !in d.hist.healthy
        else if d.boot == a.slot then
          && (d.otadata.Get(a.slot).Good? <==> a.attemptId in d.hist.healthy)
          && (a.attemptId in d.hist.healthy ==> d.image.Get(a.slot) == a.version)
        else
          d.otadata.Get(a.slot).Bad? && a.attemptId !in d.hist.healthy)
  }

  predicate Distinct(s: seq<nat>) { forall i, j :: 0 <= i < j < |s| ==> s[i] != s[j] }

  predicate RecordsSound(d: Device) {
    && (d.nvs.attempt.Some? ==> AttemptEvidence(d, d.nvs.attempt.value))
    && Distinct(d.hist.created)
    && (forall id :: id in d.hist.created ==> id <= d.nvs.counter)
    && (forall id :: id in d.hist.versions ==> id <= d.nvs.counter)
    && (forall id :: id in d.hist.switched ==> id in d.hist.versions)
    && (forall id :: id in d.hist.healthy ==> id in d.hist.versions)
    && (d.nvs.report.Some? ==> d.nvs.report.value.attemptId in d.hist.created)
    && (d.nvs.attempt.Some? && d.nvs.attempt.value.attemptId in d.hist.created ==> d.ReportPersisted())
    && (d.nvs.attempt.Some? && d.Undelivered() ==> d.ReportPersisted())
  }

  /** The running slot is the boot slot, except between the switch and the reboot. */
  predicate RunningSound(d: Device) {
    match d.pc
    case Off => true
    case Selecting | Rebooting =>
      d.boot == Other(d.running) && d.State().Good? && d.otadata.Get(d.boot).New? && d.nvs.attempt.Some?
    case Early => d.boot == d.running && !d.State().New?
    case Activating(_) | HealthCheck | RollingBack => d.boot == d.running && d.State().Pending?
    case _ => d.boot == d.running && d.State().Good?
  }

  predicate TargetRuns(d: Device) {
    d.nvs.attempt.Some? && d.nvs.attempt.value.slot == d.running
  }

  predicate FellBack(d: Device) {
    Undivided(
      && d.nvs.attempt.Some? && d.nvs.attempt.value.slot != d.running
      && d.nvs.attempt.value.attemptId in d.hist.switched)
  }

  /** No durable trace of the boot-slot switch: neither flag was persisted, and the bootloader's
      `Invalid` mark was already there when the attempt started. */
  predicate NoTrace(a: AttemptRecord) { !a.bootSelected && !a.activated && a.slotWasInvalid }

  predicate ScriptSound(d: Device) {
    match d.pc
    case Clearing => d.nvs.attempt.Some? && !TargetRuns(d) && (FellBack(d) ==> NoTrace(d.nvs.attempt.value))
    case Completing => TargetRuns(d) && d.nvs.attempt.value.version == d.RunningVersion()
    case CompletingClear =>
      && TargetRuns(d) && d.nvs.attempt.value.version == d.RunningVersion()
      && (d.nvs.refused.None? || d.nvs.refused == d.RunningVersion())
    case Activating(refuse) => TargetRuns(d) && (refuse <==> d.nvs.attempt.value.version != d.RunningVersion())
    case HealthCheck => TargetRuns(d) && d.nvs.attempt.value.version == d.RunningVersion()
    case RollingBack => TargetRuns(d)
    case Reporting(id, left) =>
      && FellBack(d) && id == d.nvs.attempt.value.attemptId && left == d.nvs.attempt.value.version
      && id !in d.hist.created
    case Refusing(left) =>
      FellBack(d) && left == d.nvs.attempt.value.version && d.nvs.attempt.value.attemptId in d.hist.created
    case ReportClear =>
      && FellBack(d) && d.nvs.attempt.value.attemptId in d.hist.created
      && d.nvs.refused == d.nvs.attempt.value.version
    case Reserving(v) => d.nvs.attempt.None? && !d.Undelivered() && d.nvs.refused != Some(v)
    case Starting(v) =>
      && d.nvs.attempt.None? && !d.Undelivered() && d.nvs.refused != Some(v)
      && d.nvs.counter !in d.hist.versions && d.nvs.counter !in d.hist.created
    case Downloading | Switching =>
      && d.nvs.attempt.Some? && d.nvs.attempt.value.slot == Other(d.running)
      && d.nvs.attempt.value.attemptId !in d.hist.switched
    case _ => true
  }

  predicate Inv(d: Device) {
    Undivided(Bootable(d) && RecordsSound(d) && RunningSound(d) && ScriptSound(d))
  }

  lemma BootKeepsInv(d: Device)
    requires Inv(d) && d.pc.Off?
    ensures Inv(BootStep(d))
  {
  }

  lemma DecideKeepsInv(d: Device, readable: bool)
    requires Inv(d) && (d.pc.Early? || d.pc.Serving?)
    ensures Inv(Next(d, Event.Reconcile(readable)))
  {
  }

  lemma OfferKeepsInv(d: Device, v: Version)
    requires Inv(d) && Enabled(d, Offer(v))
    ensures Inv(Next(d, Offer(v)))
  {
  }

  lemma CompletionKeepsInv(d: Device, ok: bool)
    requires Inv(d) && (d.pc.Clearing? || d.pc.Completing? || d.pc.CompletingClear? || d.pc.ReportClear?)
    ensures Inv(ActStep(d, ok))
  {
  }

  lemma VerificationKeepsInv(d: Device, ok: bool)
    requires Inv(d) && (d.pc.Activating? || d.pc.HealthCheck? || d.pc.RollingBack?)
    ensures Inv(ActStep(d, ok))
  {
  }

  lemma ReportKeepsInv(d: Device, ok: bool)
    requires Inv(d) && (d.pc.Reporting? || d.pc.Refusing?)
    ensures Inv(ActStep(d, ok))
  {
  }

  lemma StartingKeepsInv(d: Device, ok: bool)
    requires Inv(d) && (d.pc.Reserving? || d.pc.Starting?)
    ensures Inv(ActStep(d, ok))
  {
  }

  lemma SwitchingKeepsInv(d: Device, ok: bool)
    requires Inv(d) && (d.pc.Switching? || d.pc.Selecting?)
    ensures Inv(ActStep(d, ok))
  {
  }

  lemma StepKeepsInv(d: Device, e: Event)
    requires Inv(d) && Enabled(d, e)
    ensures Inv(Next(d, e))
  {
    match e
    case Boot => BootKeepsInv(d);
    case Reconcile(readable) => DecideKeepsInv(d, readable);
    case Offer(v) => OfferKeepsInv(d, v);
    case Act(ok) =>
      if d.pc.Clearing? || d.pc.Completing? || d.pc.CompletingClear? || d.pc.ReportClear? {
        CompletionKeepsInv(d, ok);
      } else if d.pc.Activating? || d.pc.HealthCheck? || d.pc.RollingBack? {
        VerificationKeepsInv(d, ok);
      } else if d.pc.Reporting? || d.pc.Refusing? {
        ReportKeepsInv(d, ok);
      } else if d.pc.Reserving? || d.pc.Starting? {
        StartingKeepsInv(d, ok);
      } else {
        SwitchingKeepsInv(d, ok);
      }
    case _ =>
  }

  lemma {:induction false} RunKeepsInv(d: Device, es: seq<Event>)
    requires Inv(d) && Feasible(d, es)
    ensures Inv(Exec(d, es))
    decreases |es|
  {
    if es != [] {
      StepKeepsInv(d, es[0]);
      RunKeepsInv(Next(d, es[0]), es[1..]);
    }
  }

  /** Every state of every run satisfies the invariant. */
  lemma ReachableInv(d: Device)
    requires Reachable(d)
    ensures Inv(d)
  {
    var d0: Device, es: seq<Event> :| Init(d0) && Feasible(d0, es) && d == Exec(d0, es);
    RunKeepsInv(d0, es);
  }
}
