/** Boot reconciliation (`ota/reconcile.rs`): what to do about an in-flight update attempt,
    from the persisted attempt record and the facts read from the bootloader. */
module Reconcile {
  import opened Common
  import opened Decision

  type SlotId = u8

  datatype SlotState = Valid | PendingVerify | Invalid | Unknown

  datatype AttemptRecord = AttemptRecord(
    attemptId: nat,
    version: Option<Version>,
    slot: SlotId,
    bootSelected: bool,
    activated: bool,
    slotWasInvalid: bool)

  datatype BootFacts = BootFacts(
    runningSlot: SlotId,
    runningState: SlotState,
    runningVersion: Option<Version>,
    updateSlot: Option<(SlotId, SlotState)>,
    reportPersisted: bool)

  datatype ReconcileAction =
    | NoAttempt
    | AwaitHealthCheck(markActivated: bool)
    | CompleteAttempt
    | ClearAttempt
    | RefuseImage(promised: Option<Version>, markActivated: bool)
    | ReportRollback(attemptId: nat, left: Option<Version>, reportAlreadyPersisted: bool)
    | Defer

  function Reconcile(attempt: Option<AttemptRecord>, facts: BootFacts): ReconcileAction {
    match attempt
    case None => NoAttempt
    case Some(a) =>
      if a.slot == facts.runningSlot then
        var matches := a.version.Some? && a.version == facts.runningVersion;
        if matches then
          match facts.runningState
          case PendingVerify => AwaitHealthCheck(!a.activated)
          case Valid => CompleteAttempt
          case Invalid | Unknown => ClearAttempt
        else if facts.runningState.PendingVerify? then
          RefuseImage(a.version, !a.activated)
        else
          ClearAttempt
      else
        var rollback := ReportRollback(a.attemptId, a.version, facts.reportPersisted);
        if a.activated || a.bootSelected then rollback
        else
          match facts.updateSlot
          case None => Defer
          case Some((slot, state)) =>
            if state.Invalid? && slot == a.slot && !a.slotWasInvalid then rollback else ClearAttempt
  }

  /** The running image is the one the manifest promised; an unparsed version matches nothing. */
  predicate PromisedRuns(a: AttemptRecord, facts: BootFacts) {
    a.slot == facts.runningSlot && facts.runningVersion.Some? && a.version == facts.runningVersion
  }

  /** The boot slot was switched to the target at some time: a flag says so, or the bootloader gave
      the slot up since the attempt started. */
  predicate SwitchShows(a: AttemptRecord, facts: BootFacts) {
    a.activated || a.bootSelected || (facts.updateSlot == Some((a.slot, Invalid)) && !a.slotWasInvalid)
  }

  /** For every record and all facts: which evidence each answer stands for, and what it carries. */
  lemma ReconcileByEvidence(a: AttemptRecord, facts: BootFacts)
    ensures var r := Reconcile(Some(a), facts);
            var targetRuns, pending := a.slot == facts.runningSlot, facts.runningState.PendingVerify?;
            && !r.NoAttempt?
            && (r.CompleteAttempt? <==> PromisedRuns(a, facts) && facts.runningState.Valid?)
            && (r.AwaitHealthCheck? <==> PromisedRuns(a, facts) && pending)
            && (r.RefuseImage? <==> targetRuns && !PromisedRuns(a, facts) && pending)
            && (r.ReportRollback? <==> !targetRuns && SwitchShows(a, facts))
            && (r.Defer? <==> !targetRuns && !SwitchShows(a, facts) && facts.updateSlot.None?)
            && (r.ClearAttempt? <==>
                  if targetRuns then !pending && !(PromisedRuns(a, facts) && facts.runningState.Valid?)
                  else !SwitchShows(a, facts) && facts.updateSlot.Some?)
            && (r.AwaitHealthCheck? ==> r.markActivated != a.activated)
            && (r.RefuseImage? ==> r.markActivated != a.activated && r.promised == a.version)
            && (r.ReportRollback? ==>
                  && r.attemptId == a.attemptId && r.left == a.version
                  && r.reportAlreadyPersisted == facts.reportPersisted)
  {
  }

  lemma NoRecordNoAttempt(facts: BootFacts)
    ensures Reconcile(None, facts) == NoAttempt
  {
  }
}
