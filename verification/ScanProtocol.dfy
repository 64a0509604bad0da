/** The scan as its caller sees it: the answer to every poll, told from the earlier answers, the
    outcomes reported for them and the clock, without the machine's own fields. */
module ScanProtocol {
  import opened Common
  import opened Scan
  import opened ScanRuns
  import opened ScanTheorems

  // ----- aborts and misfits -----

  /** An abort or misfit is what a scan ends with, whatever the teardown meets; and power was restored
      unless the scan failed before it was boosted. */
  predicate UpsetSound(r: Rig) {
    && (r.clean <==> r.upset.None?)
    && match r.m.state
       case Finished(result) => r.upset.Some? ==> result == ScanResult.Err(r.upset.value)
       case RestoringTxPower(found) => Torn(r) && (found.Some? ==> r.upset.None?)
       case RemovingScanPeer(found) => Torn(r) && (found.Some? ==> r.upset.None?)
       case RegisteringFound(_) => Torn(r) && r.upset.None?
       case RestoringChannel(_) => FellBack(r)
       case RegisteringFallback => FellBack(r)
       case _ => r.upset.None? && r.log.restoredAt.None?
  }

  predicate Torn(r: Rig) { r.log.restoredAt.Some? && r.m.failure == r.upset }

  predicate FellBack(r: Rig) {
    if r.upset.None? && r.m.failure == Some(RegisterTempPeer) then r.log.restoredAt.None?
    else
      && r.log.restoredAt.Some?
      && (r.m.failure == r.upset || (r.upset.None? && r.m.failure.value.RegisterFoundPeer?))
  }

  /** What of `Feed` this depends on. */
  lemma FeedUpsetParts(cfg: Config, r: Rig, now: Duration, input: Input)
    requires WellFormed(cfg, r.m)
    ensures var (m', a) := Step(cfg, r.m, now, input);
            var r' := Feed(cfg, r, now, input);
            && r'.m == m' && r'.clean == (r.clean && Fits(r.m.state, input))
            && r'.upset == (if Fits(r.m.state, input) then r.upset else Some(Complaint(input)))
            && r'.log.restoredAt == (if a.RestoreTxPower? then Some(now) else r.log.restoredAt)
  {
  }

  lemma FeedKeepsUpset(cfg: Config, pin: Option<u8>, r: Rig, now: Duration, input: Input)
    requires Inv(cfg, pin, r) && WellFormed(cfg, r.m) && UpsetSound(r)
    ensures UpsetSound(Feed(cfg, r, now, input))
  {
    FeedUpsetParts(cfg, r, now, input);
    UpsetStep(cfg, r, now, input);
  }

  lemma UpsetStep(cfg: Config, r: Rig, now: Duration, input: Input)
    requires WellFormed(cfg, r.m) && UpsetSound(r) && (Pending(r.m.state) ==> r.m.failure.None?)
    ensures var (m', a) := Step(cfg, r.m, now, input);
            UpsetSound(r.(
              m := m', clean := r.clean && Fits(r.m.state, input),
              upset := if Fits(r.m.state, input) then r.upset else Some(Complaint(input)),
              log := r.log.(restoredAt := if a.RestoreTxPower? then Some(now) else r.log.restoredAt)))
  {
  }

  lemma {:induction false} RunIsTold(cfg: Config, pin: Option<u8>, r: Rig, ins: Inputs)
    requires Told(cfg, pin, r)
    ensures Told(cfg, pin, Run(cfg, r, ins))
    decreases |ins|
  {
    if ins != [] {
      var now, input := ins[0].0, ins[0].1;
      FeedKeepsInv(cfg, pin, r, now, input);
      FeedKeepsBurst(cfg, pin, r, now, input);
      FeedKeepsUpset(cfg, pin, r, now, input);
      ProbedFollowsAnswers(cfg, pin, r, now, input);
      FeedKeepsCount(cfg, r, now, input);
      StepWellFormed(cfg, r.m, now, input);
      RunIsTold(cfg, pin, Feed(cfg, r, now, input), ins[1..]);
    }
  }

  // ----- what each poll has to answer -----

  predicate Answers(last: Option<Action>, input: Input) {
    match last
    case None => input.Start?
    case Some(SendProbe(_, _, _)) => input.Sent?
    case Some(WaitUntil(_)) => input.Completed?
    case Some(Done(_)) => true
    case Some(_) => input.Completed? || input.Failed?
  }

  predicate Found(cfg: Config, r: Rig) {
    r.upset.None? && r.log.current.Some? && Confirmed(cfg, r.log.current.value)
  }

  /** Why the scan fails, if it does. */
  function Reason(cfg: Config, r: Rig): ScanError {
    if r.upset.Some? then r.upset.value
    else if r.log.restoredAt.None? then RegisterTempPeer
    else if Found(cfg, r) then RegisterFoundPeer(r.log.current.value.channel)
    else NotFound(CountTransmitted(r.log.Visits(), |r.log.Visits()|), |cfg.channels|)
  }

  function GiveUp(cfg: Config, pin: Option<u8>, r: Rig): Action {
    match pin
    case Some(p) => RestoreChannel(p)
    case None => Done(Err(Reason(cfg, r)))
  }

  /** The next listed channel if there is one and the budget is not over. */
  function GoOn(cfg: Config, r: Rig, start: Duration, now: Duration): Action {
    if |r.log.Visits()| < |cfg.channels| && InBudget(cfg, start, now) then SetChannel(cfg.channels[|r.log.Visits()|])
    else RestoreTxPower
  }

  /** The scan is under way: an upset has to be unwound. */
  predicate Underway(r: Rig) {
    && r.log.restoredAt.None? && r.last.Some?
    && !r.last.value.RestoreChannel? && !r.last.value.RegisterFallbackPeer? && !r.last.value.Done?
  }

  /** `a` is what the scan has to do next. */
  predicate Demands(cfg: Config, pin: Option<u8>, r: Rig, now: Duration, input: Input, a: Action) {
    Undivided(
      if r.last.None? then a == if input.Start? then RemovePeer else Done(Err(Complaint(input)))
      else if r.last.value.Done? then a == r.last.value
      else if !Answers(r.last, input) then a == if Underway(r) then RestoreTxPower else Done(Err(Complaint(input)))
      else
        match r.last.value
        case RemovePeer =>
          a == if r.log.restoredAt.None? then RegisterPeer(0)
               else if Found(cfg, r) then RegisterPeer(r.log.current.value.channel)
               else GiveUp(cfg, pin, r)
        case RegisterPeer(c) =>
          a == if input.Failed? then GiveUp(cfg, pin, r)
               else if r.log.restoredAt.None? then BoostTxPower
               else Done(Ok(c))
        case BoostTxPower => a == GoOn(cfg, r, now, now)
        case SetChannel(c) =>
          if input.Completed? then a == SendProbe(c, 0, cfg.probeTimeout)
          else r.burstAt.Some? && a == GoOn(cfg, r, r.burstAt.value, now)
        case SendProbe(c, n, _) =>
          if !input.outcome.Acked? then r.burstAt.Some? && a == GoOn(cfg, r, r.burstAt.value, now)
          else if n >= cfg.confirmations then a == RestoreTxPower
          else a.WaitUntil? && a.deadline == SaturatingAdd(now, cfg.gap)
        case WaitUntil(_) =>
          && r.log.current.Some? && a.SendProbe? && a.channel == r.log.current.value.channel
          && a.confirmation == |r.log.current.value.outcomes| && a.timeout == cfg.probeTimeout
        case RestoreTxPower => a == RemovePeer
        case RestoreChannel(p) => a == RegisterFallbackPeer(p)
        case RegisterFallbackPeer(_) => a == Done(Err(Reason(cfg, r))))
  }

  /** What a run keeps that the answers depend on. */
  predicate Told(cfg: Config, pin: Option<u8>, r: Rig) {
    Undivided(Inv(cfg, pin, r) && WellFormed(cfg, r.m) && CountSound(r) && BurstSound(r) && UpsetSound(r))
  }

  lemma UpsetAnswer(cfg: Config, pin: Option<u8>, r: Rig, now: Duration, input: Input)
    requires Told(cfg, pin, r) && !Fits(r.m.state, input)
    ensures Demands(cfg, pin, r, now, input, Step(cfg, r.m, now, input).1)
  {
  }

  lemma StartAnswer(cfg: Config, pin: Option<u8>, r: Rig, now: Duration, input: Input)
    requires Told(cfg, pin, r) && Fits(r.m.state, input) && Pending(r.m.state) && !InBurst(r.m.state)
    ensures Demands(cfg, pin, r, now, input, Step(cfg, r.m, now, input).1)
  {
  }

  lemma BurstAnswer(cfg: Config, pin: Option<u8>, r: Rig, now: Duration, input: Input)
    requires Told(cfg, pin, r) && Fits(r.m.state, input) && InBurst(r.m.state)
    ensures Demands(cfg, pin, r, now, input, Step(cfg, r.m, now, input).1)
  {
  }

  lemma TeardownAnswer(cfg: Config, pin: Option<u8>, r: Rig, now: Duration, input: Input)
    requires Told(cfg, pin, r) && Fits(r.m.state, input) && !Pending(r.m.state)
    ensures Demands(cfg, pin, r, now, input, Step(cfg, r.m, now, input).1)
  {
    CountVisits(r.log);
  }

  /** In every run the scan answers each poll with what the outcomes so far, the clock and the list of
      channels demand: which step of the setup, the search, the teardown or the fallback is next, which
      channel, which confirmation and by when, and which error it ends with. */
  lemma EveryAnswerIsDemanded(cfg: Config, pin: Option<u8>, ins: Inputs, now: Duration, input: Input)
    ensures var r := ScanRun(cfg, pin, ins);
            WellFormed(cfg, r.m) && Demands(cfg, pin, r, now, input, Step(cfg, r.m, now, input).1)
  {
    var r := ScanRun(cfg, pin, ins);
    assert CountSound(NewRig(pin));
    RunIsTold(cfg, pin, NewRig(pin), ins);
    if !Fits(r.m.state, input) {
      UpsetAnswer(cfg, pin, r, now, input);
    } else if InBurst(r.m.state) {
      BurstAnswer(cfg, pin, r, now, input);
    } else if Pending(r.m.state) {
      StartAnswer(cfg, pin, r, now, input);
    } else {
      TeardownAnswer(cfg, pin, r, now, input);
    }
  }

  /** So an abort or misfit during a scan is what it reports in the end. */
  lemma UpsetsAreReported(cfg: Config, pin: Option<u8>, ins: Inputs)
    requires ScanRun(cfg, pin, ins).m.state.Finished?
    ensures var r := ScanRun(cfg, pin, ins);
            var result := r.m.state.result;
            && (r.upset.Some? ==> result == ScanResult.Err(r.upset.value))
            && (r.upset.None? ==> result.Ok? || !(result.error.Aborted? || result.error.UnexpectedInput?))
  {
    assert CountSound(NewRig(pin));
    RunIsTold(cfg, pin, NewRig(pin), ins);
  }
}
