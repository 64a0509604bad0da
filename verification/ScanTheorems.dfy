/** What a scan's result means and what its teardown guarantees, over every run. */
module ScanTheorems {
  import opened Common
  import opened Scan
  import opened ScanRuns

  type Inputs = seq<(Duration, Input)>

  function ScanRun(cfg: Config, pin: Option<u8>, ins: Inputs): Rig {
    Run(cfg, NewRig(pin), ins)
  }

  lemma {:induction false} RunSnoc(cfg: Config, r: Rig, ins: Inputs, x: (Duration, Input))
    requires WellFormed(cfg, r.m)
    ensures WellFormed(cfg, Run(cfg, r, ins).m)
    ensures Run(cfg, r, ins + [x]) == Feed(cfg, Run(cfg, r, ins), x.0, x.1)
    decreases |ins|
  {
    if ins == [] {
      StepWellFormed(cfg, r.m, x.0, x.1);
      assert [] + [x] == [x];
    } else {
      StepWellFormed(cfg, r.m, ins[0].0, ins[0].1);
      RunSnoc(cfg, Feed(cfg, r, ins[0].0, ins[0].1), ins[1..], x);
      assert (ins + [x])[1..] == ins[1..] + [x];
    }
  }

  // ----- the result -----

  /** The scan without the machine: the first visit in list order that was confirmed. */
  function FirstConfirmed(cfg: Config, vs: seq<Visit>): nat {
    if vs == [] || Confirmed(cfg, vs[0]) then 0 else 1 + FirstConfirmed(cfg, vs[1..])
  }

  function SimpleSearch(cfg: Config, vs: seq<Visit>): ScanResult {
    var k := FirstConfirmed(cfg, vs);
    if k < |vs| then Ok(vs[k].channel) else Err(NotFound(CountTransmitted(vs, |vs|), |cfg.channels|))
  }

  lemma {:induction false} FirstConfirmedSpec(cfg: Config, vs: seq<Visit>, k: nat)
    requires k <= |vs| && (forall j :: 0 <= j < k ==> !Confirmed(cfg, vs[j]))
    requires k < |vs| ==> Confirmed(cfg, vs[k])
    ensures FirstConfirmed(cfg, vs) == k
    decreases k
  {
    if k > 0 {
      FirstConfirmedSpec(cfg, vs[1..], k - 1);
    }
  }

  lemma RejectedIsNotConfirmed(cfg: Config, v: Visit)
    requires Rejected(cfg, v)
    ensures !Confirmed(cfg, v)
  {
  }

  function CurrentCount(l: Log): nat {
    if l.current.Some? && Transmitted(l.current.value) then 1 else 0
  }

  predicate CountSound(r: Rig) {
    r.m.probed == CountTransmitted(r.log.past, |r.log.past|) + CurrentCount(r.log)
  }

  lemma {:induction false} CountLonger(vs: seq<Visit>, v: Visit, n: nat)
    requires n <= |vs|
    ensures CountTransmitted(vs + [v], n) == CountTransmitted(vs, n)
    decreases n
  {
    if n > 0 {
      CountLonger(vs, v, n - 1);
    }
  }

  lemma CountVisits(l: Log)
    ensures CountTransmitted(l.Visits(), |l.Visits()|) == CountTransmitted(l.past, |l.past|) + CurrentCount(l)
  {
    if l.current.Some? {
      CountLonger(l.past, l.current.value, |l.past|);
    } else {
      assert l.Visits() == l.past;
    }
  }

  lemma MovedCounts(r: Rig, now: Duration, next: (Machine, Action), probed: nat)
    requires probed == CountTransmitted(r.log.past, |r.log.past|) + CurrentCount(r.log) && next.0.probed == probed
    ensures CountSound(Moved(r, now, next))
  {
    CountVisits(r.log);
  }

  lemma FeedKeepsCount(cfg: Config, r: Rig, now: Duration, input: Input)
    requires WellFormed(cfg, r.m) && CountSound(r)
    requires Step(cfg, r.m, now, input).0.probed
             == r.m.probed - CurrentCount(r.log) + CurrentCount(Effect(r, input).log)
    ensures CountSound(Feed(cfg, r, now, input))
  {
    MovedCounts(Effect(r, input), now, Step(cfg, r.m, now, input), Step(cfg, r.m, now, input).0.probed);
  }

  /** `probed` moves exactly when the first answer of a visit says the probe went out. */
  lemma ProbedFollowsAnswers(cfg: Config, pin: Option<u8>, r: Rig, now: Duration, input: Input)
    requires Inv(cfg, pin, r) && WellFormed(cfg, r.m)
    ensures Step(cfg, r.m, now, input).0.probed == r.m.probed - CurrentCount(r.log) + CurrentCount(Effect(r, input).log)
  {
    if r.m.state.Probing? && input.Sent? {
      assert Effect(r, input).log.current.value.outcomes == [input.outcome];
    } else {
      OtherAnswersCountNothing(cfg, pin, r, input);
    }
  }

  lemma OtherAnswersCountNothing(cfg: Config, pin: Option<u8>, r: Rig, input: Input)
    requires Inv(cfg, pin, r) && !(r.m.state.Probing? && input.Sent?)
    ensures CurrentCount(Effect(r, input).log) == CurrentCount(r.log)
  {
    if r.m.state.Confirming? && input.Sent? {
      assert Effect(r, input).log.current.value.outcomes[0] == r.log.current.value.outcomes[0];
    }
  }

  lemma {:induction false} RunKeepsCount(cfg: Config, pin: Option<u8>, r: Rig, ins: Inputs)
    requires Inv(cfg, pin, r) && WellFormed(cfg, r.m) && CountSound(r)
    ensures CountSound(Run(cfg, r, ins))
    decreases |ins|
  {
    if ins != [] {
      FeedKeepsInv(cfg, pin, r, ins[0].0, ins[0].1);
      ProbedFollowsAnswers(cfg, pin, r, ins[0].0, ins[0].1);
      FeedKeepsCount(cfg, r, ins[0].0, ins[0].1);
      StepWellFormed(cfg, r.m, ins[0].0, ins[0].1);
      RunKeepsCount(cfg, pin, Feed(cfg, r, ins[0].0, ins[0].1), ins[1..]);
    }
  }

  /** In every run the channels visited are a prefix of the list, each was reached within the budget
      counted from the answer to `BoostTxPower`, and `probed` counts those whose first probe was
      transmitted. */
  lemma VisitsArePrefix(cfg: Config, pin: Option<u8>, ins: Inputs)
    ensures var r := ScanRun(cfg, pin, ins);
            && |r.log.Visits()| <= |cfg.channels|
            && (forall j :: 0 <= j < |r.log.Visits()| ==>
                  && r.log.Visits()[j].channel == cfg.channels[j]
                  && r.burstAt.Some? && InBudget(cfg, r.burstAt.value, r.log.Visits()[j].reached))
            && r.m.probed == CountTransmitted(r.log.Visits(), |r.log.Visits()|)
  {
    ScanInv(cfg, pin, ins);
    ScanBurst(cfg, pin, ins);
    RunKeepsCount(cfg, pin, NewRig(pin), ins);
    CountVisits(ScanRun(cfg, pin, ins).log);
  }

  predicate RegistrationFailed(result: ScanResult) {
    result.Err? && (result.error.RegisterTempPeer? || result.error.RegisterFoundPeer?)
  }

  /** The budget, counted from the answer to `BoostTxPower`, was over when power was restored, with a
      listed channel not visited. */
  predicate CutShort(cfg: Config, r: Rig) {
    Undivided(
      && |r.log.Visits()| < |cfg.channels| && r.log.restoredAt.Some?
      && r.burstAt.Some? && !InBudget(cfg, r.burstAt.value, r.log.restoredAt.value))
  }

  /** The same by the machine's own clock. */
  predicate Overrun(cfg: Config, r: Rig) {
    Undivided(
      && |r.log.Visits()| < |cfg.channels| && r.log.restoredAt.Some?
      && !InBudget(cfg, r.m.burstStart, r.log.restoredAt.value))
  }

  /** Without abort, misuse or a failed registration, the machine finds what the simple search
      finds: the first channel, in list order and reached within the budget, that could be set and
      whose first probe and confirmations were all acknowledged. Every channel it passed over could
      not be set or left a probe without acknowledgement, and it gives up only after passing over
      every listed channel, or every one the budget let it reach. */
  lemma ScanRefinesSearch(cfg: Config, pin: Option<u8>, ins: Inputs)
    requires ScanRun(cfg, pin, ins).m.state.Finished? && ScanRun(cfg, pin, ins).clean
    requires !RegistrationFailed(ScanRun(cfg, pin, ins).m.state.result)
    ensures var r := ScanRun(cfg, pin, ins);
            && r.m.state.result == SimpleSearch(cfg, r.log.Visits())
            && (forall j :: 0 <= j < |r.log.Visits()| && (r.m.state.result.Err? || j < |r.log.Visits()| - 1) ==>
                  Rejected(cfg, r.log.Visits()[j]))
            && (r.m.state.result.Err? ==>
                  if r.m.burstExpired then CutShort(cfg, r) else |r.log.Visits()| == |cfg.channels|)
  {
    var r := ScanRun(cfg, pin, ins);
    ScanInv(cfg, pin, ins);
    VisitsArePrefix(cfg, pin, ins);
    ScanBurst(cfg, pin, ins);
    var vs := r.log.Visits();
    forall j | 0 <= j < |r.log.past| ensures !Confirmed(cfg, vs[j]) {
      assert vs[j] == r.log.past[j];
      RejectedIsNotConfirmed(cfg, vs[j]);
    }
    if r.m.state.result.Ok? {
      assert vs[|r.log.past|] == r.log.current.value;
      FirstConfirmedSpec(cfg, vs, |r.log.past|);
    } else {
      if r.log.current.Some? {
        RejectedIsNotConfirmed(cfg, r.log.current.value);
      }
      FirstConfirmedSpec(cfg, vs, |vs|);
    }
  }

  lemma EffectKeepsVisits(r: Rig, input: Input)
    ensures |Effect(r, input).log.Visits()| == |r.log.Visits()|
    ensures Effect(r, input).log.restoredAt == r.log.restoredAt
  {
  }

  /** A step after which the burst counts as expired: it ended the burst just now, or is past it. */
  lemma ExpiringStep(cfg: Config, pin: Option<u8>, r: Rig, now: Duration, input: Input)
    requires Inv(cfg, pin, r) && WellFormed(cfg, r.m)
    ensures var (m', a) := Step(cfg, r.m, now, input);
            m'.burstExpired ==>
              if r.m.burstExpired then m'.burstStart == r.m.burstStart && !a.SetChannel? && !a.RestoreTxPower?
              else a.RestoreTxPower? && |r.log.Visits()| < |cfg.channels| && !InBudget(cfg, m'.burstStart, now)
  {
  }

  lemma FeedKeepsExpired(cfg: Config, pin: Option<u8>, r: Rig, now: Duration, input: Input)
    requires Inv(cfg, pin, r) && WellFormed(cfg, r.m) && (r.m.burstExpired ==> Overrun(cfg, r))
    ensures Feed(cfg, r, now, input).m.burstExpired ==> Overrun(cfg, Feed(cfg, r, now, input))
  {
    var (m', a) := Step(cfg, r.m, now, input);
    var r' := Feed(cfg, r, now, input);
    EffectKeepsVisits(r, input);
    ExpiringStep(cfg, pin, r, now, input);
    var l := Effect(r, input).log;
    assert m'.burstExpired ==> r'.log == if a.RestoreTxPower? then l.(restoredAt := Some(now)) else l;
  }

  lemma {:induction false} RunKeepsExpired(cfg: Config, pin: Option<u8>, r: Rig, ins: Inputs)
    requires Inv(cfg, pin, r) && WellFormed(cfg, r.m) && (r.m.burstExpired ==> Overrun(cfg, r))
    ensures Run(cfg, r, ins).m.burstExpired ==> Overrun(cfg, Run(cfg, r, ins))
    decreases |ins|
  {
    if ins != [] {
      FeedKeepsInv(cfg, pin, r, ins[0].0, ins[0].1);
      FeedKeepsExpired(cfg, pin, r, ins[0].0, ins[0].1);
      StepWellFormed(cfg, r.m, ins[0].0, ins[0].1);
      RunKeepsExpired(cfg, pin, Feed(cfg, r, ins[0].0, ins[0].1), ins[1..]);
    }
  }

  /** In every run `burst_expired` means that the budget was over with a listed channel left. For every
      scan that finished without abort or misuse it holds exactly if the peer was not found and a
      listed channel was not visited. */
  lemma BurstExpiredExactly(cfg: Config, pin: Option<u8>, ins: Inputs)
    ensures var r := ScanRun(cfg, pin, ins);
            && (r.m.burstExpired ==> CutShort(cfg, r))
            && (r.m.state.Finished? && r.clean ==>
                  (r.m.burstExpired <==>
                    && r.m.state.result.Err? && r.m.state.result.error.NotFound?
                    && |r.log.Visits()| < |cfg.channels|))
  {
    ScanInv(cfg, pin, ins);
    ScanBurst(cfg, pin, ins);
    RunKeepsExpired(cfg, pin, NewRig(pin), ins);
  }

  /** In every run the probe that is out goes to the channel of the current visit, which could be set,
      waits for the configured time, and is numbered by the acknowledgements of that visit, none of
      whose probes went unacknowledged. */
  lemma ProbesFollowVisits(cfg: Config, pin: Option<u8>, ins: Inputs)
    ensures var r := ScanRun(cfg, pin, ins);
            r.last.Some? && r.last.value.SendProbe? ==>
              && r.log.current.Some? && r.log.current.value.settable == Some(true)
              && AllAcked(r.log.current.value.outcomes) && |r.log.current.value.outcomes| <= cfg.confirmations
              && r.last.value
                 == SendProbe(r.log.current.value.channel, |r.log.current.value.outcomes|, cfg.probeTimeout)
  {
    ScanInv(cfg, pin, ins);
  }

  /** In every run an input counts as an answer exactly if it is one of the kinds the pending action
      can have. */
  lemma FitsExactly(cfg: Config, pin: Option<u8>, ins: Inputs, input: Input)
    ensures var r := ScanRun(cfg, pin, ins);
            Fits(r.m.state, input) <==>
              if r.last.None? then input.Start?
              else
                match r.last.value
                case SendProbe(_, _, _) => input.Sent?
                case WaitUntil(_) => input.Completed?
                case Done(_) => true
                case _ => input.Completed? || input.Failed?
  {
    ScanInv(cfg, pin, ins);
  }

  lemma SpacedStep(cfg: Config, m: Machine, acked: Duration, later: Duration)
    requires WellFormed(cfg, m) && (m.state.Probing? || m.state.Confirming?)
    requires var wait := Step(cfg, m, acked, Sent(Acked)).1; wait.WaitUntil? && later >= wait.deadline
    ensures var m1 := Step(cfg, m, acked, Sent(Acked)).0;
            var number := if m.state.Probing? then 1 else m.state.done + 2;
            && WellFormed(cfg, m1)
            && number <= cfg.confirmations
            && Step(cfg, m1, later, Completed).1 == SendProbe(cfg.channels[m.state.idx], number, cfg.probeTimeout)
            && (later >= acked + cfg.gap || later == MAX_DURATION)
  {
  }

  /** In every run, when probe number `n` on a channel was acknowledged and the machine waits, the next
      probe goes out on the same channel, is numbered one up, and leaves no earlier than the configured
      gap after the acknowledgement (or at the end of the clock), provided the caller does wait as long
      as it was told. */
  lemma ConfirmationsAreSpaced(cfg: Config, pin: Option<u8>, ins: Inputs, channel: u8, n: u8, acked: Duration,
          later: Duration)
    requires ScanRun(cfg, pin, ins).last == Some(SendProbe(channel, n, cfg.probeTimeout))
    requires var waiting := ScanRun(cfg, pin, ins + [(acked, Sent(Acked))]).last;
             waiting.Some? && waiting.value.WaitUntil? && later >= waiting.value.deadline
    ensures n < cfg.confirmations
    ensures ScanRun(cfg, pin, ins + [(acked, Sent(Acked))] + [(later, Completed)]).last
            == Some(SendProbe(channel, n + 1, cfg.probeTimeout))
    ensures later >= acked + cfg.gap || later == MAX_DURATION
  {
    var r := ScanRun(cfg, pin, ins);
    ScanInv(cfg, pin, ins);
    ProbeIsOut(cfg, pin, r, channel, n);
    RunSnoc(cfg, NewRig(pin), ins, (acked, Sent(Acked)));
    LastIsAction(cfg, r, (acked, Sent(Acked)));
    SpacedStep(cfg, r.m, acked, later);
    RunSnoc(cfg, NewRig(pin), ins + [(acked, Sent(Acked))], (later, Completed));
    LastIsAction(cfg, Feed(cfg, r, acked, Sent(Acked)), (later, Completed));
  }

  /** Which states have a probe out. */
  lemma ProbeIsOut(cfg: Config, pin: Option<u8>, r: Rig, channel: u8, n: u8)
    requires Inv(cfg, pin, r) && WellFormed(cfg, r.m) && r.last == Some(SendProbe(channel, n, cfg.probeTimeout))
    ensures (r.m.state.Probing? && n == 0) || (r.m.state.Confirming? && n == r.m.state.done + 1)
    ensures channel == cfg.channels[r.m.state.idx]
  {
  }

  lemma LastIsAction(cfg: Config, r: Rig, x: (Duration, Input))
    requires WellFormed(cfg, r.m)
    ensures var (m', a) := Step(cfg, r.m, x.0, x.1);
            Feed(cfg, r, x.0, x.1).m == m' && Feed(cfg, r, x.0, x.1).last == Some(a)
  {
  }

  // ----- the teardown -----

  /** However the scan ended, the pin is as given after a failure and the found channel after a
      success, and a success leaves both the radio and the peer on that listed channel. */
  lemma FinalStateSound(cfg: Config, pin: Option<u8>, ins: Inputs)
    requires ScanRun(cfg, pin, ins).m.state.Finished?
    ensures var r := ScanRun(cfg, pin, ins);
            match r.m.state.result
            case Ok(c) => r.m.pinned == Some(c) && c in cfg.channels && r.radio == Some(c) && r.peer == Some(c)
            case Err(_) => r.m.pinned == pin
  {
    ScanInv(cfg, pin, ins);
    var r := ScanRun(cfg, pin, ins);
    if r.m.state.result.Ok? {
      assert cfg.channels[|r.log.past|] == r.m.state.result.channel;
    }
  }

  lemma FailsFromFallback(cfg: Config, pin: u8, r: Rig, x: (Duration, Input))
    requires Inv(cfg, Some(pin), r) && WellFormed(cfg, r.m) && !r.m.state.Finished?
    requires Step(cfg, r.m, x.0, x.1).0.state.Finished? && Step(cfg, r.m, x.0, x.1).0.state.result.Err?
    requires Fits(r.m.state, x.1) || Running(r.m.state)
    ensures r.m.state.RegisteringFallback? && r.last == Some(RegisterFallbackPeer(pin))
  {
  }

  lemma FallbackFollowsRestore(cfg: Config, pin: u8, r: Rig, x: (Duration, Input))
    requires Inv(cfg, Some(pin), r) && WellFormed(cfg, r.m)
    requires Step(cfg, r.m, x.0, x.1).0.state.RegisteringFallback?
    ensures r.last == Some(RestoreChannel(pin))
  {
  }

  /** What of `Feed` the fallback needs. */
  lemma FedMachine(cfg: Config, r: Rig, x: (Duration, Input))
    requires WellFormed(cfg, r.m)
    ensures var r' := Feed(cfg, r, x.0, x.1);
            r'.m == Step(cfg, r.m, x.0, x.1).0 && (r'.calm ==> Fits(r.m.state, x.1) || Running(r.m.state))
  {
  }

  lemma FailureFallsBack(cfg: Config, pin: u8, ins: Inputs, x: (Duration, Input))
    requires var r := ScanRun(cfg, Some(pin), ins);
             var r' := ScanRun(cfg, Some(pin), ins + [x]);
             !r.m.state.Finished? && r'.m.state.Finished? && r'.m.state.result.Err? && r'.calm
    ensures ScanRun(cfg, Some(pin), ins).m.state.RegisteringFallback?
    ensures ScanRun(cfg, Some(pin), ins).last == Some(RegisterFallbackPeer(pin))
  {
    ScanInv(cfg, Some(pin), ins);
    RunSnoc(cfg, NewRig(Some(pin)), ins, x);
    var r := ScanRun(cfg, Some(pin), ins);
    FedMachine(cfg, r, x);
    FailsFromFallback(cfg, pin, r, x);
  }

  lemma FallbackRestoresFirst(cfg: Config, pin: u8, before: Inputs, y: (Duration, Input))
    requires ScanRun(cfg, Some(pin), before + [y]).m.state.RegisteringFallback?
    ensures ScanRun(cfg, Some(pin), before).last == Some(RestoreChannel(pin))
  {
    ScanInv(cfg, Some(pin), before);
    RunSnoc(cfg, NewRig(Some(pin)), before, y);
    var r := ScanRun(cfg, Some(pin), before);
    FedMachine(cfg, r, y);
    FallbackFollowsRestore(cfg, pin, r, y);
  }

  /** A scan that fails with a pin, and was not aborted or misfed before `Start` or during the
      teardown, ends by restoring the pinned channel and then registering the peer on it. */
  lemma FailedScanFallsBack(cfg: Config, pin: u8, ins: Inputs, x: (Duration, Input))
    requires var r := ScanRun(cfg, Some(pin), ins);
             var r' := ScanRun(cfg, Some(pin), ins + [x]);
             !r.m.state.Finished? && r'.m.state.Finished? && r'.m.state.result.Err? && r'.calm
    ensures ScanRun(cfg, Some(pin), ins).last == Some(RegisterFallbackPeer(pin))
    ensures ins != [] && ScanRun(cfg, Some(pin), ins[..|ins| - 1]).last == Some(RestoreChannel(pin))
  {
    FailureFallsBack(cfg, pin, ins, x);
    var before, y := ins[..|ins| - 1], ins[|ins| - 1];
    assert ins == before + [y];
    FallbackRestoresFirst(cfg, pin, before, y);
  }

  function Actions(cfg: Config, m: Machine, ins: Inputs): (acts: seq<Action>)
    requires WellFormed(cfg, m)
    ensures |acts| == |ins|
    decreases |ins|
  {
    if ins == [] then []
    else
      StepWellFormed(cfg, m, ins[0].0, ins[0].1);
      var next := Step(cfg, m, ins[0].0, ins[0].1);
      [next.1] + Actions(cfg, next.0, ins[1..])
  }

  function Final(cfg: Config, m: Machine, ins: Inputs): Machine
    requires WellFormed(cfg, m)
    decreases |ins|
  {
    if ins == [] then m
    else
      StepWellFormed(cfg, m, ins[0].0, ins[0].1);
      Final(cfg, Step(cfg, m, ins[0].0, ins[0].1).0, ins[1..])
  }

  function Restores(acts: seq<Action>): nat {
    if acts == [] then 0 else (if acts[0].RestoreTxPower? then 1 else 0) + Restores(acts[1..])
  }

  predicate Boosted(s: State) { s.Boosting? || InBurst(s) }
  predicate Unboosted(s: State) { s.Idle? || s.RemovingStale? || s.RegisteringTemp? }

  /** Boosting starts the boosted part of the scan and restoring ends it, and nothing else does. */
  lemma PowerStep(cfg: Config, m: Machine, now: Duration, input: Input)
    requires WellFormed(cfg, m)
    ensures var (m', a) := Step(cfg, m, now, input);
            && WellFormed(cfg, m')
            && (Unboosted(m.state) ==>
                  (a.BoostTxPower? <==> Boosted(m'.state)) && (Unboosted(m'.state) ==> !a.RestoreTxPower?))
            && (Boosted(m.state) ==>
                  !a.BoostTxPower? && !Unboosted(m'.state) && (a.RestoreTxPower? <==> !Boosted(m'.state)))
            && (!Pending(m.state) ==> !a.BoostTxPower? && !a.RestoreTxPower? && !Pending(m'.state))
  {
  }

  lemma {:induction false} RestoresOf(cfg: Config, m: Machine, ins: Inputs)
    requires WellFormed(cfg, m)
    ensures !Pending(m.state) ==> Restores(Actions(cfg, m, ins)) == 0 && !Pending(Final(cfg, m, ins).state)
    ensures Boosted(m.state) ==> Restores(Actions(cfg, m, ins)) == if Pending(Final(cfg, m, ins).state) then 0 else 1
    ensures !Unboosted(m.state) ==> BoostTxPower !in Actions(cfg, m, ins)
    decreases |ins|
  {
    if ins != [] {
      PowerStep(cfg, m, ins[0].0, ins[0].1);
      var next := Step(cfg, m, ins[0].0, ins[0].1);
      RestoresOf(cfg, next.0, ins[1..]);
      assert Actions(cfg, m, ins)[1..] == Actions(cfg, next.0, ins[1..]);
    }
  }

  /** The shape of a trace around its boost. */
  predicate RestoredOnceAfter(acts: seq<Action>, i: nat, over: bool)
    requires i < |acts|
  {
    && Restores(acts[..i]) == 0
    && Restores(acts[i + 1..]) == (if over then 1 else 0)
    && BoostTxPower !in acts[..i] && BoostTxPower !in acts[i + 1..]
  }

  lemma RestoredOnceCons(a: Action, rest: seq<Action>, i: nat, over: bool)
    requires i < |rest| && RestoredOnceAfter(rest, i, over) && !a.RestoreTxPower? && !a.BoostTxPower?
    ensures RestoredOnceAfter([a] + rest, i + 1, over)
  {
    assert ([a] + rest)[..i + 1] == [a] + rest[..i];
    assert ([a] + rest)[i + 2..] == rest[i + 1..];
  }

  /** Whatever is fed, a boost is followed by exactly one restore by the time the scan is done, and
      by none before the burst ends; there was none before it, and there is one boost at most. */
  lemma {:induction false} BoostIsRestoredOnce(cfg: Config, m: Machine, ins: Inputs, i: nat)
    requires WellFormed(cfg, m) && Unboosted(m.state)
    requires i < |ins| && Actions(cfg, m, ins)[i] == BoostTxPower
    ensures RestoredOnceAfter(Actions(cfg, m, ins), i, !Pending(Final(cfg, m, ins).state))
    decreases |ins|
  {
    PowerStep(cfg, m, ins[0].0, ins[0].1);
    var next := Step(cfg, m, ins[0].0, ins[0].1);
    var rest := Actions(cfg, next.0, ins[1..]);
    RestoresOf(cfg, next.0, ins[1..]);
    if i == 0 {
      assert Actions(cfg, m, ins)[1..] == rest;
    } else {
      assert Unboosted(next.0.state);
      BoostIsRestoredOnce(cfg, next.0, ins[1..], i - 1);
      RestoredOnceCons(next.1, rest, i - 1, !Pending(Final(cfg, m, ins).state));
    }
  }
}
