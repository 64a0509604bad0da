/** How long the radio can stay boosted. */
module ScanTiming {
  import opened Common
  import opened Scan
  import opened ScanRuns

  /** The longest a channel switch and a probe may take, and how late a wake-up may be. */
  datatype Limits = Limits(switch: nat, probe: nat, late: nat)

  /** The clock never runs backwards, and the poll that answers `last` comes within its limit. */
  predicate OnTime(lim: Limits, last: Option<Action>, at: Duration, now: Duration) {
    && at <= now
    && (last.Some? ==>
          match last.value
          case SetChannel(_) => now <= at + lim.switch
          case SendProbe(_, _, _) => now <= at + lim.probe
          case WaitUntil(deadline) => now <= (if at <= deadline then deadline else at) + lim.late
          case _ => true)
  }

  predicate Timely(cfg: Config, lim: Limits, r: Rig, at: Duration, ins: seq<(Duration, Input)>)
    requires WellFormed(cfg, r.m)
    decreases |ins|
  {
    ins == [] ||
    (StepWellFormed(cfg, r.m, ins[0].0, ins[0].1);
     OnTime(lim, r.last, at, ins[0].0)
     && Timely(cfg, lim, Feed(cfg, r, ins[0].0, ins[0].1), ins[0].0, ins[1..]))
  }

  /** `n` confirmations: wait out the gap, then probe. */
  function Rounds(cfg: Config, lim: Limits, n: nat): nat {
    if n == 0 then 0 else Rounds(cfg, lim, n - 1) + cfg.gap + lim.late + lim.probe
  }

  lemma {:induction false} RoundsGrow(cfg: Config, lim: Limits, n: nat, m: nat)
    requires n <= m
    ensures Rounds(cfg, lim, n) <= Rounds(cfg, lim, m)
    decreases m
  {
    if n < m {
      RoundsGrow(cfg, lim, n, m - 1);
    }
  }

  lemma {:induction false} RoundsIsProduct(cfg: Config, lim: Limits, n: nat)
    ensures Rounds(cfg, lim, n) == n * (cfg.gap + lim.late) + n * lim.probe
  {
    if n > 0 {
      RoundsIsProduct(cfg, lim, n - 1);
      assert n * (cfg.gap + lim.late) == (n - 1) * (cfg.gap + lim.late) + (cfg.gap + lim.late);
      assert n * lim.probe == (n - 1) * lim.probe + lim.probe;
    }
  }

  /** By when, counted from the start of the burst, the pending action was issued at the latest. */
  function IssuedBy(cfg: Config, lim: Limits, s: State): nat
    requires InBurst(s)
  {
    match s
    case SettingChannel(_) => cfg.burstTimeout
    case Probing(_) => cfg.burstTimeout + lim.switch
    case Gap(_, done) => cfg.burstTimeout + lim.switch + lim.probe + Rounds(cfg, lim, done)
    case Confirming(_, done) =>
      cfg.burstTimeout + lim.switch + lim.probe + Rounds(cfg, lim, done) + cfg.gap + lim.late
  }

  function Budget(cfg: Config, lim: Limits): nat {
    cfg.burstTimeout + lim.switch + lim.probe + Rounds(cfg, lim, cfg.confirmations)
  }

  /** The pending action matches the state. */
  predicate LastFits(cfg: Config, s: State, last: Option<Action>, at: Duration) {
    match s
    case SettingChannel(_) => last.Some? && last.value.SetChannel?
    case Probing(_) => last.Some? && last.value.SendProbe?
    case Gap(_, _) => last.Some? && last.value.WaitUntil? && last.value.deadline <= at + cfg.gap
    case Confirming(_, _) => last.Some? && last.value.SendProbe?
    case _ => true
  }

  predicate OnSchedule(cfg: Config, lim: Limits, r: Rig, at: Duration) {
    Undivided(
      && LastFits(cfg, r.m.state, r.last, at)
      && (InBurst(r.m.state) ==> r.m.burstStart <= at < r.m.burstStart + IssuedBy(cfg, lim, r.m.state))
      && (Pending(r.m.state) ==> r.log.restoredAt.None?)
      && (Pending(r.m.state) && !InBurst(r.m.state) ==> r.log.current.None?)
      && (r.log.restoredAt.Some? && r.log.current.Some? ==> r.log.restoredAt.value < r.m.burstStart + Budget(cfg, lim)))
  }

  /** In the burst the answer to the pending action arrives within the whole budget. */
  lemma AnswerInBudget(cfg: Config, lim: Limits, r: Rig, at: Duration, now: Duration)
    requires WellFormed(cfg, r.m) && OnSchedule(cfg, lim, r, at) && InBurst(r.m.state) && OnTime(lim, r.last, at, now)
    ensures r.m.burstStart <= now < r.m.burstStart + Budget(cfg, lim)
    ensures r.m.state.SettingChannel? ==> now < r.m.burstStart + cfg.burstTimeout + lim.switch
    ensures r.m.state.Probing? ==> now < r.m.burstStart + cfg.burstTimeout + lim.switch + lim.probe
    ensures r.m.state.Gap? ==> now < r.m.burstStart + IssuedBy(cfg, lim, Confirming(r.m.state.idx, r.m.state.done))
    ensures r.m.state.Confirming? ==>
              now < r.m.burstStart + cfg.burstTimeout + lim.switch + lim.probe + Rounds(cfg, lim, r.m.state.done + 1)
  {
    if r.m.state.Gap? || r.m.state.Confirming? {
      RoundsGrow(cfg, lim, r.m.state.done + 1, cfg.confirmations);
    }
  }

  /** Outside the burst a step neither moves its start nor, once torn down, restores again. */
  lemma QuietStep(cfg: Config, m: Machine, now: Duration, input: Input)
    requires WellFormed(cfg, m) && !InBurst(m.state) && !m.state.Boosting?
    ensures var (m', a) := Step(cfg, m, now, input);
            && m'.burstStart == m.burstStart && !a.SetChannel? && !InBurst(m'.state)
            && (!Pending(m.state) ==> !Pending(m'.state) && !a.RestoreTxPower?)
            && (Pending(m.state) ==> (a.RestoreTxPower? ==> !Pending(m'.state)))
  {
  }

  /** A step of the burst stays in it, issuing the next timed action, or ends it by restoring. */
  lemma BurstStep(cfg: Config, m: Machine, now: Duration, input: Input)
    requires WellFormed(cfg, m) && InBurst(m.state)
    ensures var (m', a) := Step(cfg, m, now, input); BurstMoves(cfg, m, m', a, now)
  {
  }

  /** How a machine step of the burst relates two states. */
  predicate BurstMoves(cfg: Config, m: Machine, m': Machine, a: Action, now: Duration) {
    && m'.burstStart == m.burstStart
    && (InBurst(m'.state) <==> !a.RestoreTxPower?) && (InBurst(m'.state) <==> Pending(m'.state))
    && LastFits(cfg, m'.state, Some(a), now)
    && (m'.state.SettingChannel? ==> !BurstOver(cfg, m, now))
    && (m'.state.Probing? ==> m.state.SettingChannel?)
    && (m'.state.Gap? ==> if m'.state.done == 0 then m.state.Probing?
                          else m.state == Confirming(m'.state.idx, m'.state.done - 1))
    && (m'.state.Confirming? ==> m.state == Gap(m'.state.idx, m'.state.done))
  }

  /** What `Feed` does to the parts the schedule looks at. */
  predicate Follows(r: Rig, r': Rig, m': Machine, a: Action, now: Duration) {
    && r'.m == m' && r'.last == Some(a)
    && r'.log.restoredAt == (if a.RestoreTxPower? then Some(now) else r.log.restoredAt)
    && r'.log.current.Some? == (a.SetChannel? || r.log.current.Some?)
  }

  lemma MoveKeepsSchedule(cfg: Config, lim: Limits, r: Rig, r': Rig, at: Duration, now: Duration, m': Machine,
          a: Action)
    requires WellFormed(cfg, r.m) && OnSchedule(cfg, lim, r, at) && OnTime(lim, r.last, at, now)
    requires InBurst(r.m.state) && BurstMoves(cfg, r.m, m', a, now) && Follows(r, r', m', a, now)
    ensures OnSchedule(cfg, lim, r', now)
  {
    AnswerInBudget(cfg, lim, r, at, now);
  }

  lemma BurstKeepsSchedule(cfg: Config, lim: Limits, r: Rig, at: Duration, now: Duration, input: Input)
    requires WellFormed(cfg, r.m) && OnSchedule(cfg, lim, r, at) && OnTime(lim, r.last, at, now)
    requires InBurst(r.m.state)
    ensures OnSchedule(cfg, lim, Feed(cfg, r, now, input), now)
  {
    BurstStep(cfg, r.m, now, input);
    FeedParts(cfg, r, now, input);
    var (m', a) := Step(cfg, r.m, now, input);
    MoveKeepsSchedule(cfg, lim, r, Feed(cfg, r, now, input), at, now, m', a);
  }

  lemma FeedParts(cfg: Config, r: Rig, now: Duration, input: Input)
    requires WellFormed(cfg, r.m)
    ensures var (m', a) := Step(cfg, r.m, now, input); Follows(r, Feed(cfg, r, now, input), m', a, now)
  {
  }

  lemma BoostKeepsSchedule(cfg: Config, lim: Limits, r: Rig, at: Duration, now: Duration, input: Input)
    requires WellFormed(cfg, r.m) && OnSchedule(cfg, lim, r, at) && OnTime(lim, r.last, at, now)
    requires r.m.state.Boosting?
    ensures OnSchedule(cfg, lim, Feed(cfg, r, now, input), now)
  {
    var (m', a) := Step(cfg, r.m, now, input);
    assert (m'.state == SettingChannel(0) && a.SetChannel? && m'.burstStart == now && cfg.burstTimeout > 0)
           || (a.RestoreTxPower? && !Pending(m'.state));
    FeedParts(cfg, r, now, input);
  }

  lemma TeardownKeepsSchedule(cfg: Config, lim: Limits, r: Rig, at: Duration, now: Duration, input: Input)
    requires WellFormed(cfg, r.m) && OnSchedule(cfg, lim, r, at) && OnTime(lim, r.last, at, now)
    requires !Pending(r.m.state)
    ensures OnSchedule(cfg, lim, Feed(cfg, r, now, input), now)
  {
    QuietStep(cfg, r.m, now, input);
    var l := Effect(r, input).log;
    assert l.restoredAt == r.log.restoredAt && l.current.Some? == r.log.current.Some?;
    var next := Step(cfg, r.m, now, input);
    var r' := Feed(cfg, r, now, input);
    assert r'.m == next.0 && r'.log == if next.1.RestoreTxPower? then l.(restoredAt := Some(now)) else l;
  }

  lemma StartKeepsSchedule(cfg: Config, lim: Limits, r: Rig, at: Duration, now: Duration, input: Input)
    requires WellFormed(cfg, r.m) && OnSchedule(cfg, lim, r, at) && OnTime(lim, r.last, at, now)
    requires Pending(r.m.state) && !InBurst(r.m.state) && !r.m.state.Boosting?
    ensures OnSchedule(cfg, lim, Feed(cfg, r, now, input), now)
  {
    QuietStep(cfg, r.m, now, input);
    var l := Effect(r, input).log;
    assert l.restoredAt == r.log.restoredAt && l.current.Some? == r.log.current.Some?;
    var next := Step(cfg, r.m, now, input);
    var r' := Feed(cfg, r, now, input);
    assert r'.m == next.0 && r'.log == if next.1.RestoreTxPower? then l.(restoredAt := Some(now)) else l;
  }

  lemma FeedKeepsSchedule(cfg: Config, lim: Limits, r: Rig, at: Duration, now: Duration, input: Input)
    requires WellFormed(cfg, r.m) && OnSchedule(cfg, lim, r, at) && OnTime(lim, r.last, at, now)
    ensures OnSchedule(cfg, lim, Feed(cfg, r, now, input), now)
  {
    if InBurst(r.m.state) {
      BurstKeepsSchedule(cfg, lim, r, at, now, input);
    } else if r.m.state.Boosting? {
      BoostKeepsSchedule(cfg, lim, r, at, now, input);
    } else if Pending(r.m.state) {
      StartKeepsSchedule(cfg, lim, r, at, now, input);
    } else {
      TeardownKeepsSchedule(cfg, lim, r, at, now, input);
    }
  }

  lemma {:induction false} RunKeepsSchedule(cfg: Config, lim: Limits, r: Rig, at: Duration, ins: seq<(Duration, Input)>)
      returns (end: Duration)
    requires WellFormed(cfg, r.m) && OnSchedule(cfg, lim, r, at) && Timely(cfg, lim, r, at, ins)
    ensures OnSchedule(cfg, lim, Run(cfg, r, ins), end)
    decreases |ins|
  {
    end := at;
    if ins != [] {
      FeedKeepsSchedule(cfg, lim, r, at, ins[0].0, ins[0].1);
      StepWellFormed(cfg, r.m, ins[0].0, ins[0].1);
      end := RunKeepsSchedule(cfg, lim, Feed(cfg, r, ins[0].0, ins[0].1), ins[0].0, ins[1..]);
    }
  }

  /** Once a channel was switched to, the boosted burst ends (found, exhausted, aborted or misfed)
      before `burst_timeout + S + (1 + c) * P + c * (gap + E)` has passed since the answer to
      `BoostTxPower`. */
  lemma BurstEndsInTime(cfg: Config, lim: Limits, pin: Option<u8>, at: Duration, ins: seq<(Duration, Input)>)
    requires Timely(cfg, lim, NewRig(pin), at, ins)
    ensures var r := Run(cfg, NewRig(pin), ins);
            var c := cfg.confirmations;
            r.log.current.Some? && r.log.restoredAt.Some? ==>
              && r.burstAt.Some?
              && r.log.restoredAt.value < r.burstAt.value + cfg.burstTimeout + lim.switch
                                          + (1 + c) * lim.probe + c * (cfg.gap + lim.late)
  {
    ScanBurst(cfg, pin, ins);
    var end := RunKeepsSchedule(cfg, lim, NewRig(pin), at, ins);
    RoundsIsProduct(cfg, lim, cfg.confirmations);
    var c := cfg.confirmations;
    assert (1 + c) * lim.probe == lim.probe + c * lim.probe;
  }

  // ----- bursts without a channel -----

  /** A burst that switched to no channel is over at the poll that starts it. */
  predicate OverAtOnce(r: Rig) {
    && (Pending(r.m.state) ==> r.log.restoredAt.None?)
    && (r.clean && r.log.restoredAt.Some? && r.log.current.None? ==> r.log.restoredAt.value == r.m.burstStart)
  }

  /** How power can be restored before any channel was switched to. */
  lemma RestoresAtOnce(cfg: Config, pin: Option<u8>, r: Rig, now: Duration, input: Input)
    requires Inv(cfg, pin, r) && WellFormed(cfg, r.m) && r.log.current.None?
    ensures var (m', a) := Step(cfg, r.m, now, input);
            && (a.RestoreTxPower? ==> Pending(r.m.state) && (!Fits(r.m.state, input) || m'.burstStart == now))
            && (Pending(m'.state) ==> Pending(r.m.state) && !a.RestoreTxPower?)
            && (!Pending(r.m.state) ==> m'.burstStart == r.m.burstStart)
            && (Pending(r.m.state) && !Pending(m'.state) ==> a.RestoreTxPower? || r.m.burstStart == m'.burstStart)
  {
  }

  lemma FeedKeepsOverAtOnce(cfg: Config, pin: Option<u8>, r: Rig, now: Duration, input: Input)
    requires Inv(cfg, pin, r) && WellFormed(cfg, r.m) && OverAtOnce(r)
    ensures OverAtOnce(Feed(cfg, r, now, input))
  {
    FeedParts(cfg, r, now, input);
    PendingStep(cfg, r.m, now, input);
    var r' := Feed(cfg, r, now, input);
    assert r'.clean == (r.clean && Fits(r.m.state, input));
    if r.log.current.None? {
      RestoresAtOnce(cfg, pin, r, now, input);
    }
  }

  lemma PendingStep(cfg: Config, m: Machine, now: Duration, input: Input)
    requires WellFormed(cfg, m)
    ensures var (m', a) := Step(cfg, m, now, input); Pending(m'.state) ==> Pending(m.state) && !a.RestoreTxPower?
  {
  }

  lemma {:induction false} RunKeepsOverAtOnce(cfg: Config, pin: Option<u8>, r: Rig, ins: seq<(Duration, Input)>)
    requires Inv(cfg, pin, r) && WellFormed(cfg, r.m) && OverAtOnce(r)
    ensures OverAtOnce(Run(cfg, r, ins))
    decreases |ins|
  {
    if ins != [] {
      FeedKeepsInv(cfg, pin, r, ins[0].0, ins[0].1);
      FeedKeepsOverAtOnce(cfg, pin, r, ins[0].0, ins[0].1);
      StepWellFormed(cfg, r.m, ins[0].0, ins[0].1);
      RunKeepsOverAtOnce(cfg, pin, Feed(cfg, r, ins[0].0, ins[0].1), ins[1..]);
    }
  }

  /** Where no channel was switched to, because the list is empty or the budget zero, power is restored
      at the very poll that starts the burst, in every run without abort or misuse. */
  lemma EmptyBurstEndsAtOnce(cfg: Config, pin: Option<u8>, ins: seq<(Duration, Input)>)
    ensures var r := Run(cfg, NewRig(pin), ins);
            r.clean && r.log.restoredAt.Some? && r.log.current.None? ==> r.log.restoredAt == r.burstAt
  {
    ScanBurst(cfg, pin, ins);
    RunKeepsOverAtOnce(cfg, pin, NewRig(pin), ins);
  }
}
