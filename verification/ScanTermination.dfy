/** Every scan ends within a fixed number of polls, whatever it is fed. */
module ScanTermination {
  import opened Common
  import opened Scan

  /** Polls one channel can take: set it, probe it, and per confirmation wait and probe. */
  function PerChannel(cfg: Config): nat { 2 + 2 * cfg.confirmations }

  /** Polls `n` channels can take. */
  function PollsFor(cfg: Config, n: nat): nat {
    if n == 0 then 0 else PerChannel(cfg) + PollsFor(cfg, n - 1)
  }

  /** An upper bound on the polls left before `Done`. */
  function Rank(cfg: Config, m: Machine): nat
    requires WellFormed(cfg, m)
  {
    var n := |cfg.channels|;
    match m.state
    case Idle => 9 + PollsFor(cfg, n)
    case RemovingStale => 8 + PollsFor(cfg, n)
    case RegisteringTemp => 7 + PollsFor(cfg, n)
    case Boosting => 6 + PollsFor(cfg, n)
    case SettingChannel(idx) => 5 + PollsFor(cfg, n - idx)
    case Probing(idx) => 5 + PollsFor(cfg, n - idx - 1) + 1 + 2 * cfg.confirmations
    case Gap(idx, done) => 5 + PollsFor(cfg, n - idx - 1) + 2 * (cfg.confirmations - done)
    case Confirming(idx, done) => 5 + PollsFor(cfg, n - idx - 1) + 2 * (cfg.confirmations - done) - 1
    case RestoringTxPower(_) => 5
    case RemovingScanPeer(_) => 4
    case RegisteringFound(_) => 3
    case RestoringChannel(_) => 2
    case RegisteringFallback => 1
    case Finished(_) => 0
  }

  lemma NextChannelRank(cfg: Config, m: Machine, now: Duration, idx: nat)
    requires idx <= |cfg.channels|
    ensures WellFormed(cfg, NextChannelFrom(cfg, m, now, idx).0)
    ensures Rank(cfg, NextChannelFrom(cfg, m, now, idx).0) <= 5 + PollsFor(cfg, |cfg.channels| - idx)
  {
  }

  lemma AfterAckRank(cfg: Config, m: Machine, now: Duration, idx: nat, done: u8)
    requires idx < |cfg.channels| && done <= cfg.confirmations
    ensures WellFormed(cfg, AfterAckOn(cfg, m, now, idx, done).0)
    ensures Rank(cfg, AfterAckOn(cfg, m, now, idx, done).0)
            <= 5 + PollsFor(cfg, |cfg.channels| - idx - 1) + 2 * (cfg.confirmations - done)
  {
  }

  lemma SwitchStepLowersRank(cfg: Config, m: Machine, now: Duration, input: Input)
    requires WellFormed(cfg, m) && m.state.SettingChannel?
    ensures WellFormed(cfg, Step(cfg, m, now, input).0)
    ensures Rank(cfg, Step(cfg, m, now, input).0) < Rank(cfg, m)
  {
    NextChannelRank(cfg, m, now, m.state.idx + 1);
  }

  lemma ProbeStepLowersRank(cfg: Config, m: Machine, now: Duration, input: Input)
    requires WellFormed(cfg, m) && m.state.Probing?
    ensures WellFormed(cfg, Step(cfg, m, now, input).0)
    ensures Rank(cfg, Step(cfg, m, now, input).0) < Rank(cfg, m)
  {
    var idx, m1 := m.state.idx, m.(probed := m.probed + 1);
    match input
    case Sent(Error) =>
      assert Step(cfg, m, now, input) == NextChannelFrom(cfg, m, now, idx + 1);
      NextChannelRank(cfg, m, now, idx + 1);
    case Sent(NoAck) =>
      assert Step(cfg, m, now, input) == NextChannelFrom(cfg, m1, now, idx + 1);
      NextChannelRank(cfg, m1, now, idx + 1);
    case Sent(Acked) =>
      assert Step(cfg, m, now, input) == AfterAckOn(cfg, m1, now, idx, 0);
      AfterAckRank(cfg, m1, now, idx, 0);
    case _ =>
      assert Step(cfg, m, now, input).0.state == RestoringTxPower(None);
  }

  lemma GapStepLowersRank(cfg: Config, m: Machine, now: Duration, input: Input)
    requires WellFormed(cfg, m) && m.state.Gap?
    ensures WellFormed(cfg, Step(cfg, m, now, input).0)
    ensures Rank(cfg, Step(cfg, m, now, input).0) < Rank(cfg, m)
  {
    if input.Completed? {
      assert Step(cfg, m, now, input).0.state == Confirming(m.state.idx, m.state.done);
    } else {
      assert Step(cfg, m, now, input).0.state == RestoringTxPower(None);
    }
  }

  lemma ConfirmStepLowersRank(cfg: Config, m: Machine, now: Duration, input: Input)
    requires WellFormed(cfg, m) && m.state.Confirming?
    ensures WellFormed(cfg, Step(cfg, m, now, input).0)
    ensures Rank(cfg, Step(cfg, m, now, input).0) < Rank(cfg, m)
  {
    var idx, done := m.state.idx, m.state.done;
    if input == Sent(Acked) {
      assert Step(cfg, m, now, input) == AfterAckOn(cfg, m, now, idx, done + 1);
      AfterAckRank(cfg, m, now, idx, done + 1);
    } else if input.Sent? {
      assert Step(cfg, m, now, input) == NextChannelFrom(cfg, m, now, idx + 1);
      NextChannelRank(cfg, m, now, idx + 1);
    } else {
      assert Step(cfg, m, now, input).0.state == RestoringTxPower(None);
    }
  }

  lemma BoostStepLowersRank(cfg: Config, m: Machine, now: Duration, input: Input)
    requires WellFormed(cfg, m) && m.state.Boosting?
    ensures WellFormed(cfg, Step(cfg, m, now, input).0)
    ensures Rank(cfg, Step(cfg, m, now, input).0) < Rank(cfg, m)
  {
    NextChannelRank(cfg, m.(burstStart := now), now, 0);
  }

  lemma StartStepLowersRank(cfg: Config, m: Machine, now: Duration, input: Input)
    requires WellFormed(cfg, m) && (m.state.Idle? || m.state.RemovingStale? || m.state.RegisteringTemp?)
    ensures WellFormed(cfg, Step(cfg, m, now, input).0)
    ensures Rank(cfg, Step(cfg, m, now, input).0) < Rank(cfg, m)
  {
  }

  lemma TeardownStepLowersRank(cfg: Config, m: Machine, now: Duration, input: Input)
    requires WellFormed(cfg, m) && !m.state.Idle? && !Running(m.state) && !m.state.Finished?
    ensures WellFormed(cfg, Step(cfg, m, now, input).0)
    ensures Rank(cfg, Step(cfg, m, now, input).0) < Rank(cfg, m)
  {
  }

  lemma StepLowersRank(cfg: Config, m: Machine, now: Duration, input: Input)
    requires WellFormed(cfg, m) && !m.state.Finished?
    ensures WellFormed(cfg, Step(cfg, m, now, input).0)
    ensures Rank(cfg, Step(cfg, m, now, input).0) < Rank(cfg, m)
  {
    match m.state
    case Idle | RemovingStale | RegisteringTemp => StartStepLowersRank(cfg, m, now, input);
    case Boosting => BoostStepLowersRank(cfg, m, now, input);
    case SettingChannel(_) => SwitchStepLowersRank(cfg, m, now, input);
    case Probing(_) => ProbeStepLowersRank(cfg, m, now, input);
    case Gap(_, _) => GapStepLowersRank(cfg, m, now, input);
    case Confirming(_, _) => ConfirmStepLowersRank(cfg, m, now, input);
    case _ => TeardownStepLowersRank(cfg, m, now, input);
  }

  function Exec(cfg: Config, m: Machine, ins: seq<(Duration, Input)>): (r: Machine)
    requires WellFormed(cfg, m)
    ensures WellFormed(cfg, r)
    decreases |ins|
  {
    if ins == [] then m
    else
      StepWellFormed(cfg, m, ins[0].0, ins[0].1);
      Exec(cfg, Step(cfg, m, ins[0].0, ins[0].1).0, ins[1..])
  }

  lemma {:induction false} EndsWithin(cfg: Config, m: Machine, ins: seq<(Duration, Input)>)
    requires WellFormed(cfg, m) && |ins| >= Rank(cfg, m)
    ensures Exec(cfg, m, ins).state.Finished?
    decreases |ins|
  {
    if ins != [] {
      if !m.state.Finished? {
        StepLowersRank(cfg, m, ins[0].0, ins[0].1);
      }
      EndsWithin(cfg, Step(cfg, m, ins[0].0, ins[0].1).0, ins[1..]);
    }
  }

  lemma {:induction false} PollsForIsProduct(cfg: Config, n: nat)
    ensures PollsFor(cfg, n) == n * PerChannel(cfg)
  {
    if n > 0 {
      PollsForIsProduct(cfg, n - 1);
    }
  }

  /** A new machine is done after `9 + channels * (2 + 2 * confirmations)` polls at the latest, and
      stays done with the same result. */
  lemma ScanTerminates(cfg: Config, pin: Option<u8>, ins: seq<(Duration, Input)>, more: (Duration, Input))
    requires |ins| >= 9 + |cfg.channels| * (2 + 2 * cfg.confirmations)
    ensures var m := Exec(cfg, NewMachine(pin), ins);
            m.state.Finished? && Step(cfg, m, more.0, more.1) == (m, Done(m.state.result))
  {
    PollsForIsProduct(cfg, |cfg.channels|);
    EndsWithin(cfg, NewMachine(pin), ins);
  }

  /** The confirmation number of a probe stays a `u8`: it never exceeds the configured count. */
  lemma ConfirmationNumberFits(cfg: Config, m: Machine, now: Duration, input: Input)
    requires WellFormed(cfg, m)
    ensures var a := Step(cfg, m, now, input).1; a.SendProbe? ==> a.confirmation <= cfg.confirmations
  {
  }
}
