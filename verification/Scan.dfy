/** The ESP-NOW peer-scan machine (`espnow/scan.rs`), without the peer's address and the probe
    payload, which no decision reads. */
module Scan {
  import opened Common

  /** `core::time::Duration` in nanoseconds. */
  type Duration = d: nat | d <= MAX_DURATION
  const MAX_DURATION: nat := (TWO_64 - 1) * 1_000_000_000 + 999_999_999

  function SaturatingAdd(a: Duration, b: Duration): Duration {
    if a + b <= MAX_DURATION then a + b else MAX_DURATION
  }

  function SaturatingSub(a: Duration, b: Duration): Duration {
    if a >= b then a - b else 0
  }

  datatype Config = Config(
    channels: seq<u8>,
    probeTimeout: Duration,
    burstTimeout: Duration,
    confirmations: u8,
    gap: Duration)

  datatype SendOutcome = Acked | NoAck | Error

  datatype Input = Start | Completed | Failed | Abort | Sent(outcome: SendOutcome)

  datatype ScanError =
    | NotFound(probed: nat, configured: nat)
    | RegisterTempPeer
    | RegisterFoundPeer(channel: u8)
    | UnexpectedInput
    | Aborted

  datatype ScanResult = Ok(channel: u8) | Err(error: ScanError)

  datatype Action =
    | RemovePeer
    | RegisterPeer(channel: u8)
    | BoostTxPower
    | RestoreTxPower
    | SetChannel(channel: u8)
    | RestoreChannel(channel: u8)
    | RegisterFallbackPeer(channel: u8)
    | SendProbe(channel: u8, confirmation: u8, timeout: Duration)
    | WaitUntil(deadline: Duration)
    | Done(result: ScanResult)

  datatype State =
    | Idle
    | RemovingStale
    | RegisteringTemp
    | Boosting
    | SettingChannel(idx: nat)
    | Probing(idx: nat)
    | Gap(idx: nat, done: u8)
    | Confirming(idx: nat, done: u8)
    | RestoringTxPower(found: Option<u8>)
    | RemovingScanPeer(found: Option<u8>)
    | RegisteringFound(channel: u8)
    | RestoringChannel(pin: u8)
    | RegisteringFallback
    | Finished(result: ScanResult)

  datatype Machine = Machine(
    pinned: Option<u8>,
    state: State,
    burstStart: Duration,
    probed: nat,
    failure: Option<ScanError>,
    burstExpired: bool)

  function NewMachine(lastPinned: Option<u8>): Machine {
    Machine(lastPinned, Idle, 0, 0, None, false)
  }

  /** Positions stay inside the channel list and confirmations below the configured count. */
  predicate WellFormed(cfg: Config, m: Machine) {
    Undivided(
      match m.state
      case SettingChannel(idx) => idx < |cfg.channels|
      case Probing(idx) => idx < |cfg.channels|
      case Gap(idx, done) => idx < |cfg.channels| && done < cfg.confirmations
      case Confirming(idx, done) => idx < |cfg.channels| && done < cfg.confirmations
      case _ => true)
  }

  /** The scan is under way: giving up has to unwind. */
  predicate Running(s: State) {
    s.RemovingStale? || s.RegisteringTemp? || s.Boosting? || InBurst(s)
  }

  predicate InBurst(s: State) {
    s.SettingChannel? || s.Probing? || s.Gap? || s.Confirming?
  }

  // ----- what one poll does -----

  function FinishWith(m: Machine, result: ScanResult): (Machine, Action) {
    (m.(state := Finished(result)), Done(result))
  }

  function FinishNotFoundWith(cfg: Config, m: Machine): (Machine, Action) {
    FinishWith(m, Err(if m.failure.Some? then m.failure.value else NotFound(m.probed, |cfg.channels|)))
  }

  function FallBackWith(cfg: Config, m: Machine, error: ScanError): (Machine, Action) {
    var m' := m.(failure := Some(error));
    match m.pinned
    case Some(pin) => (m'.(state := RestoringChannel(pin)), RestoreChannel(pin))
    case None => FinishNotFoundWith(cfg, m')
  }

  function UnwindWith(m: Machine, error: ScanError): (Machine, Action) {
    if Running(m.state) then
      (m.(failure := Some(error), state := RestoringTxPower(None)), RestoreTxPower)
    else FinishWith(m, Err(error))
  }

  function BurstOver(cfg: Config, m: Machine, now: Duration): bool {
    SaturatingSub(now, m.burstStart) >= cfg.burstTimeout
  }

  function NextChannelFrom(cfg: Config, m: Machine, now: Duration, idx: nat): (Machine, Action) {
    if idx < |cfg.channels| && !BurstOver(cfg, m, now) then
      (m.(state := SettingChannel(idx)), SetChannel(cfg.channels[idx]))
    else
      var expired := BurstOver(cfg, m, now) && idx < |cfg.channels|;
      (m.(burstExpired := expired, state := RestoringTxPower(None)), RestoreTxPower)
  }

  function AfterAckOn(cfg: Config, m: Machine, now: Duration, idx: nat, done: u8): (Machine, Action)
    requires idx < |cfg.channels|
  {
    if done >= cfg.confirmations then
      (m.(state := RestoringTxPower(Some(cfg.channels[idx]))), RestoreTxPower)
    else
      (m.(state := Gap(idx, done)), WaitUntil(SaturatingAdd(now, cfg.gap)))
  }

  function ProbeOn(cfg: Config, idx: nat, confirmation: u8): Action
    requires idx < |cfg.channels|
  {
    SendProbe(cfg.channels[idx], confirmation, cfg.probeTimeout)
  }

  predicate Either(input: Input) { input.Completed? || input.Failed? }

  /** Success and failure of the previous action lead on alike. */
  predicate TakesEither(s: State) {
    || s.RemovingStale? || s.Boosting? || s.RestoringTxPower? || s.RemovingScanPeer?
    || s.RestoringChannel? || s.RegisteringFallback?
  }

  /** The input answers the previous action. */
  predicate Fits(s: State, input: Input) {
    match s
    case Idle => input.Start?
    case Probing(_) => input.Sent?
    case Confirming(_, _) => input.Sent?
    case Gap(_, _) => input.Completed?
    case Finished(_) => true
    case _ => Either(input)
  }

  function Step(cfg: Config, m: Machine, now: Duration, input: Input): (Machine, Action)
    requires WellFormed(cfg, m)
  {
    if m.state.Finished? then (m, Done(m.state.result))
    else if input.Abort? then UnwindWith(m, Aborted)
    else if !Fits(m.state, input) then UnwindWith(m, UnexpectedInput)
    else
      match m.state
      case Idle => (m.(state := RemovingStale), RemovePeer)
      case RemovingStale => (m.(state := RegisteringTemp), RegisterPeer(0))
      case RegisteringTemp =>
        if input.Completed? then (m.(state := Boosting), BoostTxPower) else FallBackWith(cfg, m, RegisterTempPeer)
      case Boosting => NextChannelFrom(cfg, m.(burstStart := now), now, 0)
      case SettingChannel(idx) =>
        if input.Completed? then (m.(state := Probing(idx)), ProbeOn(cfg, idx, 0))
        else NextChannelFrom(cfg, m, now, idx + 1)
      case Probing(idx) =>
        (match input.outcome
         case Error => NextChannelFrom(cfg, m, now, idx + 1)
         case NoAck => NextChannelFrom(cfg, m.(probed := m.probed + 1), now, idx + 1)
         case Acked => AfterAckOn(cfg, m.(probed := m.probed + 1), now, idx, 0))
      case Gap(idx, done) => (m.(state := Confirming(idx, done)), ProbeOn(cfg, idx, done + 1))
      case Confirming(idx, done) =>
        if input.outcome.Acked? then AfterAckOn(cfg, m, now, idx, done + 1) else NextChannelFrom(cfg, m, now, idx + 1)
      case RestoringTxPower(found) => (m.(state := RemovingScanPeer(found)), RemovePeer)
      case RemovingScanPeer(found) =>
        if found.Some? then (m.(state := RegisteringFound(found.value)), RegisterPeer(found.value))
        else if m.pinned.Some? then (m.(state := RestoringChannel(m.pinned.value)), RestoreChannel(m.pinned.value))
        else FinishNotFoundWith(cfg, m)
      case RegisteringFound(channel) =>
        if input.Completed? then FinishWith(m.(pinned := Some(channel)), Ok(channel))
        else FallBackWith(cfg, m, RegisterFoundPeer(channel))
      case RestoringChannel(pin) => (m.(state := RegisteringFallback), RegisterFallbackPeer(pin))
      case RegisteringFallback => FinishNotFoundWith(cfg, m)
  }

  lemma StepWellFormed(cfg: Config, m: Machine, now: Duration, input: Input)
    requires WellFormed(cfg, m)
    ensures WellFormed(cfg, Step(cfg, m, now, input).0)
  {
  }

  class ScanMachine {
    const config: Config
    var pinned: Option<u8>
    var state: State
    var burstStart: Duration
    var probed: nat
    var failure: Option<ScanError>
    var burstExpired: bool

    constructor (config: Config, lastPinned: Option<u8>)
      ensures this.config == config && Value() == NewMachine(lastPinned) && Valid()
    {
      this.config := config;
      pinned, state, burstStart, probed, failure, burstExpired := lastPinned, Idle, 0, 0, None, false;
    }

    function Value(): Machine
      reads this
    {
      Machine(pinned, state, burstStart, probed, failure, burstExpired)
    }

    predicate Valid()
      reads this
    {
      WellFormed(config, Value())
    }

    method Poll(now: Duration, input: Input) returns (action: Action)
      requires Valid()
      modifies this
      ensures Valid()
      ensures (Value(), action) == Step(config, old(Value()), now, input)
    {
      if state.Finished? {
        return Done(state.result);
      }
      if input.Abort? {
        action := Unwind(Aborted);
        return;
      }
      match (state, input) {
        case (Idle, Start) =>
          state := RemovingStale;
          return RemovePeer;
        case (RegisteringTemp, Completed) =>
          state := Boosting;
          return BoostTxPower;
        case (RegisteringTemp, Failed) =>
          action := FallBack(RegisterTempPeer);
          return;
        case (SettingChannel(idx), Completed) =>
          state := Probing(idx);
          return ProbeOn(config, idx, 0);
        case (SettingChannel(idx), Failed) =>
          action := NextChannel(now, idx + 1);
          return;
        case (Probing(idx), Sent(Error)) =>
          action := NextChannel(now, idx + 1);
          return;
        case (Probing(idx), Sent(NoAck)) =>
          probed := probed + 1;
          action := NextChannel(now, idx + 1);
          return;
        case (Probing(idx), Sent(Acked)) =>
          probed := probed + 1;
          action := AfterAck(now, idx, 0);
          return;
        case (Gap(idx, done), Completed) =>
          state := Confirming(idx, done);
          return ProbeOn(config, idx, done + 1);
        case (Confirming(idx, done), Sent(outcome)) =>
          if outcome == Acked {
            action := AfterAck(now, idx, done + 1);
          } else {
            action := NextChannel(now, idx + 1);
          }
          return;
        case (RegisteringFound(channel), Completed) =>
          pinned := Some(channel);
          action := Finish(Ok(channel));
          return;
        case (RegisteringFound(channel), Failed) =>
          action := FallBack(RegisterFoundPeer(channel));
          return;
        case _ =>
      }
      if TakesEither(state) && Either(input) {
        action := Proceed(now);
      } else {
        action := Unwind(UnexpectedInput);
      }
    }

    /** The states that take success and failure alike. */
    method Proceed(now: Duration) returns (action: Action)
      requires Valid() && TakesEither(state)
      modifies this
      ensures Valid()
      ensures (Value(), action) == Step(config, old(Value()), now, Completed)
              == Step(config, old(Value()), now, Failed)
    {
      match state {
        case RemovingStale =>
          state := RegisteringTemp;
          return RegisterPeer(0);
        case Boosting =>
          burstStart := now;
          action := NextChannel(now, 0);
        case RestoringTxPower(found) =>
          state := RemovingScanPeer(found);
          return RemovePeer;
        case RemovingScanPeer(Some(channel)) =>
          state := RegisteringFound(channel);
          return RegisterPeer(channel);
        case RemovingScanPeer(None) =>
          match pinned {
            case Some(pin) =>
              state := RestoringChannel(pin);
              return RestoreChannel(pin);
            case None =>
              action := FinishNotFound();
          }
        case RestoringChannel(pin) =>
          state := RegisteringFallback;
          return RegisterFallbackPeer(pin);
        case RegisteringFallback =>
          action := FinishNotFound();
      }
    }

    method Unwind(error: ScanError) returns (action: Action)
      modifies this
      ensures (Value(), action) == UnwindWith(old(Value()), error)
    {
      match state {
        case RemovingStale | RegisteringTemp | Boosting
          | SettingChannel(_) | Probing(_) | Gap(_, _) | Confirming(_, _) =>
          failure := Some(error);
          state := RestoringTxPower(None);
          action := RestoreTxPower;
        case _ => action := Finish(Err(error));
      }
    }

    method AfterAck(now: Duration, idx: nat, done: u8) returns (action: Action)
      requires idx < |config.channels|
      modifies this
      ensures (Value(), action) == AfterAckOn(config, old(Value()), now, idx, done)
    {
      if done >= config.confirmations {
        state := RestoringTxPower(Some(config.channels[idx]));
        action := RestoreTxPower;
      } else {
        state := Gap(idx, done);
        action := WaitUntil(SaturatingAdd(now, config.gap));
      }
    }

    method NextChannel(now: Duration, idx: nat) returns (action: Action)
      modifies this
      ensures (Value(), action) == NextChannelFrom(config, old(Value()), now, idx)
    {
      var burstOver := SaturatingSub(now, burstStart) >= config.burstTimeout;
      if idx < |config.channels| && !burstOver {
        state := SettingChannel(idx);
        action := SetChannel(config.channels[idx]);
      } else {
        burstExpired := burstOver && idx < |config.channels|;
        state := RestoringTxPower(None);
        action := RestoreTxPower;
      }
    }

    method FallBack(error: ScanError) returns (action: Action)
      modifies this
      ensures (Value(), action) == FallBackWith(config, old(Value()), error)
    {
      failure := Some(error);
      match pinned {
        case Some(pin) =>
          state := RestoringChannel(pin);
          action := RestoreChannel(pin);
        case None => action := FinishNotFound();
      }
    }

    method FinishNotFound() returns (action: Action)
      modifies this
      ensures (Value(), action) == FinishNotFoundWith(config, old(Value()))
    {
      var error := match failure case Some(e) => e case None => NotFound(probed, |config.channels|);
      action := Finish(Err(error));
    }

    method Finish(result: ScanResult) returns (action: Action)
      modifies this`state
      ensures (Value(), action) == FinishWith(old(Value()), result)
    {
      state := Finished(result);
      action := Done(result);
    }
  }
}
