/** The MQTT session lifecycle (`mqtt/session.rs`) and the gate that feeds it (`mqtt/gate.rs`). */
module Session {
  import opened Common

  datatype Input =
    | NetworkUp
    | NetworkDown
    | AttemptStarted
    | Connected(sessionPresent: bool)
    | WorkDone(token: u32)
    | WorkFailed(token: u32)
    | Disconnected
    | RetryElapsed
    | Shutdown

  datatype Action =
    | NoAction
    | Connect
    | ConnectWork(token: u32, subscribe: bool)
    | Close
    | Wait(ms: u64)

  datatype Phase =
    | Starting
    | Offline
    | Connecting
    | Working(token: u32)
    | Ready
    | Retrying
    | Closing(driverIdle: bool)
    | ShutDown

  datatype ConnectionState = Disconnected | Connecting | Connected | ShuttingDown

  datatype Machine = Machine(
    phase: Phase,
    networkUp: bool,
    generation: u32,
    connects: u32,
    subscribed: bool,
    retryMs: u64)
  {
    /** The observable session state. */
    function State(): ConnectionState {
      match phase
      case Starting | Connecting | Working(_) => ConnectionState.Connecting
      case Ready => ConnectionState.Connected
      case Offline | Retrying | Closing(_) => ConnectionState.Disconnected
      case ShutDown => ShuttingDown
    }

    predicate CanPublish() { phase == Ready }
    predicate IsCurrent(token: u32) { phase == Working(token) }
    predicate DriverIdle() { phase == Closing(true) }
  }

  function NewMachine(retryMs: u64): Machine {
    Machine(Starting, false, 0, 0, false, retryMs)
  }

  predicate HoldsTransport(p: Phase) { p.Connecting? || p.Working? || p.Ready? }

  function Step(m: Machine, input: Input): (Machine, Action) {
    if m.phase.ShutDown? then (m, NoAction)
    else
      match input
      case Shutdown => (m.(phase := ShutDown), if HoldsTransport(m.phase) || m.phase.Retrying? then Close else NoAction)
      case NetworkUp =>
        if m.phase.Starting? || m.phase.Offline? then (m.(networkUp := true, phase := Phase.Connecting), Connect)
        else (m.(networkUp := true), NoAction)
      case NetworkDown =>
        if HoldsTransport(m.phase) then (m.(networkUp := false, phase := Closing(false)), Close)
        else if m.phase.Retrying? then (m.(networkUp := false, phase := Closing(true)), Close)
        else (m.(networkUp := false), NoAction)
      case AttemptStarted =>
        if m.phase.Retrying? then (m.(phase := Phase.Connecting), NoAction)
        else if m.phase.Starting? || m.phase.Offline? then (m.(phase := Closing(false)), Close)
        else (m, NoAction)
      case Connected(present) =>
        if m.phase.Connecting? then
          var token := WrappingAdd32(m.generation, 1);
          var subscribe := !(present && m.subscribed);
          (m.(generation := token, phase := Working(token), subscribed := m.subscribed && !subscribe),
           ConnectWork(token, subscribe))
        else (m, NoAction)
      case WorkDone(token) =>
        if m.phase == Working(token) then
          (m.(subscribed := true, phase := Ready, connects := WrappingAdd32(m.connects, 1)), NoAction)
        else (m, NoAction)
      case WorkFailed(token) =>
        if m.phase == Working(token) then (m.(phase := Closing(false)), Close) else (m, NoAction)
      case Disconnected =>
        if HoldsTransport(m.phase) || m.phase.Closing? then
          if m.networkUp then (m.(phase := Retrying), Wait(m.retryMs)) else (m.(phase := Offline), NoAction)
        else (m, NoAction)
      case RetryElapsed =>
        if m.phase.Retrying? then (m.(phase := Phase.Connecting), Connect) else (m, NoAction)
  }

  class SessionMachine {
    var phase: Phase
    var networkUp: bool
    var generation: u32
    var connects: u32
    var subscribed: bool
    const retryMs: u64

    constructor (retryMs: u64)
      ensures Value() == NewMachine(retryMs)
    {
      phase, networkUp, generation, connects, subscribed := Starting, false, 0, 0, false;
      this.retryMs := retryMs;
    }

    function Value(): Machine
      reads this
    {
      Machine(phase, networkUp, generation, connects, subscribed, retryMs)
    }

    method Poll(input: Input) returns (action: Action)
      modifies this
      ensures (Value(), action) == Step(old(Value()), input)
    {
      if phase == ShutDown {
        return NoAction;
      }
      match input {
        case Shutdown =>
          var busy := phase.Connecting? || phase.Working? || phase.Ready? || phase.Retrying?;
          phase := ShutDown;
          return if busy then Close else NoAction;
        case NetworkUp =>
          networkUp := true;
          if phase == Starting || phase == Offline {
            phase := Phase.Connecting;
            return Connect;
          }
        case NetworkDown =>
          networkUp := false;
          if phase.Connecting? || phase.Working? || phase.Ready? {
            phase := Closing(false);
            return Close;
          }
          if phase == Retrying {
            phase := Closing(true);
            return Close;
          }
        case AttemptStarted =>
          if phase == Retrying {
            phase := Phase.Connecting;
          } else if phase == Starting || phase == Offline {
            phase := Closing(false);
            return Close;
          }
        case Connected(present) =>
          if phase == Phase.Connecting {
            generation := WrappingAdd32(generation, 1);
            var token := generation;
            phase := Working(token);
            var subscribe := !(present && subscribed);
            if subscribe {
              subscribed := false;
            }
            return ConnectWork(token, subscribe);
          }
        case WorkDone(token) =>
          if phase == Working(token) {
            subscribed := true;
            phase := Ready;
            connects := WrappingAdd32(connects, 1);
          }
        case WorkFailed(token) =>
          if phase == Working(token) {
            phase := Closing(false);
            return Close;
          }
        case Disconnected =>
          if phase.Connecting? || phase.Working? || phase.Ready? || phase.Closing? {
            if networkUp {
              phase := Retrying;
              return Wait(retryMs);
            }
            phase := Offline;
          }
        case RetryElapsed =>
          if phase == Retrying {
            phase := Phase.Connecting;
            return Connect;
          }
      }
      return NoAction;
    }
  }

  // ----- the gate -----

  function GateFeed(up: bool, ready: bool): Option<Input> {
    if ready == up then None else Some(if ready then NetworkUp else NetworkDown)
  }

  class NetworkGate {
    var up: bool

    constructor ()
      ensures !up
    {
      up := false;
    }

    method Feed(ready: bool) returns (edge: Option<Input>)
      modifies this
      ensures up == ready && edge == GateFeed(old(up), ready)
    {
      if ready == up {
        return None;
      }
      up := ready;
      edge := Some(if ready then NetworkUp else NetworkDown);
    }
  }
}
