/** The session lifecycle as its caller sees it: what every input must be answered with, and what the
    machine shows, told from the inputs and the earlier answers alone. */
module SessionHistory {
  import opened Common
  import opened Session
  import SessionRuns

  datatype History = History(
    over: bool,           // `Shutdown` was fed
    link: bool,           // the network came up and did not go down since
    begun: bool,          // an attempt was ever under way
    open: bool,           // an attempt or session is under way: no end was reported since it began
    closing: bool,        // a `Close` was ordered and no end was reported since
    pausing: bool,        // a `Wait` was ordered and nothing was started or closed since
    work: Option<u32>,    // the connect work ordered for the session and not reported on
    usable: bool,         // the work of the session under way was done
    held: bool,           // the latest connect work that had to subscribe was done
    sessions: nat,        // connect works ordered
    readied: nat)         // sessions whose work was done

  const NothingYet: History := History(false, false, false, false, false, false, None, false, false, 0, 0)

  /** What the caller knows after `input` was answered with `action`. */
  function Seen(h: History, input: Input, action: Action): History {
    if h.over then h
    else
      var reported := input.WorkDone? && h.work == Some(input.token);
      var ends := input.Disconnected? || action.Close?;
      var starts := action.Connect? || (input.AttemptStarted? && !h.closing);
      History(
        over := input.Shutdown?,
        link := input.NetworkUp? || (h.link && !input.NetworkDown?),
        begun := h.begun || starts,
        open := starts || (h.open && !input.Disconnected?),
        closing := action.Close? || (h.closing && !input.Disconnected?),
        pausing := action.Wait? || (h.pausing && !action.Close? && !starts),
        work := if action.ConnectWork? then Some(action.token)
                else if ends || reported then None else h.work,
        usable := reported || (h.usable && !ends),
        held := reported || (h.held && !(action.ConnectWork? && action.subscribe)),
        sessions := h.sessions + (if action.ConnectWork? then 1 else 0),
        readied := h.readied + (if reported then 1 else 0))
  }

  predicate AtRest(h: History) { !h.open && !h.closing && !h.pausing }
  predicate Connecting(h: History) { h.open && !h.closing && h.work.None? && !h.usable }
  predicate Active(h: History) { (h.open && !h.closing) || h.pausing }

  function Watch(m: Machine, h: History, ins: seq<Input>): (Machine, History)
    decreases |ins|
  {
    if ins == [] then (m, h)
    else
      var (m', action) := Step(m, ins[0]);
      Watch(m', Seen(h, ins[0], action), ins[1..])
  }

  /** Work and use belong to an attempt under way, and nothing is closed or paused before a first one. */
  predicate Sensible(h: History) {
    && (h.work.Some? || h.usable ==> h.open && !h.closing)
    && (h.open || h.closing || h.pausing ==> h.begun)
    && !(h.work.Some? && h.usable) && !(h.pausing && (h.open || h.closing))
  }

  /** The machine's phase, read off the history. */
  predicate Shows(m: Machine, h: History) {
    && (m.phase.ShutDown? <==> h.over)
    && (!h.over ==> Sensible(h))
    && (!h.over ==>
          && m.networkUp == h.link && m.subscribed == h.held
          && (m.phase == Starting <==> AtRest(h) && !h.begun)
          && (m.phase == Offline <==> AtRest(h) && h.begun)
          && (m.phase.Connecting? <==> Connecting(h))
          && (m.phase.Working? <==> h.work.Some?) && (m.phase.Working? ==> h.work == Some(m.phase.token))
          && (m.phase == Ready <==> h.usable)
          && (m.phase == Retrying <==> h.pausing)
          && (m.phase.Closing? <==> h.closing) && (m.phase.Closing? ==> m.phase.driverIdle == !h.open))
    && m.generation == h.sessions % TWO_32 && m.connects == h.readied % TWO_32
  }

  lemma StepShows(m: Machine, h: History, x: Input)
    requires Shows(m, h)
    ensures Shows(Step(m, x).0, Seen(h, x, Step(m, x).1))
  {
  }

  lemma {:induction false} WatchShows(m: Machine, h: History, ins: seq<Input>)
    requires Shows(m, h)
    ensures var (m', h') := Watch(m, h, ins); Undivided(Shows(m', h')) && m'.retryMs == m.retryMs
    decreases |ins|
  {
    if ins != [] {
      StepShows(m, h, ins[0]);
      WatchShows(Step(m, ins[0]).0, Seen(h, ins[0], Step(m, ins[0]).1), ins[1..]);
    }
  }

  /** In every run the accessors say what happened: the four session states, the publish gate, the
      current connect work, the number of sessions that became ready, and whether the driver that is
      being closed has nothing under way. */
  lemma AccessorsTellHistory(retryMs: u64, ins: seq<Input>, token: u32)
    ensures var (m, h) := Watch(NewMachine(retryMs), NothingYet, ins);
            && (m.State() == ShuttingDown <==> h.over)
            && (!h.over ==>
                  && (m.State() == ConnectionState.Connected <==> h.usable)
                  && (m.State() == ConnectionState.Connecting <==>
                        !h.begun || (h.open && !h.closing && !h.usable))
                  && (m.CanPublish() <==> h.usable)
                  && (m.IsCurrent(token) <==> h.work == Some(token))
                  && (m.DriverIdle() <==> h.closing && !h.open))
            && (h.over ==> !m.CanPublish() && !m.IsCurrent(token) && !m.DriverIdle())
            && m.connects == h.readied % TWO_32
  {
    WatchShows(NewMachine(retryMs), NothingYet, ins);
  }

  /** When the transport has to be closed: on loss of the network or shutdown while an attempt, a
      session or a pause is under way and not being closed already, when the current connect work
      failed, and when the driver starts an attempt nobody asked for. */
  predicate MustClose(h: History, x: Input) {
    match x
    case Shutdown | NetworkDown => Active(h)
    case AttemptStarted => AtRest(h)
    case WorkFailed(token) => h.work == Some(token)
    case _ => false
  }

  predicate MustConnect(h: History, x: Input) {
    (x.NetworkUp? && AtRest(h)) || (x.RetryElapsed? && h.pausing)
  }

  /** In every run each input is answered by what its history demands, and by nothing else. */
  lemma AnswersExactly(retryMs: u64, ins: seq<Input>, x: Input)
    ensures var (m, h) := Watch(NewMachine(retryMs), NothingYet, ins);
            var a := Step(m, x).1;
            && (a == Close <==> !h.over && MustClose(h, x))
            && (a == Connect <==> !h.over && MustConnect(h, x))
            && (a.Wait? <==> !h.over && x.Disconnected? && h.link && (h.open || h.closing))
            && (a.Wait? ==> a.ms == retryMs)
            && (a.ConnectWork? <==> !h.over && x.Connected? && Connecting(h))
            && (a.ConnectWork? ==>
                  a.token == (h.sessions + 1) % TWO_32 && a.subscribe == !(x.sessionPresent && h.held))
  {
    WatchShows(NewMachine(retryMs), NothingYet, ins);
  }

  /** The two ledgers agree on what is under way. */
  lemma {:induction false} SameOpen(t: SessionRuns.Trace, h: History, ins: seq<Input>)
    requires Shows(t.m, h) && (!h.over ==> t.open == h.open)
    ensures var (m, h') := Watch(t.m, h, ins);
            var t' := SessionRuns.Run(t, ins);
            t'.m == m && (!h'.over ==> t'.open == h'.open)
    decreases |ins|
  {
    if ins != [] {
      StepShows(t.m, h, ins[0]);
      SameOpen(SessionRuns.Feed(t, ins[0]), Seen(h, ins[0], Step(t.m, ins[0]).1), ins[1..]);
    }
  }

  /** In every run `Close` is ordered exactly when the machine begins to close, or shuts down while an
      attempt, a session or a retry pause is under way that is not being closed already. */
  lemma CloseExactly(retryMs: u64, ins: seq<Input>, x: Input)
    ensures var t := SessionRuns.Run(SessionRuns.NewTrace(retryMs), ins);
            var (m', a) := Step(t.m, x);
            a == Close <==>
              || (m'.phase.Closing? && !t.m.phase.Closing?)
              || (m'.State().ShuttingDown? && !t.m.State().ShuttingDown? && !t.m.phase.Closing?
                  && (t.open || t.m.phase.Retrying?))
  {
    SameOpen(SessionRuns.NewTrace(retryMs), NothingYet, ins);
    WatchShows(NewMachine(retryMs), NothingYet, ins);
    SessionRuns.RunKeepsInv(SessionRuns.NewTrace(retryMs), ins);
  }
}
