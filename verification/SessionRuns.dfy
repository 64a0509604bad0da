/** What the session machine keeps over any sequence of inputs, and with the gate in front of it. */
module SessionRuns {
  import opened Common
  import opened Session

  /** A machine and what was fed to it. */
  datatype Trace = Trace(
    m: Machine,
    sessions: nat,          // `Connected` inputs that started connect work
    connected: nat,         // `Connect` actions issued
    ended: nat,             // `Disconnected` inputs consumed
    ready: nat,             // times the session became ready
    open: bool)             // an attempt or session began and no `Disconnected` was consumed since

  function NewTrace(retryMs: u64): Trace { Trace(NewMachine(retryMs), 0, 0, 0, 0, false) }

  predicate Consumes(m: Machine, input: Input) {
    input.Disconnected? && (HoldsTransport(m.phase) || m.phase.Closing?)
  }

  predicate Opens(m: Machine, input: Input, action: Action) {
    action.Connect? || (input.AttemptStarted? && (m.phase.Retrying? || m.phase.Starting? || m.phase.Offline?))
  }

  function Feed(t: Trace, input: Input): Trace {
    var (m', action) := Step(t.m, input);
    Trace(m',
          t.sessions + (if action.ConnectWork? then 1 else 0),
          t.connected + (if action.Connect? then 1 else 0),
          t.ended + (if Consumes(t.m, input) then 1 else 0),
          t.ready + (if m'.phase.Ready? && !t.m.phase.Ready? then 1 else 0),
          if Opens(t.m, input, action) then true else if Consumes(t.m, input) then false else t.open)
  }

  function Run(t: Trace, ins: seq<Input>): Trace
    decreases |ins|
  {
    if ins == [] then t else Run(Feed(t, ins[0]), ins[1..])
  }

  predicate Inv(t: Trace) {
    Undivided(
      && t.m.generation == t.sessions % TWO_32
      && t.m.connects == t.ready % TWO_32
      && (t.m.phase.Working? ==> t.m.phase.token == t.m.generation)
      && (HoldsTransport(t.m.phase) || t.m.phase.Retrying? ==> t.m.networkUp)
      && (t.m.phase.Starting? || t.m.phase.Offline? ==> !t.m.networkUp)
      && (!t.m.phase.ShutDown? ==>
            (t.open <==> HoldsTransport(t.m.phase) || t.m.phase == Closing(false)))
      && t.connected <= t.ended + (if t.open then 1 else 0))
  }

  lemma FeedKeepsInv(t: Trace, input: Input)
    requires Inv(t)
    ensures Inv(Feed(t, input))
  {
  }

  lemma {:induction false} RunKeepsInv(t: Trace, ins: seq<Input>)
    requires Inv(t)
    ensures Inv(Run(t, ins))
    decreases |ins|
  {
    if ins != [] {
      FeedKeepsInv(t, ins[0]);
      RunKeepsInv(Feed(t, ins[0]), ins[1..]);
    }
  }

  /** The network gate: work goes on only with the link up, the machine rests only with it down,
      and connect work always belongs to the latest session. */
  lemma PhasesFollowNetwork(retryMs: u64, ins: seq<Input>)
    ensures var m := Run(NewTrace(retryMs), ins).m;
            && (m.phase.Connecting? || m.phase.Working? || m.phase.Ready? || m.phase.Retrying? ==> m.networkUp)
            && (m.phase.Starting? || m.phase.Offline? ==> !m.networkUp)
            && (m.phase.Working? ==> m.phase.token == m.generation)
  {
    RunKeepsInv(NewTrace(retryMs), ins);
  }

  /** The transport a `Close` leaves behind: the driver is idle exactly when nothing was opened
      since the last end it reported, so the tier has to report the end itself. */
  lemma DriverIdleExactly(retryMs: u64, ins: seq<Input>)
    ensures var t := Run(NewTrace(retryMs), ins);
            t.m.DriverIdle() <==> t.m.phase.Closing? && !t.open
  {
    RunKeepsInv(NewTrace(retryMs), ins);
  }

  lemma RunCons(t: Trace, ins: seq<Input>)
    requires ins != []
    ensures Run(t, ins) == Run(Feed(t, ins[0]), ins[1..])
  {
  }

  lemma {:induction false} RunAppend(t: Trace, a: seq<Input>, b: seq<Input>)
    ensures Run(t, a + b) == Run(Run(t, a), b)
    decreases |a|
  {
    if a == [] {
      assert a + b == b;
    } else {
      assert (a + b)[0] == a[0] && (a + b)[1..] == a[1..] + b;
      RunCons(t, a);
      RunCons(t, a + b);
      RunAppend(Feed(t, a[0]), a[1..], b);
    }
  }

  /** Between two `Connect` actions a `Disconnected` was consumed. */
  lemma ConnectsAreSeparated(retryMs: u64, a: seq<Input>, x: Input, b: seq<Input>, y: Input)
    requires Step(Run(NewTrace(retryMs), a).m, x).1 == Connect
    requires Step(Run(NewTrace(retryMs), a + [x] + b).m, y).1 == Connect
    ensures Run(NewTrace(retryMs), a + [x]).ended < Run(NewTrace(retryMs), a + [x] + b).ended
  {
    var t := Run(NewTrace(retryMs), a);
    RunKeepsInv(NewTrace(retryMs), a);
    RunAppend(NewTrace(retryMs), a, [x]);
    RunAppend(NewTrace(retryMs), a + [x], b);
    assert Run(t, [x]) == Feed(t, x);
    FeedKeepsInv(t, x);
    var u := Feed(t, x);
    RunKeepsInv(u, b);
    EndsKeepOpen(u, b);
  }

  /** An open attempt is closed only by a consumed `Disconnected`. */
  lemma {:induction false} EndsKeepOpen(t: Trace, ins: seq<Input>)
    requires Inv(t)
    ensures t.ended <= Run(t, ins).ended
    ensures t.open && t.ended == Run(t, ins).ended ==> Run(t, ins).open
    decreases |ins|
  {
    if ins != [] {
      FeedKeepsInv(t, ins[0]);
      EndsKeepOpen(Feed(t, ins[0]), ins[1..]);
    }
  }

  lemma {:induction false} PauseNeverChanges(t: Trace, ins: seq<Input>)
    ensures Run(t, ins).m.retryMs == t.m.retryMs
    decreases |ins|
  {
    if ins != [] {
      PauseNeverChanges(Feed(t, ins[0]), ins[1..]);
    }
  }

  /** Retry pacing: in every run an end with the network up is answered by exactly the configured
      pause, an end with the network down by none, and an attempt starts only when the network comes
      up or such a pause is over. The connect counter is the number of times the session got ready. */
  lemma AttemptsArePaced(retryMs: u64, ins: seq<Input>, x: Input)
    ensures var t := Run(NewTrace(retryMs), ins);
            var (m', action) := Step(t.m, x);
            && (action.Wait? <==> Consumes(t.m, x) && t.m.networkUp)
            && (action.Wait? ==> action.ms == retryMs && m'.phase.Retrying?)
            && (action.Connect? ==> (x.NetworkUp? && !t.m.networkUp) || (x.RetryElapsed? && t.m.phase.Retrying?))
            && t.m.connects == t.ready % TWO_32
  {
    RunKeepsInv(NewTrace(retryMs), ins);
    PauseNeverChanges(NewTrace(retryMs), ins);
  }

  /** The publish gate: it opens only when the connect work of the current session is done, stays open
      at most as long as the network is up, and is what the observable state calls connected. */
  lemma GateOpensByWork(retryMs: u64, ins: seq<Input>, x: Input)
    ensures var t := Run(NewTrace(retryMs), ins);
            var m' := Step(t.m, x).0;
            && (t.m.CanPublish() <==> t.m.State().Connected?)
            && (t.m.CanPublish() ==> t.m.networkUp)
            && (!t.m.CanPublish() ==> (m'.CanPublish() <==> x.WorkDone? && t.m.IsCurrent(x.token)))
  {
    RunKeepsInv(NewTrace(retryMs), ins);
  }

  // ----- stale connect work -----

  /** The token of the i-th session. */
  function TokenOf(i: nat): u32 { i % TWO_32 }

  /** Connect work that starts a session carries the token of its number. */
  lemma SessionsAreNumbered(retryMs: u64, ins: seq<Input>, x: Input)
    ensures var t := Run(NewTrace(retryMs), ins);
            var action := Step(t.m, x).1;
            action.ConnectWork? ==>
              action.token == TokenOf(Feed(t, x).sessions) && Feed(t, x).sessions == t.sessions + 1
  {
    RunKeepsInv(NewTrace(retryMs), ins);
  }

  /** In every phase of every run, what the work of the i-th session reports is taken exactly if the
      latest session works and the two are a multiple of 2^32 sessions apart; otherwise it is ignored
      and nothing changes. In particular work of any of the 2^32 - 1 sessions before is ignored. */
  lemma StaleWorkIgnoredExactly(retryMs: u64, ins: seq<Input>, i: nat)
    requires i <= Run(NewTrace(retryMs), ins).sessions
    ensures var t := Run(NewTrace(retryMs), ins);
            var taken := t.m.phase.Working? && (t.sessions - i) % TWO_32 == 0;
            && (Step(t.m, WorkDone(TokenOf(i))) == (t.m, NoAction) <==> !taken)
            && (Step(t.m, WorkFailed(TokenOf(i))) == (t.m, NoAction) <==> !taken)
            && (t.sessions - TWO_32 < i < t.sessions ==> !taken)
  {
    RunKeepsInv(NewTrace(retryMs), ins);
    SameToken(Run(NewTrace(retryMs), ins).sessions, i);
  }

  /** Two sessions share a token exactly if they are a multiple of 2^32 apart. */
  lemma SameToken(s: nat, i: nat)
    requires i <= s
    ensures TokenOf(s) == TokenOf(i) <==> (s - i) % TWO_32 == 0
    ensures s - TWO_32 < i < s ==> (s - i) % TWO_32 != 0
  {
  }

  /** One more session on a network that stays up. */
  lemma NextSession(t: Trace)
    requires t.m.phase.Working? && t.m.networkUp
    ensures var t' := Run(t, [Input.Disconnected, RetryElapsed, Input.Connected(false)]);
            t'.m.phase.Working? && t'.m.networkUp && t'.sessions == t.sessions + 1
  {
    var ins := [Input.Disconnected, RetryElapsed, Input.Connected(false)];
    RunCons(t, ins);
    assert ins[1..] == [RetryElapsed, Input.Connected(false)];
    RunCons(Feed(t, ins[0]), ins[1..]);
    assert ins[1..][1..] == [Input.Connected(false)];
    RunCons(Feed(Feed(t, ins[0]), ins[1]), ins[2..]);
  }

  /** A device can have any number of sessions. */
  lemma {:induction false} AnyNumberOfSessions(retryMs: u64, n: nat) returns (ins: seq<Input>)
    requires n > 0
    ensures var t := Run(NewTrace(retryMs), ins);
            t.m.phase.Working? && t.m.networkUp && t.sessions == n
  {
    if n == 1 {
      ins := [NetworkUp, Input.Connected(false)];
      RunCons(NewTrace(retryMs), ins);
      assert ins[1..] == [Input.Connected(false)];
      RunCons(Feed(NewTrace(retryMs), ins[0]), ins[1..]);
    } else {
      var before := AnyNumberOfSessions(retryMs, n - 1);
      var more := [Input.Disconnected, RetryElapsed, Input.Connected(false)];
      NextSession(Run(NewTrace(retryMs), before));
      RunAppend(NewTrace(retryMs), before, more);
      ins := before + more;
    }
  }

  /** The failing run: 2^32 sessions after the i-th one, its late report makes the machine ready. */
  lemma StaleWorkIsTaken(retryMs: u64, i: nat) returns (ins: seq<Input>)
    requires i > 0
    ensures Run(NewTrace(retryMs), ins).sessions == i + TWO_32
    ensures Step(Run(NewTrace(retryMs), ins).m, WorkDone(TokenOf(i))).0.CanPublish()
  {
    ins := AnyNumberOfSessions(retryMs, i + TWO_32);
    RunKeepsInv(NewTrace(retryMs), ins);
    assert (i + TWO_32) % TWO_32 == i % TWO_32;
  }

  // ----- the gate in front of the machine -----

  /** Feeds one observation through the gate. */
  function Observe(up: bool, t: Trace, ready: bool): (bool, Trace) {
    match GateFeed(up, ready)
    case None => (ready, t)
    case Some(input) => (ready, Feed(t, input))
  }

  /** What happens at the adapter: an observation of the link, or any other event. */
  datatype Event = Link(ready: bool) | Other(input: Input)

  predicate NotNetwork(input: Input) { !input.NetworkUp? && !input.NetworkDown? }

  predicate Driven(es: seq<Event>) {
    forall k :: 0 <= k < |es| && es[k].Other? ==> NotNetwork(es[k].input)
  }

  function Drive(up: bool, t: Trace, es: seq<Event>): (bool, Trace)
    decreases |es|
  {
    if es == [] then (up, t)
    else
      match es[0]
      case Link(ready) => var (up', t') := Observe(up, t, ready); Drive(up', t', es[1..])
      case Other(input) => Drive(up, Feed(t, input), es[1..])
  }

  function LastLink(up: bool, es: seq<Event>): bool
    decreases |es|
  {
    if es == [] then up
    else if es[|es| - 1].Link? then es[|es| - 1].ready
    else LastLink(up, es[..|es| - 1])
  }

  lemma {:induction false} LastLinkFirst(up: bool, es: seq<Event>)
    requires es != []
    ensures LastLink(up, es) == LastLink(if es[0].Link? then es[0].ready else up, es[1..])
    decreases |es|
  {
    if |es| > 1 {
      LastLinkFirst(up, es[..|es| - 1]);
      assert es[..|es| - 1][1..] == es[1..][..|es[1..]| - 1];
    }
  }

  /** Until shutdown the machine's network flag is the last observation. */
  lemma {:induction false} FlagTracksLink(up: bool, t: Trace, es: seq<Event>)
    requires Driven(es) && t.m.networkUp == up && !Drive(up, t, es).1.m.phase.ShutDown?
    ensures Drive(up, t, es).0 == LastLink(up, es) && Drive(up, t, es).1.m.networkUp == LastLink(up, es)
    decreases |es|
  {
    if es != [] {
      LastLinkFirst(up, es);
      if t.m.phase.ShutDown? {
        ShutDownStays(up, t, es);
      }
      match es[0]
      case Link(ready) => FlagTracksLink(ready, Observe(up, t, ready).1, es[1..]);
      case Other(input) => FlagTracksLink(up, Feed(t, input), es[1..]);
    }
  }

  lemma {:induction false} ShutDownStays(up: bool, t: Trace, es: seq<Event>)
    requires t.m.phase.ShutDown?
    ensures Drive(up, t, es).1.m.phase.ShutDown?
    decreases |es|
  {
    if es != [] {
      match es[0]
      case Link(ready) => ShutDownStays(ready, Observe(up, t, ready).1, es[1..]);
      case Other(input) => ShutDownStays(up, Feed(t, input), es[1..]);
    }
  }

  /** The edges the gate emits for a sequence of observations. */
  function Edges(up: bool, readings: seq<bool>): seq<Input>
    decreases |readings|
  {
    if readings == [] then []
    else
      match GateFeed(up, readings[0])
      case None => Edges(up, readings[1..])
      case Some(input) => [input] + Edges(readings[0], readings[1..])
  }

  function Changes(up: bool, readings: seq<bool>): nat
    decreases |readings|
  {
    if readings == [] then 0
    else (if readings[0] != up then 1 else 0) + Changes(readings[0], readings[1..])
  }

  /** The gate emits one edge per change, strictly alternating and starting with the first change:
      up first from a closed gate. */
  lemma {:induction false} EdgesAlternate(up: bool, readings: seq<bool>)
    ensures |Edges(up, readings)| == Changes(up, readings)
    ensures forall k :: 0 <= k < |Edges(up, readings)| ==>
              Edges(up, readings)[k] == if (k % 2 == 0) == up then NetworkDown else NetworkUp
    decreases |readings|
  {
    if readings != [] {
      EdgesAlternate(readings[0], readings[1..]);
    }
  }
}
