/** The session machine, an adapter that follows its contract, and a broker that tells the truth
    about the sessions it keeps. Shows what `subscribed` is worth. */
module SessionBroker {
  import opened Common
  import opened Session

  /** A topic filter the application wants subscribed. */
  type Filter = nat

  datatype World = World(
    m: Machine,
    session: Option<set<Filter>>, // what the broker keeps for this client
    live: bool,                   // the broker holds a network connection to this client
    sent: set<Filter>,            // subscribed since the latest connect work was ordered
    needs: bool)                  // that work was told to subscribe

  function Start(retryMs: u64): World { World(NewMachine(retryMs), None, false, {}, false) }

  datatype Event =
    | Accept             // the broker answers a CONNECT and `Connected` is fed
    | Lose               // the connection dies; the machine is not told yet
    | Discard            // the broker forgets the session of a dead connection
    | Subscribe(f: Filter)
    | Feed(input: Input) // any other input

  /** Honesty: `session_present` is true exactly for a kept session (see `Next`), and the work of
      the current token is reported done only after it subscribed everything it was told to. What the
      broker does to the session meanwhile, the work need not know. */
  predicate Enabled(wanted: set<Filter>, w: World, e: Event) {
    match e
    case Accept => !w.live
    case Lose => w.live
    case Discard => !w.live
    case Subscribe(f) => w.live && f in wanted
    case Feed(input) =>
      && !input.Connected?
      && (input.WorkDone? && w.m.phase == Working(input.token) ==> (w.needs ==> wanted <= w.sent))
  }

  function Next(w: World, e: Event): World {
    match e
    case Accept =>
      var (m', action) := Step(w.m, Input.Connected(w.session.Some?));
      w.(m := m', session := if w.session.Some? then w.session else Some({}), live := true,
         sent := if action.ConnectWork? then {} else w.sent,
         needs := if action.ConnectWork? then action.subscribe else w.needs)
    case Lose => w.(live := false)
    case Discard => w.(session := None)
    case Subscribe(f) =>
      w.(session := if w.session.Some? then Some(w.session.value + {f}) else None, sent := w.sent + {f})
    case Feed(input) => w.(m := Step(w.m, input).0)
  }

  predicate Feasible(wanted: set<Filter>, w: World, es: seq<Event>)
    decreases |es|
  {
    es == [] || (Enabled(wanted, w, es[0]) && Feasible(wanted, Next(w, es[0]), es[1..]))
  }

  function Exec(w: World, es: seq<Event>): World
    decreases |es|
  {
    if es == [] then w else Exec(Next(w, es[0]), es[1..])
  }

  /** The machine's trust in a kept session is right, and so is what becomes of it when the connect
      work under way is done: the session still holds what that work subscribed. */
  predicate BeliefSound(wanted: set<Filter>, w: World) {
    w.session.Some? ==>
      && (w.m.subscribed ==> wanted <= w.session.value)
      && (w.m.phase.Working? && w.needs ==> w.sent <= w.session.value)
  }

  predicate Inv(wanted: set<Filter>, w: World) {
    Undivided(
      && BeliefSound(wanted, w)
      && w.sent <= wanted
      && (w.live ==> w.session.Some?)
      && (w.m.phase.Ready? ==> w.m.subscribed)
      && (w.m.phase.Working? ==> w.m.subscribed != w.needs))
  }

  /** The steps that can mislead the machine: the broker starts a session from nothing while the
      machine is in a phase that ignores `Connected`, and either trusts an old session or has connect
      work under way that subscribed something already. */
  predicate Misleads(wanted: set<Filter>, w: World, e: Event) {
    && e.Accept? && w.session.None? && !w.m.phase.Connecting?
    && ((w.m.subscribed && wanted != {}) || (w.m.phase.Working? && w.needs && w.sent != {}))
  }

  lemma StepKeepsBeliefExactly(wanted: set<Filter>, w: World, e: Event)
    requires Inv(wanted, w) && Enabled(wanted, w, e)
    ensures Inv(wanted, Next(w, e)) <==> !Misleads(wanted, w, e)
    ensures BeliefSound(wanted, Next(w, e)) <==> !Misleads(wanted, w, e)
  {
    if Misleads(wanted, w, e) {
      if w.m.subscribed {
        var f :| f in wanted;
        assert f !in Next(w, e).session.value;
      } else {
        var f :| f in w.sent;
        assert f !in Next(w, e).session.value;
      }
    }
  }

  predicate NeverMisled(wanted: set<Filter>, w: World, es: seq<Event>)
    decreases |es|
  {
    es == [] || (!Misleads(wanted, w, es[0]) && NeverMisled(wanted, Next(w, es[0]), es[1..]))
  }

  /** A run of an honest adapter and broker in which no step misleads the machine. */
  predicate Unmisled(wanted: set<Filter>, w: World, es: seq<Event>) {
    Undivided(Feasible(wanted, w, es) && NeverMisled(wanted, w, es))
  }

  lemma {:induction false} RunKeepsInv(wanted: set<Filter>, w: World, es: seq<Event>)
    requires Inv(wanted, w) && Feasible(wanted, w, es) && NeverMisled(wanted, w, es)
    ensures Inv(wanted, Exec(w, es))
    decreases |es|
  {
    if es != [] {
      StepKeepsBeliefExactly(wanted, w, es[0]);
      RunKeepsInv(wanted, Next(w, es[0]), es[1..]);
    }
  }

  /** Whenever the machine is ready on a live connection, the broker holds every subscription. */
  predicate ReadyMeansSubscribed(wanted: set<Filter>, w: World) {
    w.m.phase.Ready? && w.live ==> w.session.Some? && wanted <= w.session.value
  }

  lemma ReadyHoldsSubscriptions(wanted: set<Filter>, retryMs: u64, es: seq<Event>)
    requires Feasible(wanted, Start(retryMs), es) && NeverMisled(wanted, Start(retryMs), es)
    ensures ReadyMeansSubscribed(wanted, Exec(Start(retryMs), es))
  {
    RunKeepsInv(wanted, Start(retryMs), es);
  }

  predicate AllHeard(w: World, es: seq<Event>)
    decreases |es|
  {
    es == [] || ((es[0].Accept? ==> w.m.phase.Connecting?) && AllHeard(Next(w, es[0]), es[1..]))
  }

  lemma {:induction false} HeardIsNeverMisled(wanted: set<Filter>, w: World, es: seq<Event>)
    requires AllHeard(w, es)
    ensures NeverMisled(wanted, w, es)
    decreases |es|
  {
    if es != [] {
      HeardIsNeverMisled(wanted, Next(w, es[0]), es[1..]);
    }
  }

  /** In particular if every `Connected` reaches the machine while it is connecting. */
  lemma HeardConnectsSuffice(wanted: set<Filter>, retryMs: u64, es: seq<Event>)
    requires Feasible(wanted, Start(retryMs), es) && AllHeard(Start(retryMs), es)
    ensures ReadyMeansSubscribed(wanted, Exec(Start(retryMs), es))
  {
    HeardIsNeverMisled(wanted, Start(retryMs), es);
    ReadyHoldsSubscriptions(wanted, retryMs, es);
  }

  // ----- the belief is also necessary -----

  lemma {:induction false} ExecAppend(wanted: set<Filter>, w: World, a: seq<Event>, b: seq<Event>)
    requires Feasible(wanted, w, a) && Feasible(wanted, Exec(w, a), b)
    ensures Feasible(wanted, w, a + b) && Exec(w, a + b) == Exec(Exec(w, a), b)
    ensures NeverMisled(wanted, w, a) && NeverMisled(wanted, Exec(w, a), b) ==> NeverMisled(wanted, w, a + b)
    decreases |a|
  {
    if a == [] {
      assert a + b == b;
    } else {
      ExecAppend(wanted, Next(w, a[0]), a[1..], b);
      assert (a + b)[1..] == a[1..] + b;
    }
  }

  lemma Extend(wanted: set<Filter>, w0: World, es: seq<Event>, w: World, e: Event) returns (es': seq<Event>, w': World)
    requires Feasible(wanted, w0, es) && w == Exec(w0, es) && Enabled(wanted, w, e)
    ensures Feasible(wanted, w0, es') && es' == es + [e] && w' == Exec(w0, es') && w' == Next(w, e)
    ensures NeverMisled(wanted, w0, es) && !Misleads(wanted, w, e) ==> NeverMisled(wanted, w0, es')
  {
    es', w' := es + [e], Next(w, e);
    var one := [e];
    assert one[1..] == [];
    assert Exec(w, one) == Exec(Next(w, one[0]), one[1..]);
    assert !Misleads(wanted, w, e) ==> NeverMisled(wanted, w, one);
    ExecAppend(wanted, w0, es, one);
  }

  /** Ending what is under way and reaching the connecting phase again, without touching the session. */
  lemma Reconnects(wanted: set<Filter>, w: World) returns (es: seq<Event>, w': World)
    requires !w.m.phase.ShutDown?
    ensures Unmisled(wanted, w, es) && w' == Exec(w, es)
    ensures w'.m.phase.Connecting? && !w'.live && w'.session == w.session && w'.m.subscribed == w.m.subscribed
  {
    es, w' := [], w;
    if w'.live {
      es, w' := Extend(wanted, w, es, w', Lose);
    }
    if w'.m.phase.Working? || w'.m.phase.Ready? || w'.m.phase.Closing? {
      es, w' := Extend(wanted, w, es, w', Feed(Input.Disconnected));
    }
    if w'.m.phase.Retrying? {
      es, w' := Extend(wanted, w, es, w', Feed(RetryElapsed));
    } else if !w'.m.phase.Connecting? {
      es, w' := Extend(wanted, w, es, w', Feed(NetworkUp));
    }
  }

  /** The rest of the connect work: everything wanted that it did not subscribe yet. */
  lemma {:induction false} SubscribesRest(wanted: set<Filter>, w: World, rest: set<Filter>)
      returns (es: seq<Event>, w': World)
    requires w.live && w.session.Some? && rest <= wanted
    ensures Unmisled(wanted, w, es) && w' == Exec(w, es)
    ensures w' == w.(session := Some(w.session.value + rest), sent := w.sent + rest)
    decreases rest
  {
    es, w' := [], w;
    if rest == {} {
      assert w.session.value + rest == w.session.value && w.sent + rest == w.sent;
    } else {
      var f :| f in rest;
      var w1;
      es, w1 := Extend(wanted, w, es, w, Subscribe(f));
      var more;
      more, w' := SubscribesRest(wanted, w1, rest - {f});
      ExecAppend(wanted, w, es, more);
      es := es + more;
      assert w1.session.value + (rest - {f}) == w.session.value + rest;
      assert w1.sent + (rest - {f}) == w.sent + rest;
    }
  }

  /** Trust in a kept session that lacks a subscription shows after the next connect. */
  lemma WrongTrustShows(wanted: set<Filter>, w: World) returns (es: seq<Event>)
    requires w.m.subscribed && w.session.Some? && !(wanted <= w.session.value) && !w.m.phase.ShutDown?
    ensures Unmisled(wanted, w, es)
    ensures !ReadyMeansSubscribed(wanted, Exec(w, es))
  {
    var w';
    es, w' := Reconnects(wanted, w);
    es, w' := Extend(wanted, w, es, w', Accept);
    es, w' := Extend(wanted, w, es, w', Feed(WorkDone(w'.m.phase.token)));
  }

  /** A subscription that was lost under the connect work shows once that work is done. */
  lemma LostWorkShows(wanted: set<Filter>, w: World) returns (es: seq<Event>)
    requires w.m.phase.Working? && w.needs && w.session.Some? && w.sent <= wanted && !(w.sent <= w.session.value)
    ensures Unmisled(wanted, w, es)
    ensures !ReadyMeansSubscribed(wanted, Exec(w, es))
  {
    var w1 := w;
    es := [];
    if !w.live {
      es, w1 := Extend(wanted, w, es, w1, Accept);
    }
    var more, w2 := SubscribesRest(wanted, w1, wanted - w1.sent);
    ExecAppend(wanted, w, es, more);
    es := es + more;
    assert wanted <= w2.sent;
    var f :| f in w.sent && f !in w.session.value;
    assert f !in w2.session.value;
    es, w2 := Extend(wanted, w, es, w2, Feed(WorkDone(w2.m.phase.token)));
  }

  /** A wrong belief shows: some honest run without any further misleading step ends ready and live
      with a subscription missing. So the condition above cannot be weakened. */
  lemma WrongBeliefShows(wanted: set<Filter>, w: World) returns (es: seq<Event>)
    requires !BeliefSound(wanted, w) && w.sent <= wanted && !w.m.phase.ShutDown?
    ensures Unmisled(wanted, w, es)
    ensures !ReadyMeansSubscribed(wanted, Exec(w, es))
  {
    if w.m.subscribed && !(wanted <= w.session.value) {
      es := WrongTrustShows(wanted, w);
    } else {
      es := LostWorkShows(wanted, w);
    }
  }

  /** The connect work of the first session has subscribed. */
  function FirstWork(retryMs: u64): World {
    World(Machine(Working(1), true, 1, 0, false, retryMs), Some({0}), true, {0}, true)
  }

  lemma ReachesFirstWork(retryMs: u64) returns (es: seq<Event>)
    ensures Feasible({0}, Start(retryMs), es) && Exec(Start(retryMs), es) == FirstWork(retryMs)
    ensures es == [Feed(NetworkUp), Accept, Subscribe(0)]
  {
    var w := Start(retryMs);
    es, w := Extend({0}, w, [], w, Feed(NetworkUp));
    es, w := Extend({0}, Start(retryMs), es, w, Accept);
    es, w := Extend({0}, Start(retryMs), es, w, Subscribe(0));
    assert w.sent == {0} && w.session.value == {0};
  }

  /** Ready once, then the transport ends and the broker forgets the session. */
  lemma ReadyThenForgotten(retryMs: u64) returns (es: seq<Event>, w: World)
    ensures Feasible({0}, Start(retryMs), es) && w == Exec(Start(retryMs), es)
    ensures w.m.phase.Retrying? && w.m.networkUp && w.m.subscribed && w.session == None && !w.live && w.sent == {0}
  {
    es := ReachesFirstWork(retryMs);
    w := FirstWork(retryMs);
    es, w := Extend({0}, Start(retryMs), es, w, Feed(WorkDone(1)));
    es, w := Extend({0}, Start(retryMs), es, w, Lose);
    es, w := Extend({0}, Start(retryMs), es, w, Feed(Input.Disconnected));
    es, w := Extend({0}, Start(retryMs), es, w, Discard);
  }

  /** It happens: the link drops while the next attempt is under way, so that the machine is closing
      when the broker, having forgotten the session, accepts it afresh. */
  lemma IgnoredConnectMisleads(retryMs: u64) returns (es: seq<Event>)
    ensures Feasible({0}, Start(retryMs), es) && !ReadyMeansSubscribed({0}, Exec(Start(retryMs), es))
  {
    var w;
    es, w := ReadyThenForgotten(retryMs);
    es, w := Extend({0}, Start(retryMs), es, w, Feed(RetryElapsed));
    es, w := Extend({0}, Start(retryMs), es, w, Feed(NetworkDown));
    es, w := Extend({0}, Start(retryMs), es, w, Accept);
    assert !BeliefSound({0}, w) by {
      assert 0 !in w.session.value;
    }
    assert w.sent <= {0} && !w.m.phase.ShutDown?;
    var more := WrongBeliefShows({0}, w);
    ExecAppend({0}, Start(retryMs), es, more);
    es := es + more;
  }

  /** And it happens under the connect work: the work has subscribed when the connection dies, the
      broker forgets the session and accepts the client afresh, and only then is the work reported
      done. The machine never trusted anything but that work. */
  lemma ForgottenWorkMisleads(retryMs: u64) returns (es: seq<Event>)
    ensures Feasible({0}, Start(retryMs), es)
    ensures es == [Feed(NetworkUp), Accept, Subscribe(0), Lose, Discard, Accept, Feed(WorkDone(1))]
    ensures !ReadyMeansSubscribed({0}, Exec(Start(retryMs), es))
  {
    es := ReachesFirstWork(retryMs);
    var w := FirstWork(retryMs);
    es, w := Extend({0}, Start(retryMs), es, w, Lose);
    es, w := Extend({0}, Start(retryMs), es, w, Discard);
    es, w := Extend({0}, Start(retryMs), es, w, Accept);
    es, w := Extend({0}, Start(retryMs), es, w, Feed(WorkDone(1)));
    assert 0 !in w.session.value;
  }
}
