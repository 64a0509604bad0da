/** A scan machine together with what its actions did: the peer's registration, the radio's
    channel, and a record of every channel visit. Inputs and times are arbitrary. */
module ScanRuns {
  import opened Common
  import opened Scan

  /** One channel the machine switched to, or tried to. */
  datatype Visit = Visit(channel: u8, reached: Duration, settable: Option<bool>, outcomes: seq<SendOutcome>)

  /** The channel visits, and when the burst ended. */
  datatype Log = Log(
    past: seq<Visit>,             // visits the machine moved on from, in order
    current: Option<Visit>,       // the latest visit
    restoredAt: Option<Duration>) // when `RestoreTxPower` was issued
  {
    /** Every channel visit, in order. */
    function Visits(): seq<Visit> {
      past + (if current.Some? then [current.value] else [])
    }
  }

  datatype Rig = Rig(
    m: Machine,
    last: Option<Action>,        // the action being carried out
    peer: Option<u8>,            // channel of the registered peer
    radio: Option<u8>,           // channel the radio was last switched to
    log: Log,
    burstAt: Option<Duration>,   // when `BoostTxPower` was answered
    upset: Option<ScanError>,    // the latest abort or misfit
    clean: bool,                 // no abort and no misfit so far
    calm: bool)                  // none before `Start` or during the teardown

  function NewRig(pin: Option<u8>): Rig {
    Rig(NewMachine(pin), None, None, None, Log([], None, None), None, None, true, true)
  }

  function Settle(l: Log, ok: bool): Log {
    if l.current.None? then l else l.(current := Some(l.current.value.(settable := Some(ok))))
  }

  function Answer(l: Log, o: SendOutcome): Log {
    if l.current.None? then l else l.(current := Some(l.current.value.(outcomes := l.current.value.outcomes + [o])))
  }

  /** The outcome of the previous action takes effect. */
  function Effect(r: Rig, input: Input): Rig {
    if r.last.None? then r
    else
      match (r.last.value, input)
      case (RemovePeer, Completed) => r.(peer := None)
      case (RegisterPeer(c), Completed) => r.(peer := Some(c))
      case (RegisterFallbackPeer(c), Completed) => r.(peer := Some(c))
      case (RestoreChannel(c), Completed) => r.(radio := Some(c))
      case (SetChannel(c), Completed) => r.(radio := Some(c), log := Settle(r.log, true))
      case (SetChannel(c), Failed) => r.(log := Settle(r.log, false))
      case (SendProbe(_, _, _), Sent(o)) => r.(log := Answer(r.log, o))
      case _ => r
  }

  /** `r` after the machine moved on with `next`. */
  function Moved(r: Rig, now: Duration, next: (Machine, Action)): Rig {
    var r' := r.(m := next.0, last := Some(next.1));
    match next.1
    case SetChannel(c) => r'.(log := r.log.(past := r.log.Visits(), current := Some(Visit(c, now, None, []))))
    case RestoreTxPower => r'.(log := r.log.(restoredAt := Some(now)))
    case _ => r'
  }

  /** What an input that does not answer the pending action stands for. */
  function Complaint(input: Input): ScanError { if input.Abort? then Aborted else UnexpectedInput }

  function Feed(cfg: Config, r: Rig, now: Duration, input: Input): Rig
    requires WellFormed(cfg, r.m)
  {
    var fits := Fits(r.m.state, input);
    Moved(Effect(r, input), now, Step(cfg, r.m, now, input)).(
      burstAt := if r.last == Some(BoostTxPower) && Either(input) then Some(now) else r.burstAt,
      upset := if fits then r.upset else Some(Complaint(input)),
      clean := r.clean && fits,
      calm := r.calm && (fits || Running(r.m.state)))
  }

  function Run(cfg: Config, r: Rig, ins: seq<(Duration, Input)>): Rig
    requires WellFormed(cfg, r.m)
    decreases |ins|
  {
    if ins == [] then r
    else
      StepWellFormed(cfg, r.m, ins[0].0, ins[0].1);
      Run(cfg, Feed(cfg, r, ins[0].0, ins[0].1), ins[1..])
  }

  // ----- what a channel visit says about the peer -----

  /** The channel could be set and the first probe and every confirmation were acknowledged. */
  predicate Confirmed(cfg: Config, v: Visit) {
    v.settable == Some(true) && |v.outcomes| == 1 + cfg.confirmations && AllAcked(v.outcomes)
  }

  predicate AllAcked(os: seq<SendOutcome>) { forall k :: 0 <= k < |os| ==> os[k].Acked? }

  /** The visit ended for a reason: the channel could not be set, or a probe was not acknowledged. */
  predicate Rejected(cfg: Config, v: Visit) {
    || (v.settable == Some(false) && v.outcomes == [])
    || (&& v.settable == Some(true) && 1 <= |v.outcomes| <= 1 + cfg.confirmations
        && AllAcked(v.outcomes[..|v.outcomes| - 1]) && !v.outcomes[|v.outcomes| - 1].Acked?)
  }

  predicate Transmitted(v: Visit) { v.outcomes != [] && !v.outcomes[0].Error? }

  /** How many of the first `n` visits transmitted their first probe. */
  function CountTransmitted(vs: seq<Visit>, n: nat): nat
    requires n <= |vs|
  {
    if n == 0 then 0 else CountTransmitted(vs, n - 1) + (if Transmitted(vs[n - 1]) then 1 else 0)
  }

  predicate InBudget(cfg: Config, start: Duration, at: Duration) {
    cfg.burstTimeout > 0 && at < start + cfg.burstTimeout
  }

  // ----- what every poll keeps -----

  /** Visits follow the channel list, each started within the budget; all past ones are rejected. */
  predicate VisitsSound(cfg: Config, start: Duration, l: Log) {
    && (forall j :: 0 <= j < |l.past| ==>
          && j < |cfg.channels| && l.past[j].channel == cfg.channels[j]
          && InBudget(cfg, start, l.past[j].reached) && Rejected(cfg, l.past[j]))
    && (l.current.None? ==> l.past == [])
    && (l.current.Some? ==>
          && |l.past| < |cfg.channels| && l.current.value.channel == cfg.channels[|l.past|]
          && InBudget(cfg, start, l.current.value.reached))
  }

  /** The current visit is to `channels[idx]` and collected `acks` acknowledgements and nothing else. */
  predicate At(l: Log, idx: nat, settable: Option<bool>, acks: nat) {
    && l.current.Some? && |l.past| == idx && l.current.value.settable == settable
    && |l.current.value.outcomes| == acks && AllAcked(l.current.value.outcomes)
  }

  predicate LastIs(r: Rig, a: Action) { r.last == Some(a) }

  predicate CurrentRejected(cfg: Config, l: Log) { l.current.Some? ==> Rejected(cfg, l.current.value) }

  predicate CurrentConfirmed(cfg: Config, l: Log, channel: u8) {
    l.current.Some? && Confirmed(cfg, l.current.value) && channel == l.current.value.channel
  }

  /** The list was searched to the end, or cut short by the budget. */
  predicate Exhausted(cfg: Config, start: Duration, l: Log, expired: bool) {
    && CurrentRejected(cfg, l)
    && l.restoredAt.Some?
    && (if expired then
          |l.Visits()| < |cfg.channels| && !InBudget(cfg, start, l.restoredAt.value)
        else |l.Visits()| == |cfg.channels|)
  }

  predicate FoundAt(cfg: Config, r: Rig, channel: u8) {
    CurrentConfirmed(cfg, r.log, channel) && !r.m.burstExpired && r.radio == Some(channel)
  }

  /** The reason for a failure holds. */
  predicate Justified(cfg: Config, r: Rig, error: ScanError) {
    match error
    case NotFound(probed, configured) =>
      probed == r.m.probed && configured == |cfg.channels| && Exhausted(cfg, r.m.burstStart, r.log, r.m.burstExpired)
    case RegisterTempPeer => r.log.current.None? && !r.m.burstExpired
    case RegisterFoundPeer(c) => CurrentConfirmed(cfg, r.log, c) && !r.m.burstExpired
    case UnexpectedInput | Aborted => !r.clean
  }

  /** What the machine would fail with now. */
  predicate FailureSound(cfg: Config, r: Rig) {
    match r.m.failure
    case None => Exhausted(cfg, r.m.burstStart, r.log, r.m.burstExpired)
    case Some(error) => Justified(cfg, r, error)
  }

  predicate InState(cfg: Config, pin: Option<u8>, r: Rig) {
    match r.m.state
    case Idle => r.last.None? && r.log.current.None?
    case RemovingStale => r.log.current.None? && LastIs(r, RemovePeer)
    case RegisteringTemp => r.log.current.None? && LastIs(r, RegisterPeer(0))
    case Boosting => r.log.current.None? && LastIs(r, BoostTxPower)
    case SettingChannel(idx) =>
      idx < |cfg.channels| && At(r.log, idx, None, 0) && LastIs(r, SetChannel(cfg.channels[idx]))
    case Probing(idx) =>
      && idx < |cfg.channels| && At(r.log, idx, Some(true), 0)
      && LastIs(r, ProbeOn(cfg, idx, 0)) && r.radio == Some(cfg.channels[idx])
    case Gap(idx, done) =>
      && idx < |cfg.channels| && done < cfg.confirmations && At(r.log, idx, Some(true), done + 1)
      && r.last.Some? && r.last.value.WaitUntil? && r.radio == Some(cfg.channels[idx])
    case Confirming(idx, done) =>
      && idx < |cfg.channels| && done < cfg.confirmations && At(r.log, idx, Some(true), done + 1)
      && LastIs(r, ProbeOn(cfg, idx, done + 1)) && r.radio == Some(cfg.channels[idx])
    case RestoringTxPower(found) =>
      && LastIs(r, RestoreTxPower)
      && if found.Some? then FoundAt(cfg, r, found.value) && r.m.failure.None? else FailureSound(cfg, r)
    case RemovingScanPeer(found) =>
      && LastIs(r, RemovePeer)
      && if found.Some? then FoundAt(cfg, r, found.value) && r.m.failure.None? else FailureSound(cfg, r)
    case RegisteringFound(c) => LastIs(r, RegisterPeer(c)) && FoundAt(cfg, r, c) && r.m.failure.None?
    case RestoringChannel(p) => pin == Some(p) && LastIs(r, RestoreChannel(p)) && FailureSound(cfg, r)
    case RegisteringFallback => pin.Some? && LastIs(r, RegisterFallbackPeer(pin.value)) && FailureSound(cfg, r)
    case Finished(Ok(c)) => LastIs(r, Done(Ok(c))) && FoundAt(cfg, r, c) && r.peer == Some(c) && r.m.pinned == Some(c)
    case Finished(Err(error)) => LastIs(r, Done(Err(error))) && r.m.pinned == pin && Justified(cfg, r, error)
  }

  predicate Pending(s: State) { s.Idle? || Running(s) }

  predicate Inv(cfg: Config, pin: Option<u8>, r: Rig) {
    && VisitsSound(cfg, r.m.burstStart, r.log)
    && Undivided(InState(cfg, pin, r))
    && (!r.m.state.Finished? ==> r.m.pinned == pin)
    && (Pending(r.m.state) ==> r.m.failure.None? && !r.m.burstExpired)
  }

  // ----- one lemma per part of the scan -----

  predicate Searching(cfg: Config, pin: Option<u8>, r: Rig) {
    VisitsSound(cfg, r.m.burstStart, r.log) && r.m.pinned == pin && r.m.failure.None? && !r.m.burstExpired
  }

  lemma VisitKeepsInv(cfg: Config, pin: Option<u8>, r: Rig, now: Duration, idx: nat)
    requires Searching(cfg, pin, r) && CurrentRejected(cfg, r.log)
    requires idx == |r.log.Visits()| < |cfg.channels| && !BurstOver(cfg, r.m, now)
    ensures Inv(cfg, pin, Moved(r, now, NextChannelFrom(cfg, r.m, now, idx)))
  {
    NextVisitSound(cfg, r.m.burstStart, r.log, now);
    var r' := Moved(r, now, NextChannelFrom(cfg, r.m, now, idx));
    assert r'.m == r.m.(state := SettingChannel(idx)) && LastIs(r', SetChannel(cfg.channels[idx]));
    assert At(r'.log, idx, None, 0);
  }

  lemma GivingUpKeepsInv(cfg: Config, pin: Option<u8>, r: Rig, now: Duration, idx: nat)
    requires Searching(cfg, pin, r) && CurrentRejected(cfg, r.log)
    requires idx == |r.log.Visits()| && (idx >= |cfg.channels| || BurstOver(cfg, r.m, now))
    ensures Inv(cfg, pin, Moved(r, now, NextChannelFrom(cfg, r.m, now, idx)))
  {
    var r' := Moved(r, now, NextChannelFrom(cfg, r.m, now, idx));
    assert r'.log == r.log.(restoredAt := Some(now)) && r'.log.Visits() == r.log.Visits();
    assert Exhausted(cfg, r'.m.burstStart, r'.log, r'.m.burstExpired);
    assert FailureSound(cfg, r') && LastIs(r', RestoreTxPower);
  }

  /** Going on to the next channel, all visits so far being rejected. */
  lemma AdvanceKeepsInv(cfg: Config, pin: Option<u8>, r: Rig, now: Duration)
    requires Searching(cfg, pin, r) && CurrentRejected(cfg, r.log)
    ensures Inv(cfg, pin, Moved(r, now, NextChannelFrom(cfg, r.m, now, |r.log.Visits()|)))
  {
    var idx := |r.log.Visits()|;
    if idx < |cfg.channels| && !BurstOver(cfg, r.m, now) {
      VisitKeepsInv(cfg, pin, r, now, idx);
    } else {
      GivingUpKeepsInv(cfg, pin, r, now, idx);
    }
  }

  lemma NextVisitSound(cfg: Config, start: Duration, l: Log, now: Duration)
    requires VisitsSound(cfg, start, l) && CurrentRejected(cfg, l)
    requires |l.Visits()| < |cfg.channels| && InBudget(cfg, start, now)
    ensures var next := Visit(cfg.channels[|l.Visits()|], now, None, []);
            VisitsSound(cfg, start, l.(past := l.Visits(), current := Some(next)))
  {
  }

  /** The last acknowledgement needed. */
  lemma LastAckKeepsInv(cfg: Config, pin: Option<u8>, r: Rig, now: Duration, idx: nat)
    requires Searching(cfg, pin, r) && idx < |cfg.channels|
    requires At(r.log, idx, Some(true), cfg.confirmations + 1) && r.radio == Some(cfg.channels[idx])
    ensures Inv(cfg, pin, Moved(r, now, AfterAckOn(cfg, r.m, now, idx, cfg.confirmations)))
  {
    var r' := Moved(r, now, AfterAckOn(cfg, r.m, now, idx, cfg.confirmations));
    assert r'.log == r.log.(restoredAt := Some(now));
    assert r'.m == r.m.(state := RestoringTxPower(Some(cfg.channels[idx])));
    assert CurrentConfirmed(cfg, r'.log, cfg.channels[idx]);
  }

  /** An acknowledgement that is the last one needed, or one more to go. */
  lemma AcknowledgeKeepsInv(cfg: Config, pin: Option<u8>, r: Rig, now: Duration, idx: nat, done: u8)
    requires Searching(cfg, pin, r) && idx < |cfg.channels| && done <= cfg.confirmations
    requires At(r.log, idx, Some(true), done + 1) && r.radio == Some(cfg.channels[idx])
    ensures Inv(cfg, pin, Moved(r, now, AfterAckOn(cfg, r.m, now, idx, done)))
  {
    if done == cfg.confirmations {
      LastAckKeepsInv(cfg, pin, r, now, idx);
    } else {
      var r' := Moved(r, now, AfterAckOn(cfg, r.m, now, idx, done));
      assert r'.log == r.log && r'.m == r.m.(state := Gap(idx, done));
    }
  }

  lemma UnwindKeepsInv(cfg: Config, pin: Option<u8>, r: Rig, now: Duration, input: Input)
    requires Inv(cfg, pin, r) && WellFormed(cfg, r.m) && Running(r.m.state) && !Fits(r.m.state, input)
    ensures Inv(cfg, pin, Feed(cfg, r, now, input))
  {
    assert Effect(r, input) == r;
    var r' := Feed(cfg, r, now, input);
    assert r'.log == r.log.(restoredAt := Some(now)) && r'.m.burstStart == r.m.burstStart;
    assert VisitsSound(cfg, r'.m.burstStart, r'.log);
  }

  lemma StartKeepsInv(cfg: Config, pin: Option<u8>, r: Rig, now: Duration, input: Input)
    requires Inv(cfg, pin, r) && WellFormed(cfg, r.m) && Fits(r.m.state, input)
    requires r.m.state.Idle? || r.m.state.RemovingStale? || r.m.state.RegisteringTemp?
    ensures Inv(cfg, pin, Feed(cfg, r, now, input))
  {
  }

  lemma BoostingKeepsInv(cfg: Config, pin: Option<u8>, r: Rig, now: Duration, input: Input)
    requires Inv(cfg, pin, r) && WellFormed(cfg, r.m) && r.m.state.Boosting? && Fits(r.m.state, input)
    ensures Inv(cfg, pin, Feed(cfg, r, now, input))
  {
    var r1 := r.(m := r.m.(burstStart := now), burstAt := Some(now));
    assert r1.log == r.log && r.log.current.None? && r.log.Visits() == [];
    assert Searching(cfg, pin, r1) && CurrentRejected(cfg, r1.log);
    AdvanceKeepsInv(cfg, pin, r1, now);
    assert Effect(r, input) == r;
    assert Feed(cfg, r, now, input) == Moved(r1, now, NextChannelFrom(cfg, r1.m, now, 0));
  }

  lemma SettingKeepsInv(cfg: Config, pin: Option<u8>, r: Rig, now: Duration, input: Input)
    requires Inv(cfg, pin, r) && WellFormed(cfg, r.m) && r.m.state.SettingChannel? && Fits(r.m.state, input)
    ensures Inv(cfg, pin, Feed(cfg, r, now, input))
  {
    var r1 := Effect(r, input);
    if input.Failed? {
      AdvanceKeepsInv(cfg, pin, r1, now);
      assert Feed(cfg, r, now, input) == Moved(r1, now, NextChannelFrom(cfg, r1.m, now, |r1.log.Visits()|));
    } else {
      var next := ProbeOn(cfg, r.m.state.idx, 0);
      assert Feed(cfg, r, now, input) == r1.(m := r.m.(state := Probing(r.m.state.idx)), last := Some(next));
    }
  }

  /** A first probe without acknowledgement: the visit it leaves behind. */
  function Missed(r: Rig, o: SendOutcome): Rig {
    r.(log := Answer(r.log, o), m := r.m.(probed := r.m.probed + if o.Error? then 0 else 1))
  }

  /** An answer leaves the visits in place. */
  lemma AnswerKeepsVisits(cfg: Config, start: Duration, l: Log, o: SendOutcome)
    requires VisitsSound(cfg, start, l)
    ensures VisitsSound(cfg, start, Answer(l, o)) && |Answer(l, o).Visits()| == |l.Visits()|
  {
  }

  lemma FirstAnswerRejects(cfg: Config, l: Log, o: SendOutcome)
    requires l.current.Some? && l.current.value.settable == Some(true) && l.current.value.outcomes == [] && !o.Acked?
    ensures CurrentRejected(cfg, Answer(l, o))
  {
    assert Answer(l, o).current.value.outcomes == [o];
  }

  lemma ProbeMissedMovesOn(cfg: Config, pin: Option<u8>, r: Rig, now: Duration, o: SendOutcome)
    requires Inv(cfg, pin, r) && WellFormed(cfg, r.m) && r.m.state.Probing? && !o.Acked?
    ensures Searching(cfg, pin, Missed(r, o)) && CurrentRejected(cfg, Missed(r, o).log)
    ensures |Missed(r, o).log.Visits()| == r.m.state.idx + 1
  {
    AnswerKeepsVisits(cfg, r.m.burstStart, r.log, o);
    FirstAnswerRejects(cfg, r.log, o);
    assert Missed(r, o).log == Answer(r.log, o);
    assert |r.log.Visits()| == |r.log.past| + 1;
  }

  lemma ProbeMissedIsMove(cfg: Config, r: Rig, now: Duration, o: SendOutcome)
    requires WellFormed(cfg, r.m) && r.m.state.Probing? && r.last == Some(ProbeOn(cfg, r.m.state.idx, 0)) && !o.Acked?
    ensures Feed(cfg, r, now, Sent(o))
            == Moved(Missed(r, o), now, NextChannelFrom(cfg, Missed(r, o).m, now, r.m.state.idx + 1))
  {
    assert Effect(r, Sent(o)) == r.(log := Answer(r.log, o));
  }

  lemma ProbeMissedKeepsInv(cfg: Config, pin: Option<u8>, r: Rig, now: Duration, o: SendOutcome)
    requires Inv(cfg, pin, r) && WellFormed(cfg, r.m) && r.m.state.Probing? && !o.Acked?
    ensures Inv(cfg, pin, Feed(cfg, r, now, Sent(o)))
  {
    ProbeMissedMovesOn(cfg, pin, r, now, o);
    AdvanceKeepsInv(cfg, pin, Missed(r, o), now);
    ProbeMissedIsMove(cfg, r, now, o);
  }

  lemma ProbeAckedKeepsInv(cfg: Config, pin: Option<u8>, r: Rig, now: Duration)
    requires Inv(cfg, pin, r) && WellFormed(cfg, r.m) && r.m.state.Probing?
    ensures Inv(cfg, pin, Feed(cfg, r, now, Sent(Acked)))
  {
    var r1 := r.(log := Answer(r.log, Acked), m := r.m.(probed := r.m.probed + 1));
    assert r1.log.current.value.outcomes == [Acked];
    assert Searching(cfg, pin, r1) && Effect(r, Sent(Acked)) == r.(log := r1.log);
    AcknowledgeKeepsInv(cfg, pin, r1, now, r.m.state.idx, 0);
    assert Feed(cfg, r, now, Sent(Acked)) == Moved(r1, now, AfterAckOn(cfg, r1.m, now, r.m.state.idx, 0));
  }

  lemma GapKeepsInv(cfg: Config, pin: Option<u8>, r: Rig, now: Duration, input: Input)
    requires Inv(cfg, pin, r) && WellFormed(cfg, r.m) && r.m.state.Gap? && Fits(r.m.state, input)
    ensures Inv(cfg, pin, Feed(cfg, r, now, input))
  {
  }

  lemma ConfirmationAckedKeepsInv(cfg: Config, pin: Option<u8>, r: Rig, now: Duration)
    requires Inv(cfg, pin, r) && WellFormed(cfg, r.m) && r.m.state.Confirming?
    ensures Inv(cfg, pin, Feed(cfg, r, now, Sent(Acked)))
  {
    var r1 := r.(log := Answer(r.log, Acked));
    AcknowledgeKeepsInv(cfg, pin, r1, now, r.m.state.idx, r.m.state.done + 1);
    assert Feed(cfg, r, now, Sent(Acked))
           == Moved(r1, now, AfterAckOn(cfg, r.m, now, r.m.state.idx, r.m.state.done + 1));
  }

  lemma ConfirmationMissedMovesOn(cfg: Config, pin: Option<u8>, r: Rig, o: SendOutcome)
    requires Inv(cfg, pin, r) && WellFormed(cfg, r.m) && r.m.state.Confirming? && !o.Acked?
    ensures var l := Answer(r.log, o); CurrentRejected(cfg, l) && |l.Visits()| == r.m.state.idx + 1
  {
    var os := r.log.current.value.outcomes;
    assert (os + [o])[..|os|] == os;
  }

  lemma ConfirmationMissedKeepsInv(cfg: Config, pin: Option<u8>, r: Rig, now: Duration, o: SendOutcome)
    requires Inv(cfg, pin, r) && WellFormed(cfg, r.m) && r.m.state.Confirming? && !o.Acked?
    ensures Inv(cfg, pin, Feed(cfg, r, now, Sent(o)))
  {
    var r1 := r.(log := Answer(r.log, o));
    ConfirmationMissedMovesOn(cfg, pin, r, o);
    assert Effect(r, Sent(o)) == r1 && Searching(cfg, pin, r1);
    AdvanceKeepsInv(cfg, pin, r1, now);
    assert Feed(cfg, r, now, Sent(o)) == Moved(r1, now, NextChannelFrom(cfg, r.m, now, r.m.state.idx + 1));
  }

  /** Justification carries over to any state with the same log, clock and cleanliness. */
  lemma JustifiedFrame(cfg: Config, r: Rig, r': Rig, error: ScanError)
    requires r'.log == r.log && r'.clean == r.clean && r'.m.burstStart == r.m.burstStart
    requires r'.m.burstExpired == r.m.burstExpired && r'.m.probed == r.m.probed
    ensures Justified(cfg, r', error) == Justified(cfg, r, error)
  {
  }

  lemma LostPeerRemovedKeepsInv(cfg: Config, pin: Option<u8>, r: Rig, now: Duration, input: Input)
    requires Inv(cfg, pin, r) && WellFormed(cfg, r.m) && Fits(r.m.state, input)
    requires r.m.state == RemovingScanPeer(None)
    ensures Inv(cfg, pin, Feed(cfg, r, now, input))
  {
    var r' := Feed(cfg, r, now, input);
    var error := if r.m.failure.Some? then r.m.failure.value else NotFound(r.m.probed, |cfg.channels|);
    assert Justified(cfg, r, error);
    assert r'.log == r.log && r'.clean == r.clean;
    assert r'.m == r.m.(state := if pin.Some? then RestoringChannel(pin.value) else Finished(Err(error)));
    JustifiedFrame(cfg, r, r', error);
  }

  /** Nothing to unwind. */
  lemma MisfitKeepsInv(cfg: Config, pin: Option<u8>, r: Rig, now: Duration, input: Input)
    requires Inv(cfg, pin, r) && WellFormed(cfg, r.m)
    requires !Running(r.m.state) && !Fits(r.m.state, input)
    ensures Inv(cfg, pin, Feed(cfg, r, now, input))
  {
    var r' := Feed(cfg, r, now, input);
    assert r'.log == r.log && r'.m.burstStart == r.m.burstStart && r'.m.burstExpired == r.m.burstExpired;
  }

  /** Power is restored, and the found peer or the result stands. */
  lemma TeardownKeepsInv(cfg: Config, pin: Option<u8>, r: Rig, now: Duration, input: Input)
    requires Inv(cfg, pin, r) && WellFormed(cfg, r.m)
    requires Fits(r.m.state, input)
    requires || r.m.state.RestoringTxPower? || r.m.state.RegisteringFound? || r.m.state.Finished?
             || (r.m.state.RemovingScanPeer? && r.m.state.found.Some?)
    ensures Inv(cfg, pin, Feed(cfg, r, now, input))
  {
    var r' := Feed(cfg, r, now, input);
    assert r'.log == r.log && r'.m.burstStart == r.m.burstStart && r'.m.burstExpired == r.m.burstExpired;
  }

  /** The fallback to the pinned channel. */
  lemma FallbackKeepsInv(cfg: Config, pin: Option<u8>, r: Rig, now: Duration, input: Input)
    requires Inv(cfg, pin, r) && WellFormed(cfg, r.m)
    requires Fits(r.m.state, input) && (r.m.state.RestoringChannel? || r.m.state.RegisteringFallback?)
    ensures Inv(cfg, pin, Feed(cfg, r, now, input))
  {
    var r' := Feed(cfg, r, now, input);
    assert r'.log == r.log && r'.m.burstStart == r.m.burstStart && r'.m.burstExpired == r.m.burstExpired;
  }

  lemma FeedKeepsInv(cfg: Config, pin: Option<u8>, r: Rig, now: Duration, input: Input)
    requires Inv(cfg, pin, r) && WellFormed(cfg, r.m)
    ensures Inv(cfg, pin, Feed(cfg, r, now, input))
  {
    if !Fits(r.m.state, input) {
      if Running(r.m.state) {
        UnwindKeepsInv(cfg, pin, r, now, input);
      } else {
        MisfitKeepsInv(cfg, pin, r, now, input);
      }
    } else {
      match r.m.state
      case Idle => StartKeepsInv(cfg, pin, r, now, input);
      case RemovingStale => StartKeepsInv(cfg, pin, r, now, input);
      case RegisteringTemp => StartKeepsInv(cfg, pin, r, now, input);
      case Boosting => BoostingKeepsInv(cfg, pin, r, now, input);
      case SettingChannel(_) => SettingKeepsInv(cfg, pin, r, now, input);
      case Probing(_) =>
        if input.outcome.Acked? {
          ProbeAckedKeepsInv(cfg, pin, r, now);
        } else {
          ProbeMissedKeepsInv(cfg, pin, r, now, input.outcome);
        }
      case Gap(_, _) => GapKeepsInv(cfg, pin, r, now, input);
      case Confirming(_, _) =>
        if input.outcome.Acked? {
          ConfirmationAckedKeepsInv(cfg, pin, r, now);
        } else {
          ConfirmationMissedKeepsInv(cfg, pin, r, now, input.outcome);
        }
      case RestoringChannel(_) => FallbackKeepsInv(cfg, pin, r, now, input);
      case RegisteringFallback => FallbackKeepsInv(cfg, pin, r, now, input);
      case RemovingScanPeer(None) => LostPeerRemovedKeepsInv(cfg, pin, r, now, input);
      case _ => TeardownKeepsInv(cfg, pin, r, now, input);
    }
  }

  lemma {:induction false} RunKeepsInv(cfg: Config, pin: Option<u8>, r: Rig, ins: seq<(Duration, Input)>)
    requires Inv(cfg, pin, r) && WellFormed(cfg, r.m)
    ensures Inv(cfg, pin, Run(cfg, r, ins)) && WellFormed(cfg, Run(cfg, r, ins).m)
    decreases |ins|
  {
    if ins != [] {
      FeedKeepsInv(cfg, pin, r, ins[0].0, ins[0].1);
      StepWellFormed(cfg, r.m, ins[0].0, ins[0].1);
      RunKeepsInv(cfg, pin, Feed(cfg, r, ins[0].0, ins[0].1), ins[1..]);
    }
  }

  /** The invariant holds in every run from the start. */
  lemma ScanInv(cfg: Config, pin: Option<u8>, ins: seq<(Duration, Input)>)
    ensures Inv(cfg, pin, Run(cfg, NewRig(pin), ins)) && WellFormed(cfg, Run(cfg, NewRig(pin), ins).m)
  {
    RunKeepsInv(cfg, pin, NewRig(pin), ins);
  }

  // ----- when the burst began -----

  /** The machine measures its budget from the poll that answered `BoostTxPower`. */
  predicate BurstSound(r: Rig) {
    Undivided(
      && (r.burstAt.Some? ==> r.m.burstStart == r.burstAt.value && !r.m.state.Boosting?)
      && (InBurst(r.m.state) || r.log.current.Some? || r.m.burstExpired ==> r.burstAt.Some?)
      && (r.clean && r.log.restoredAt.Some? ==> r.burstAt.Some?)
      && (r.m.state.Idle? || r.m.state.RemovingStale? || r.m.state.RegisteringTemp? ==> r.burstAt.None?))
  }

  /** What a step does to the start of the burst, and when it may begin or end one. */
  lemma BurstStartStep(cfg: Config, m: Machine, now: Duration, input: Input)
    requires WellFormed(cfg, m)
    ensures var (m', a) := Step(cfg, m, now, input);
            && m'.burstStart == (if m.state.Boosting? && Either(input) then now else m.burstStart)
            && (InBurst(m'.state) ==> InBurst(m.state) || (m.state.Boosting? && Either(input)))
            && (a.SetChannel? ==> InBurst(m'.state))
            && (m'.burstExpired ==> m.burstExpired || InBurst(m.state) || (m.state.Boosting? && Either(input)))
            && (a.RestoreTxPower? && Fits(m.state, input) ==> InBurst(m.state) || (m.state.Boosting? && Either(input)))
            && (m'.state.Boosting? ==> m.state.RegisteringTemp?)
            && (m'.state.RegisteringTemp? ==> m.state.RemovingStale?)
            && (m'.state.RemovingStale? ==> m.state.Idle?) && !m'.state.Idle?
  {
  }

  /** What of `Feed` the start of the burst depends on. */
  lemma FeedBurstParts(cfg: Config, r: Rig, now: Duration, input: Input)
    requires WellFormed(cfg, r.m)
    ensures var (m', a) := Step(cfg, r.m, now, input);
            var r' := Feed(cfg, r, now, input);
            && r'.m == m' && r'.clean == (r.clean && Fits(r.m.state, input))
            && r'.burstAt == (if r.last == Some(BoostTxPower) && Either(input) then Some(now) else r.burstAt)
            && r'.log.current.Some? == (a.SetChannel? || r.log.current.Some?)
            && r'.log.restoredAt.Some? == (a.RestoreTxPower? || r.log.restoredAt.Some?)
  {
  }

  lemma BoostIsOut(cfg: Config, pin: Option<u8>, r: Rig)
    requires Inv(cfg, pin, r) && WellFormed(cfg, r.m)
    ensures r.last == Some(BoostTxPower) <==> r.m.state.Boosting?
  {
  }

  lemma FeedKeepsBurst(cfg: Config, pin: Option<u8>, r: Rig, now: Duration, input: Input)
    requires Inv(cfg, pin, r) && WellFormed(cfg, r.m) && BurstSound(r)
    ensures BurstSound(Feed(cfg, r, now, input))
  {
    BurstStartStep(cfg, r.m, now, input);
    FeedBurstParts(cfg, r, now, input);
    BoostIsOut(cfg, pin, r);
  }

  lemma {:induction false} RunKeepsBurst(cfg: Config, pin: Option<u8>, r: Rig, ins: seq<(Duration, Input)>)
    requires Inv(cfg, pin, r) && WellFormed(cfg, r.m) && BurstSound(r)
    ensures BurstSound(Run(cfg, r, ins))
    decreases |ins|
  {
    if ins != [] {
      FeedKeepsInv(cfg, pin, r, ins[0].0, ins[0].1);
      FeedKeepsBurst(cfg, pin, r, ins[0].0, ins[0].1);
      StepWellFormed(cfg, r.m, ins[0].0, ins[0].1);
      RunKeepsBurst(cfg, pin, Feed(cfg, r, ins[0].0, ins[0].1), ins[1..]);
    }
  }

  lemma ScanBurst(cfg: Config, pin: Option<u8>, ins: seq<(Duration, Input)>)
    ensures BurstSound(Run(cfg, NewRig(pin), ins))
  {
    RunKeepsBurst(cfg, pin, NewRig(pin), ins);
  }
}
