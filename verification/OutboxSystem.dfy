/** Every interleaving of publishers, waiting publishers, `attach` and `take_client`. A step is one
    section under the outbox lock or under the wait list's lock, or the delivery of one wake-up. */
module OutboxSystem {
  import opened Common
  import opened WaitList
  import opened Outbox

  /** Where a `publish_waiting` future is; each constructor names the section that comes next. */
  datatype Pc =
    | Fresh        // created, never polled
    | Trying       // outbox lock: send, queue, or start to wait
    | Checking     // outbox lock: the wait's first check
    | Registering  // list lock
    | Rechecking   // outbox lock: the wait's second check
    | Finishing    // list lock: the wait is over, remove its entry, then try again
    | Parked       // the poll returned `Pending`
    | Dropping     // list lock: the future is dropped while waiting
    | Gone
    | Done

  datatype Task = Task(
    pc: Pc,
    message: PendingPublish,
    id: Option<u64>,    // the wait's own id
    waker: Waker,       // waker of the latest poll
    notified: bool)     // that waker was woken since the poll began

  datatype Sys = Sys(
    core: Core,
    ledger: Ledger,
    direct: seq<PendingPublish>,  // messages given to the synchronous `publish`
    nextId: u64,
    registrations: nat,       // waits that drew an id so far
    entries: seq<Entry>,
    tasks: seq<Task>,
    owed: nat,                // `attach` calls between draining and `wake_all`
    inFlight: multiset<Waker>)// wakers taken from the list, not yet woken

  /** The outbox is fixed by its depth and by how clients answer. */
  datatype Config = Config(depth: nat, accept: Answers)

  predicate Room(cfg: Config, s: Sys) { HasRoom(s.core, cfg.depth) }

  datatype Event =
    | Spawn(message: PendingPublish)
    | Poll(t: nat, waker: Waker)  // the executor polls, woken or not
    | Step(t: nat)                // the next section of a poll or drop in progress
    | Drop(t: nat)
    | Publish(message: PendingPublish)
    | AttachDrain
    | AttachWake
    | TakeClient
    | Wake(waker: Waker)

  predicate MayPoll(s: Sys, t: nat) {
    t < |s.tasks| && (s.tasks[t].pc.Fresh? || s.tasks[t].pc.Parked?)
  }

  predicate Enabled(s: Sys, e: Event) {
    match e
    case Spawn(_) | Publish(_) | AttachDrain | TakeClient => true
    case Poll(t, _) => MayPoll(s, t)
    case Drop(t) => MayPoll(s, t)
    case Step(t) =>
      t < |s.tasks| && var pc := s.tasks[t].pc; !pc.Fresh? && !pc.Parked? && !pc.Gone? && !pc.Done?
    case AttachWake => s.owed > 0
    case Wake(w) => w in s.inFlight
  }

  function Put(s: Sys, t: nat, task: Task): Sys
    requires t < |s.tasks|
  {
    s.(tasks := s.tasks[t := task])
  }

  function TaskStep(cfg: Config, s: Sys, t: nat): Sys
    requires Enabled(s, Step(t))
  {
    var task := s.tasks[t];
    match task.pc
    case Trying =>
      (match Offered(s.core, task.message, cfg.depth, cfg.accept)
       case None => Put(s, t, task.(pc := Checking))
       case Some(c) =>
         Put(s, t, task.(pc := Done)).(
           core := c,
           ledger := PublishLedger(s.core, s.ledger, task.message, cfg.depth, cfg.accept)))
    case Checking =>
      if Room(cfg, s) then Put(s, t, task.(pc := if task.id.Some? then Finishing else Trying))
      else Put(s, t, task.(pc := Registering))
    case Registering =>
      var first := task.id.None?;
      var mine := if first then s.nextId else task.id.value;
      Put(s, t, task.(pc := Rechecking, id := Some(mine))).(
        entries := Registered(s.entries, mine, task.waker),
        nextId := if first then (s.nextId + 1) % TWO_64 else s.nextId,
        registrations := if first then s.registrations + 1 else s.registrations)
    case Rechecking => Put(s, t, task.(pc := if Room(cfg, s) then Finishing else Parked))
    case Finishing | Dropping =>
      Put(s, t, task.(pc := if task.pc.Finishing? then Trying else Gone, id := None)).(
        entries := if task.id.Some? then Without(s.entries, task.id.value) else s.entries)
    case Fresh | Parked | Gone | Done => s
  }

  function Notify(tasks: seq<Task>, w: Waker): seq<Task> {
    seq(|tasks|, i requires 0 <= i < |tasks| => if tasks[i].waker == w then tasks[i].(notified := true) else tasks[i])
  }

  function Next(cfg: Config, s: Sys, e: Event): Sys
    requires Enabled(s, e)
  {
    match e
    case Spawn(m) => s.(tasks := s.tasks + [Task(Fresh, m, None, 0, false)])
    case Poll(t, w) =>
      Put(s, t, s.tasks[t].(pc := if s.tasks[t].pc.Fresh? then Trying else Checking, waker := w, notified := false))
    case Step(t) => TaskStep(cfg, s, t)
    case Drop(t) => Put(s, t, s.tasks[t].(pc := if s.tasks[t].pc.Fresh? then Gone else Dropping))
    case Publish(m) =>
      s.(core := Published(s.core, m, cfg.depth, cfg.accept),
         ledger := PublishLedger(s.core, s.ledger, m, cfg.depth, cfg.accept),
         direct := s.direct + [m])
    case AttachDrain =>
      s.(core := Attached(s.core, cfg.accept), ledger := AttachLedger(s.core, s.ledger, cfg.accept), owed := s.owed + 1)
    case AttachWake =>
      s.(entries := [], inFlight := s.inFlight + multiset(Wakers(s.entries)), owed := s.owed - 1)
    case TakeClient => s.(core := s.core.(attached := false))
    case Wake(w) => s.(inFlight := s.inFlight[w := s.inFlight[w] - 1], tasks := Notify(s.tasks, w))
  }

  const START := Sys(Core(false, [], 0, []), Ledger([], []), [], 0, 0, [], [], 0, multiset{})

  predicate Feasible(cfg: Config, s: Sys, es: seq<Event>)
    decreases |es|
  {
    es == [] || (Enabled(s, es[0]) && Feasible(cfg, Next(cfg, s, es[0]), es[1..]))
  }

  function Exec(cfg: Config, s: Sys, es: seq<Event>): Sys
    requires Feasible(cfg, s, es)
    decreases |es|
  {
    if es == [] then s else Exec(cfg, Next(cfg, s, es[0]), es[1..])
  }

  ghost predicate Reachable(cfg: Config, s: Sys) {
    exists es: seq<Event> :: Feasible(cfg, START, es) && s == Exec(cfg, START, es)
  }

  // ----- messages -----

  lemma StepConserves(cfg: Config, s: Sys, e: Event)
    requires cfg.depth >= 1 && Enabled(s, e) && Conserved(s.core, s.ledger)
    ensures Conserved(Next(cfg, s, e).core, Next(cfg, s, e).ledger)
  {
    match e
    case Step(t) =>
      if s.tasks[t].pc.Trying? && Room(cfg, s) {
        OfferNeverEvicts(s.core, s.tasks[t].message, cfg.depth, cfg.accept);
        PublishConserves(s.core, s.ledger, s.tasks[t].message, cfg.depth, cfg.accept);
      }
    case Publish(m) => PublishConserves(s.core, s.ledger, m, cfg.depth, cfg.accept);
    case AttachDrain => AttachConserves(s.core, s.ledger, cfg.accept);
    case _ =>
  }

  lemma {:induction false} RunConserves(cfg: Config, s: Sys, es: seq<Event>)
    requires cfg.depth >= 1 && Feasible(cfg, s, es) && Conserved(s.core, s.ledger)
    ensures Conserved(Exec(cfg, s, es).core, Exec(cfg, s, es).ledger)
    decreases |es|
  {
    if es != [] {
      StepConserves(cfg, s, es[0]);
      RunConserves(cfg, Next(cfg, s, es[0]), es[1..]);
    }
  }

  /** In every reachable state each admitted message was handed over once, refused once, evicted
      once, or is queued; and the clients saw the first kind in order of admission. */
  lemma MessagesConserved(cfg: Config, s: Sys)
    requires cfg.depth >= 1 && Reachable(cfg, s)
    ensures Conserved(s.core, s.ledger)
  {
    var es: seq<Event> :| Feasible(cfg, START, es) && s == Exec(cfg, START, es);
    RunConserves(cfg, START, es);
  }

  /** A waiting publisher never removes a queued message and never evicts one. */
  lemma WaitingNeverEvicts(cfg: Config, s: Sys, t: nat)
    requires Enabled(s, Step(t))
    ensures s.core.pending <= Next(cfg, s, Step(t)).core.pending
    ensures cfg.depth >= 1 && Conserved(s.core, s.ledger) ==>
            forall k :: |s.ledger.fates| <= k < |Next(cfg, s, Step(t)).ledger.fates| ==>
              !Next(cfg, s, Step(t)).ledger.fates[k].Evicted?
  {
  }

  function Completed(tasks: seq<Task>): seq<PendingPublish> {
    if tasks == [] then []
    else Completed(tasks[..|tasks| - 1]) + (if tasks[|tasks| - 1].pc.Done? then [tasks[|tasks| - 1].message] else [])
  }

  /** The message of a task that is done. */
  function Own(task: Task): multiset<PendingPublish> {
    if task.pc.Done? then multiset{task.message} else multiset{}
  }

  function CompletedSet(tasks: seq<Task>): multiset<PendingPublish> { multiset(Completed(tasks)) }

  lemma CompletedSnoc(tasks: seq<Task>, front: seq<Task>, last: Task)
    requires tasks == front + [last]
    ensures CompletedSet(tasks) == CompletedSet(front) + Own(last)
  {
    assert tasks[..|tasks| - 1] == front;
  }

  lemma Regroup(a: multiset<PendingPublish>, b: multiset<PendingPublish>, c: multiset<PendingPublish>)
    ensures (a + b) + c == (a + c) + b
  {
  }

  /** Completing one more task adds its message; any other change to a task adds none. */
  lemma {:induction false} CompletedUpdate(tasks: seq<Task>, t: nat, task: Task)
    requires t < |tasks| && !tasks[t].pc.Done? && task.message == tasks[t].message
    ensures CompletedSet(tasks[t := task]) == CompletedSet(tasks) + Own(task)
  {
    var n := |tasks| - 1;
    var front, last := tasks[..n], tasks[n];
    CompletedSnoc(tasks, front, last);
    if t < n {
      CompletedSnoc(tasks[t := task], front[t := task], last);
      CompletedUpdate(front, t, task);
      Regroup(CompletedSet(front), Own(task), Own(last));
    } else {
      CompletedSnoc(tasks[t := task], front, task);
      assert Own(last) == multiset{};
    }
  }

  lemma {:induction false} CompletedNotified(tasks: seq<Task>, w: Waker)
    ensures Completed(Notify(tasks, w)) == Completed(tasks)
  {
    if tasks != [] {
      CompletedNotified(tasks[..|tasks| - 1], w);
      assert Notify(tasks, w)[..|tasks| - 1] == Notify(tasks[..|tasks| - 1], w);
    }
  }

  ghost predicate AdmittedOnce(s: Sys) {
    multiset(s.ledger.admitted) == multiset(s.direct) + multiset(Completed(s.tasks))
  }

  /** Only task `t` changes; `more` is what the step admitted. */
  lemma TaskAdmitsOnce(s: Sys, s': Sys, t: nat, more: seq<PendingPublish>)
    requires AdmittedOnce(s) && t < |s.tasks| == |s'.tasks| && !s.tasks[t].pc.Done?
    requires s'.tasks == s.tasks[t := s'.tasks[t]] && s'.tasks[t].message == s.tasks[t].message
    requires s'.direct == s.direct && s'.ledger.admitted == s.ledger.admitted + more
    requires more == if s'.tasks[t].pc.Done? then [s.tasks[t].message] else []
    ensures AdmittedOnce(s')
  {
    CompletedUpdate(s.tasks, t, s'.tasks[t]);
  }

  lemma TaskStepAdmitsOnce(cfg: Config, s: Sys, t: nat)
    requires Enabled(s, Step(t)) && AdmittedOnce(s)
    ensures AdmittedOnce(TaskStep(cfg, s, t))
  {
    var s' := TaskStep(cfg, s, t);
    if s.tasks[t].pc.Trying? && Room(cfg, s) {
      TaskAdmitsOnce(s, s', t, [s.tasks[t].message]);
    } else {
      TaskAdmitsOnce(s, s', t, []);
    }
  }

  lemma PublishAdmitsOnce(cfg: Config, s: Sys, m: PendingPublish)
    requires AdmittedOnce(s)
    ensures AdmittedOnce(Next(cfg, s, Publish(m)))
  {
    assert multiset(s.ledger.admitted + [m]) == multiset(s.ledger.admitted) + multiset{m};
    assert multiset(s.direct + [m]) == multiset(s.direct) + multiset{m};
  }

  lemma StepAdmitsOnce(cfg: Config, s: Sys, e: Event)
    requires Enabled(s, e) && AdmittedOnce(s)
    ensures AdmittedOnce(Next(cfg, s, e))
  {
    match e
    case Step(t) => TaskStepAdmitsOnce(cfg, s, t);
    case Poll(t, _) => TaskAdmitsOnce(s, Next(cfg, s, e), t, []);
    case Drop(t) => TaskAdmitsOnce(s, Next(cfg, s, e), t, []);
    case Wake(w) => CompletedNotified(s.tasks, w);
    case Publish(m) => PublishAdmitsOnce(cfg, s, m);
    case Spawn(m) => assert Next(cfg, s, e).tasks[..|s.tasks|] == s.tasks;
    case _ =>
  }

  lemma {:induction false} RunAdmitsOnce(cfg: Config, s: Sys, es: seq<Event>)
    requires Feasible(cfg, s, es) && AdmittedOnce(s)
    ensures AdmittedOnce(Exec(cfg, s, es))
    decreases |es|
  {
    if es != [] {
      StepAdmitsOnce(cfg, s, es[0]);
      RunAdmitsOnce(cfg, Next(cfg, s, es[0]), es[1..]);
    }
  }

  /** What was admitted is what was published directly plus one message per completed waiting
      publish; a publisher that is dropped, or still waiting, contributed nothing. */
  lemma CompletedPublishesAdmittedOnce(cfg: Config, s: Sys)
    requires Reachable(cfg, s)
    ensures multiset(s.ledger.admitted) == multiset(s.direct) + multiset(Completed(s.tasks))
  {
    var es: seq<Event> :| Feasible(cfg, START, es) && s == Exec(cfg, START, es);
    RunAdmitsOnce(cfg, START, es);
  }

  // ----- wake-ups -----

  /** A wake-up of the task's latest poll happened, or is on its way, or the task is on the list. */
  ghost predicate Covered(s: Sys, task: Task) {
    task.notified || task.waker in s.inFlight || (task.id.Some? && Entry(task.id.value, task.waker) in s.entries)
  }

  ghost predicate IdsSound(s: Sys) {
    && s.registrations <= TWO_64
    && s.nextId == s.registrations % TWO_64
    && (forall t :: 0 <= t < |s.tasks| && s.tasks[t].id.Some? ==> s.tasks[t].id.value < s.registrations)
    && (forall t, u :: 0 <= t < u < |s.tasks| && s.tasks[t].id.Some? ==> s.tasks[t].id != s.tasks[u].id)
  }

  ghost predicate EntriesSound(s: Sys) {
    && DistinctIds(s.entries)
    && (forall e :: e in s.entries ==> exists t :: 0 <= t < |s.tasks| && s.tasks[t].id == Some(e.id))
  }

  predicate MayHoldId(pc: Pc) { pc.Checking? || pc.Registering? || HoldsId(pc) }
  predicate HoldsId(pc: Pc) { pc.Rechecking? || pc.Finishing? || pc.Parked? || pc.Dropping? }

  ghost predicate TaskSound(cfg: Config, s: Sys, task: Task) {
    && (task.id.Some? ==> MayHoldId(task.pc))
    && (HoldsId(task.pc) ==> task.id.Some?)
    && (task.pc.Rechecking? ==> Covered(s, task))
    && (task.pc.Parked? ==>
          Covered(s, task) && (task.notified || task.waker in s.inFlight || (Room(cfg, s) ==> s.owed > 0)))
  }

  ghost predicate Inv(cfg: Config, s: Sys) {
    Undivided(IdsSound(s) && EntriesSound(s) && forall t :: 0 <= t < |s.tasks| ==> TaskSound(cfg, s, s.tasks[t]))
  }

  /** Room never appears except through `attach`, which owes a `wake_all`. */
  lemma RoomOnlyFromAttach(cfg: Config, s: Sys, e: Event)
    requires Enabled(s, e) && !Room(cfg, s) && Room(cfg, Next(cfg, s, e))
    ensures e == AttachDrain && Next(cfg, s, e).owed > 0
  {
  }

  /** The state differs from `s` in task `t` only, and possibly in how much room there is. */
  lemma OneTaskKeepsInv(cfg: Config, s: Sys, s': Sys, t: nat)
    requires Inv(cfg, s) && t < |s.tasks|
    requires t < |s'.tasks| && s' == Put(s, t, s'.tasks[t]).(core := s'.core, ledger := s'.ledger, direct := s'.direct)
    requires s'.tasks[t].id == s.tasks[t].id && (Room(cfg, s') ==> Room(cfg, s)) && TaskSound(cfg, s', s'.tasks[t])
    ensures Inv(cfg, s')
  {
    forall e | e in s'.entries ensures exists u :: 0 <= u < |s'.tasks| && s'.tasks[u].id == Some(e.id) {
      var u :| 0 <= u < |s.tasks| && s.tasks[u].id == Some(e.id);
      assert s'.tasks[u].id == Some(e.id);
    }
    forall u | 0 <= u < |s'.tasks| ensures TaskSound(cfg, s', s'.tasks[u]) {
      if u != t {
        assert TaskSound(cfg, s, s.tasks[u]);
      }
    }
  }

  /** Registering task `t` under `mine` leaves every other task's entry alone. */
  lemma RegisterKeepsEntries(cfg: Config, s: Sys, t: nat)
    requires Inv(cfg, s) && Enabled(s, Step(t)) && s.tasks[t].pc.Registering?
    ensures var s' := Next(cfg, s, Step(t));
            && EntriesSound(s')
            && Entry(s'.tasks[t].id.value, s.tasks[t].waker) in s'.entries
            && (forall e :: e in s.entries && e.id != s'.tasks[t].id.value ==> e in s'.entries)
  {
    var s' := Next(cfg, s, Step(t));
    var mine := s'.tasks[t].id.value;
    forall e ensures e in s'.entries <==> (if e.id == mine then e.waker == s.tasks[t].waker else e in s.entries) {
      RegisteredMembers(s.entries, mine, s.tasks[t].waker, e);
    }
    RegisteredMembers(s.entries, mine, s.tasks[t].waker, Entry(mine, 0));
    forall e | e in s'.entries ensures exists u :: 0 <= u < |s'.tasks| && s'.tasks[u].id == Some(e.id) {
      if e.id == mine {
        assert s'.tasks[t].id == Some(e.id);
      } else {
        var u :| 0 <= u < |s.tasks| && s.tasks[u].id == Some(e.id);
        assert s'.tasks[u].id == Some(e.id);
      }
    }
  }

  /** Drawing an id leaves the ids in use distinct. */
  lemma RegisterKeepsIds(cfg: Config, s: Sys, t: nat)
    requires Inv(cfg, s) && Enabled(s, Step(t)) && s.tasks[t].pc.Registering?
    requires Next(cfg, s, Step(t)).registrations <= TWO_64
    ensures IdsSound(Next(cfg, s, Step(t)))
    ensures forall u :: 0 <= u < |s.tasks| && u != t ==> s.tasks[u].id != Next(cfg, s, Step(t)).tasks[t].id
  {
  }

  lemma RegisterKeepsInv(cfg: Config, s: Sys, t: nat)
    requires Inv(cfg, s) && Enabled(s, Step(t)) && s.tasks[t].pc.Registering?
    requires Next(cfg, s, Step(t)).registrations <= TWO_64
    ensures Inv(cfg, Next(cfg, s, Step(t)))
  {
    var s' := Next(cfg, s, Step(t));
    RegisterKeepsEntries(cfg, s, t);
    RegisterKeepsIds(cfg, s, t);
    forall u | 0 <= u < |s'.tasks| ensures TaskSound(cfg, s', s'.tasks[u]) {
      assert TaskSound(cfg, s, s.tasks[u]);
    }
  }

  /** Removing its entry leaves every other task's entry alone. */
  lemma UnregisterKeepsEntries(cfg: Config, s: Sys, t: nat)
    requires Inv(cfg, s) && Enabled(s, Step(t)) && (s.tasks[t].pc.Finishing? || s.tasks[t].pc.Dropping?)
    requires s.tasks[t].id.Some?
    ensures var s' := Next(cfg, s, Step(t));
            EntriesSound(s') && forall e :: e in s'.entries <==> e in s.entries && e.id != s.tasks[t].id.value
  {
    var s' := Next(cfg, s, Step(t));
    var mine := s.tasks[t].id.value;
    forall e ensures e in s'.entries <==> e in s.entries && e.id != mine {
      WithoutMembers(s.entries, mine, e);
    }
    WithoutKeepsDistinct(s.entries, mine);
    forall e | e in s'.entries ensures exists u :: 0 <= u < |s'.tasks| && s'.tasks[u].id == Some(e.id) {
      var u :| 0 <= u < |s.tasks| && s.tasks[u].id == Some(e.id);
      assert s'.tasks[u].id == Some(e.id);
    }
  }

  lemma UnregisterKeepsInv(cfg: Config, s: Sys, t: nat)
    requires Inv(cfg, s) && Enabled(s, Step(t)) && (s.tasks[t].pc.Finishing? || s.tasks[t].pc.Dropping?)
    ensures Inv(cfg, Next(cfg, s, Step(t)))
  {
    var s' := Next(cfg, s, Step(t));
    assert TaskSound(cfg, s, s.tasks[t]);
    UnregisterKeepsEntries(cfg, s, t);
    assert IdsSound(s');
    forall u | 0 <= u < |s'.tasks| ensures TaskSound(cfg, s', s'.tasks[u]) {
      if u != t {
        assert TaskSound(cfg, s, s.tasks[u]);
      }
    }
  }

  lemma WakeAllKeepsInv(cfg: Config, s: Sys)
    requires Inv(cfg, s) && s.owed > 0
    ensures Inv(cfg, Next(cfg, s, AttachWake))
  {
    var s' := Next(cfg, s, AttachWake);
    forall u | 0 <= u < |s'.tasks| ensures TaskSound(cfg, s', s'.tasks[u]) {
      var task := s.tasks[u];
      assert TaskSound(cfg, s, task);
      if task.id.Some? && Entry(task.id.value, task.waker) in s.entries {
        WakersMembers(s.entries, Entry(task.id.value, task.waker));
        assert task.waker in multiset(Wakers(s.entries));
      }
    }
  }

  lemma WakeKeepsInv(cfg: Config, s: Sys, w: Waker)
    requires Inv(cfg, s) && w in s.inFlight
    ensures Inv(cfg, Next(cfg, s, Wake(w)))
  {
    var s' := Next(cfg, s, Wake(w));
    forall e | e in s'.entries ensures exists u :: 0 <= u < |s'.tasks| && s'.tasks[u].id == Some(e.id) {
      var u :| 0 <= u < |s.tasks| && s.tasks[u].id == Some(e.id);
      assert s'.tasks[u].id == Some(e.id);
    }
    forall u | 0 <= u < |s'.tasks| ensures TaskSound(cfg, s', s'.tasks[u]) {
      assert TaskSound(cfg, s, s.tasks[u]);
    }
  }

  lemma SharedKeepsInv(cfg: Config, s: Sys, e: Event)
    requires Inv(cfg, s) && (e.Publish? || e.AttachDrain? || e.TakeClient? || e.Spawn?)
    ensures Inv(cfg, Next(cfg, s, e))
  {
    var s' := Next(cfg, s, e);
    assert Room(cfg, s') ==> Room(cfg, s) || s'.owed > 0;
    forall x | x in s'.entries ensures exists u :: 0 <= u < |s'.tasks| && s'.tasks[u].id == Some(x.id) {
      var u :| 0 <= u < |s.tasks| && s.tasks[u].id == Some(x.id);
      assert s'.tasks[u].id == Some(x.id);
    }
    forall u | 0 <= u < |s'.tasks| ensures TaskSound(cfg, s', s'.tasks[u]) {
      if u < |s.tasks| {
        assert TaskSound(cfg, s, s.tasks[u]);
      }
    }
  }

  lemma TaskStepKeepsInv(cfg: Config, s: Sys, t: nat)
    requires Inv(cfg, s) && Enabled(s, Step(t)) && Next(cfg, s, Step(t)).registrations <= TWO_64
    ensures Inv(cfg, Next(cfg, s, Step(t)))
  {
    assert TaskSound(cfg, s, s.tasks[t]);
    if s.tasks[t].pc.Registering? {
      RegisterKeepsInv(cfg, s, t);
    } else if s.tasks[t].pc.Finishing? || s.tasks[t].pc.Dropping? {
      UnregisterKeepsInv(cfg, s, t);
    } else {
      OneTaskKeepsInv(cfg, s, Next(cfg, s, Step(t)), t);
    }
  }

  lemma StepKeepsInv(cfg: Config, s: Sys, e: Event)
    requires Inv(cfg, s) && Enabled(s, e) && Next(cfg, s, e).registrations <= TWO_64
    ensures Inv(cfg, Next(cfg, s, e))
  {
    match e
    case Poll(t, _) =>
      assert TaskSound(cfg, s, s.tasks[t]);
      OneTaskKeepsInv(cfg, s, Next(cfg, s, e), t);
    case Drop(t) =>
      assert TaskSound(cfg, s, s.tasks[t]);
      OneTaskKeepsInv(cfg, s, Next(cfg, s, e), t);
    case Step(t) => TaskStepKeepsInv(cfg, s, t);
    case AttachWake => WakeAllKeepsInv(cfg, s);
    case Wake(w) => WakeKeepsInv(cfg, s, w);
    case _ => SharedKeepsInv(cfg, s, e);
  }

  lemma {:induction false} RegistrationsGrow(cfg: Config, s: Sys, es: seq<Event>)
    requires Feasible(cfg, s, es)
    ensures s.registrations <= Exec(cfg, s, es).registrations
    decreases |es|
  {
    if es != [] {
      RegistrationsGrow(cfg, Next(cfg, s, es[0]), es[1..]);
    }
  }

  lemma {:induction false} RunKeepsInv(cfg: Config, s: Sys, es: seq<Event>)
    requires Feasible(cfg, s, es) && Inv(cfg, s) && Exec(cfg, s, es).registrations <= TWO_64
    ensures Inv(cfg, Exec(cfg, s, es))
    decreases |es|
  {
    if es != [] {
      RegistrationsGrow(cfg, Next(cfg, s, es[0]), es[1..]);
      StepKeepsInv(cfg, s, es[0]);
      RunKeepsInv(cfg, Next(cfg, s, es[0]), es[1..]);
    }
  }

  lemma ReachableInv(cfg: Config, s: Sys)
    requires Reachable(cfg, s) && s.registrations <= TWO_64
    ensures Inv(cfg, s)
  {
    var es: seq<Event> :| Feasible(cfg, START, es) && s == Exec(cfg, START, es);
    RunKeepsInv(cfg, START, es);
  }

  /** No wake-up is lost: a parked publisher that could go on was already woken, or its wake-up is
      in flight, or it is on the list and an `attach` has yet to call `wake_all`. */
  lemma NoLostWakeup(cfg: Config, s: Sys, t: nat)
    requires Reachable(cfg, s) && s.registrations <= TWO_64
    requires t < |s.tasks| && s.tasks[t].pc.Parked? && Room(cfg, s)
    ensures var task := s.tasks[t];
            || task.notified
            || task.waker in s.inFlight
            || (s.owed > 0 && task.id.Some? && Entry(task.id.value, task.waker) in s.entries)
  {
    ReachableInv(cfg, s);
    assert TaskSound(cfg, s, s.tasks[t]);
  }

  /** Once every owed `wake_all` ran and every wake-up was delivered, a publisher that is still
      parked and unwoken has nothing to go on with: no client and a full queue. */
  lemma QuietMeansFull(cfg: Config, s: Sys, t: nat)
    requires Reachable(cfg, s) && s.registrations <= TWO_64 && s.owed == 0 && s.inFlight == multiset{}
    requires t < |s.tasks| && s.tasks[t].pc.Parked? && !s.tasks[t].notified
    ensures !s.core.attached && |s.core.pending| >= cfg.depth
    ensures exists e :: e in s.entries && s.tasks[t].id == Some(e.id) && e.waker == s.tasks[t].waker
  {
    ReachableInv(cfg, s);
    var task := s.tasks[t];
    assert TaskSound(cfg, s, task);
    assert Entry(task.id.value, task.waker) in s.entries;
  }

  /** Entry ids are distinct; a live wait has at most one entry, and every entry belongs to a
      publisher that is still waiting. */
  lemma EntriesBelongToWaiters(cfg: Config, s: Sys)
    requires Reachable(cfg, s) && s.registrations <= TWO_64
    ensures forall i, j :: 0 <= i < j < |s.entries| ==> s.entries[i].id != s.entries[j].id
    ensures forall e :: e in s.entries ==>
              exists t :: 0 <= t < |s.tasks| && s.tasks[t].id == Some(e.id) && MayHoldId(s.tasks[t].pc)
    ensures forall t, u :: 0 <= t < u < |s.tasks| && s.tasks[t].id.Some? ==> s.tasks[t].id != s.tasks[u].id
  {
    ReachableInv(cfg, s);
    forall e | e in s.entries
      ensures exists t :: 0 <= t < |s.tasks| && s.tasks[t].id == Some(e.id) && MayHoldId(s.tasks[t].pc)
    {
      var t :| 0 <= t < |s.tasks| && s.tasks[t].id == Some(e.id);
      assert TaskSound(cfg, s, s.tasks[t]);
    }
  }

  // ----- progress -----

  /** Nothing but task `t` and what it does to the outbox and the list is different. */
  predicate OnlyTask(s: Sys, s': Sys, t: nat) {
    && t < |s.tasks| && |s'.tasks| == |s.tasks|
    && (forall u :: 0 <= u < |s.tasks| && u != t ==> s'.tasks[u] == s.tasks[u])
    && s'.direct == s.direct && s'.owed == s.owed && s'.inFlight == s.inFlight && s'.core.attached == s.core.attached
  }

  function Two(cfg: Config, s: Sys, t: nat): Sys
    requires Enabled(s, Step(t)) && Enabled(TaskStep(cfg, s, t), Step(t))
  {
    TaskStep(cfg, TaskStep(cfg, s, t), t)
  }

  /** Taking the message: handed over, or appended to the queue. */
  predicate Takes(s: Sys, s': Sys, m: PendingPublish) {
    && s'.ledger.admitted == s.ledger.admitted + [m]
    && if s.core.attached then
         s'.core.pending == s.core.pending && |s'.core.sent| == |s.core.sent| + 1 && s'.core.sent[|s.core.sent|].0 == m
       else s'.core.pending == s.core.pending + [m] && s'.core.sent == s.core.sent
  }

  lemma TryingTakes(cfg: Config, s: Sys, t: nat)
    requires Enabled(s, Step(t)) && s.tasks[t].pc.Trying? && Room(cfg, s)
    ensures var s' := TaskStep(cfg, s, t);
            s'.tasks[t].pc.Done? && Takes(s, s', s.tasks[t].message) && OnlyTask(s, s', t) && s'.entries == s.entries
  {
  }

  /** A new publish that is polled while there is room is done with its next section: the message is
      taken, and no waiting was involved. */
  lemma FreshPublishCompletes(cfg: Config, s: Sys, t: nat, w: Waker)
    requires t < |s.tasks| && s.tasks[t].pc.Fresh? && Room(cfg, s)
    ensures var s1 := Next(cfg, s, Poll(t, w));
            Enabled(s, Poll(t, w)) && Enabled(s1, Step(t)) &&
            var s' := Next(cfg, s1, Step(t));
            s'.tasks[t].pc.Done? && Takes(s, s', s.tasks[t].message) && OnlyTask(s, s', t) && s'.entries == s.entries
  {
    TryingTakes(cfg, Next(cfg, s, Poll(t, w)), t);
  }

  /** A parked publish that is polled while there is room ends its wait, tries again and is done: three
      sections, after which its message is taken and the list no longer has an entry of it. */
  lemma ParkedPublishCompletes(cfg: Config, s: Sys, t: nat, w: Waker)
    requires Reachable(cfg, s) && s.registrations <= TWO_64
    requires t < |s.tasks| && s.tasks[t].pc.Parked? && Room(cfg, s)
    ensures var s1 := Next(cfg, s, Poll(t, w));
            && Enabled(s, Poll(t, w)) && Enabled(s1, Step(t))
            && Enabled(TaskStep(cfg, s1, t), Step(t)) && Enabled(Two(cfg, s1, t), Step(t))
            && var s' := TaskStep(cfg, Two(cfg, s1, t), t);
            && s'.tasks[t].pc.Done? && Takes(s, s', s.tasks[t].message) && OnlyTask(s, s', t)
            && s'.entries == Without(s.entries, s.tasks[t].id.value)
  {
    ReachableInv(cfg, s);
    assert TaskSound(cfg, s, s.tasks[t]);
    var s1 := Next(cfg, s, Poll(t, w));
    var s2 := TaskStep(cfg, s1, t);
    assert s2.tasks[t].pc.Finishing? && s2.core == s.core;
    var s3 := TaskStep(cfg, s2, t);
    assert s3.tasks[t].pc.Trying? && s3.core == s.core && s3.ledger == s.ledger;
    TryingTakes(cfg, s3, t);
  }

  /** A publish that is polled without room parks: nothing is taken, and the list holds its entry with
      this poll's waker. A new one needs four sections, a parked one three. */
  lemma PublishParks(cfg: Config, s: Sys, t: nat, w: Waker)
    requires t < |s.tasks| && (s.tasks[t].pc.Fresh? || s.tasks[t].pc.Parked?) && !Room(cfg, s)
    requires DistinctIds(s.entries)
    ensures Enabled(s, Poll(t, w))
    ensures var s1 := Next(cfg, s, Poll(t, w));
            Enabled(s1, Step(t)) &&
            var s2 := if s.tasks[t].pc.Fresh? then TaskStep(cfg, s1, t) else s1;
            && Enabled(s2, Step(t)) && Enabled(TaskStep(cfg, s2, t), Step(t)) && Enabled(Two(cfg, s2, t), Step(t))
            && var s' := TaskStep(cfg, Two(cfg, s2, t), t);
            && s'.tasks[t].pc.Parked? && s'.tasks[t].id.Some? && OnlyTask(s, s', t)
            && s'.core == s.core && s'.ledger == s.ledger
            && Entry(s'.tasks[t].id.value, w) in s'.entries
  {
    var s1 := Next(cfg, s, Poll(t, w));
    var s2 := if s.tasks[t].pc.Fresh? then TaskStep(cfg, s1, t) else s1;
    assert s2.tasks[t].pc.Checking? && s2.core == s.core && s2.tasks[t].waker == w && s2.entries == s.entries;
    var s3 := TaskStep(cfg, s2, t);
    assert s3.tasks[t].pc.Registering? && s3.tasks[t].waker == w;
    var s4 := TaskStep(cfg, s3, t);
    var mine := s4.tasks[t].id.value;
    RegisteredMembers(s.entries, mine, w, Entry(mine, w));
    assert s4.tasks[t].pc.Rechecking? && s4.core == s.core;
  }

  predicate GivenUp(s: Sys, t: nat) { t < |s.tasks| && (s.tasks[t].pc.Dropping? || s.tasks[t].pc.Gone?) }

  lemma GivenUpByDrop(cfg: Config, s: Sys, e: Event, t: nat)
    requires Enabled(s, e) && !GivenUp(s, t) && e != Drop(t)
    ensures !GivenUp(Next(cfg, s, e), t)
  {
  }

  /** A publish is given up only if it was dropped: it never ends without its message being taken. */
  lemma {:induction false} OnlyDropGivesUp(cfg: Config, s: Sys, es: seq<Event>, t: nat)
    requires Feasible(cfg, s, es) && !GivenUp(s, t) && Drop(t) !in es
    ensures !GivenUp(Exec(cfg, s, es), t)
    decreases |es|
  {
    if es != [] {
      GivenUpByDrop(cfg, s, es[0], t);
      OnlyDropGivesUp(cfg, Next(cfg, s, es[0]), es[1..], t);
    }
  }

  /** Dropping a waiting publish takes one section, removes its entry, and touches nothing else. */
  lemma DropCleansUp(cfg: Config, s: Sys, t: nat)
    requires t < |s.tasks| && s.tasks[t].pc.Parked?
    ensures var s1 := Next(cfg, s, Drop(t));
            Enabled(s, Drop(t)) && Enabled(s1, Step(t)) &&
            var s' := Next(cfg, s1, Step(t));
            && s'.tasks[t].pc.Gone? && OnlyTask(s, s', t) && s'.core == s.core && s'.ledger == s.ledger
            && s'.entries == if s.tasks[t].id.Some? then Without(s.entries, s.tasks[t].id.value) else s.entries
  {
  }

  // ----- each registration is good for one wake-up -----

  /** Sections of the run in which a wait put its entry on the list. */
  function Registers(cfg: Config, s: Sys, es: seq<Event>): nat
    requires Feasible(cfg, s, es)
    decreases |es|
  {
    if es == [] then 0
    else
      (if es[0].Step? && s.tasks[es[0].t].pc.Registering? then 1 else 0) + Registers(cfg, Next(cfg, s, es[0]), es[1..])
  }

  /** Wake-ups delivered in the run. */
  function Delivered(es: seq<Event>): nat {
    if es == [] then 0 else (if es[0].Wake? then 1 else 0) + Delivered(es[1..])
  }

  lemma {:induction false} WithoutShrinks(entries: seq<Entry>, id: u64)
    ensures |Without(entries, id)| <= |entries|
  {
    if entries != [] {
      WithoutShrinks(entries[1..], id);
    }
  }

  lemma WakeUpsOfStep(cfg: Config, s: Sys, e: Event)
    requires Enabled(s, e)
    ensures var s' := Next(cfg, s, e);
            |s'.entries| + |s'.inFlight| + (if e.Wake? then 1 else 0)
            <= |s.entries| + |s.inFlight| + (if e.Step? && s.tasks[e.t].pc.Registering? then 1 else 0)
  {
    match e
    case Step(t) =>
      if s.tasks[t].id.Some? {
        WithoutShrinks(s.entries, s.tasks[t].id.value);
      }
    case Wake(w) => assert s.inFlight == Next(cfg, s, e).inFlight + multiset{w};
    case AttachWake => assert |multiset(Wakers(s.entries))| == |s.entries|;
    case _ =>
  }

  lemma {:induction false} WakeUpsOfRun(cfg: Config, s: Sys, es: seq<Event>)
    requires Feasible(cfg, s, es)
    ensures var end := Exec(cfg, s, es);
            |end.entries| + |end.inFlight| + Delivered(es) <= |s.entries| + |s.inFlight| + Registers(cfg, s, es)
    decreases |es|
  {
    if es != [] {
      WakeUpsOfStep(cfg, s, es[0]);
      WakeUpsOfRun(cfg, Next(cfg, s, es[0]), es[1..]);
    }
  }

  /** Over every run the wake-ups delivered, on their way and still to come from the list are together
      no more than the registrations: no waker on the list is taken twice. */
  lemma EachRegistrationWakesOnce(cfg: Config, es: seq<Event>)
    requires Feasible(cfg, START, es)
    ensures var end := Exec(cfg, START, es);
            Delivered(es) + |end.inFlight| + |end.entries| <= Registers(cfg, START, es)
  {
    WakeUpsOfRun(cfg, START, es);
  }
}
