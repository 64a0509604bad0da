/** A device with two OTA slots, durable records and a consumer that carries out the actions of
    `ota/reconcile.rs` in their documented order. Every durable write, every bootloader decision
    and every loss of power is one step, so a run may stop between any two of them.

    The bootloader and the consumer follow `crates/juggler/tests/ota_lifecycle.rs`. */
module OtaDevice {
  import opened Common
  import opened Decision
  import opened Reconcile

  type Slot = s: SlotId | s < 2

  function Other(s: Slot): Slot { 1 - s }

  datatype Pair<+T> = Pair(zero: T, one: T) {
    function Get(s: Slot): T { if s == 0 then zero else one }
  }

  function Put<T>(p: Pair<T>, s: Slot, v: T): Pair<T> {
    if s == 0 then p.(zero := v) else p.(one := v)
  }

  /** The bootloader's record of a slot. */
  datatype Otadata = Absent | New | Pending | Good | Bad

  function MapState(o: Otadata): SlotState {
    match o
    case Good => Valid
    case New | Pending => PendingVerify
    case Bad => Invalid
    case Absent => Unknown
  }

  datatype Report = Report(attemptId: nat, delivered: bool)

  datatype Nvs = Nvs(attempt: Option<AttemptRecord>, counter: nat, refused: Option<Version>, report: Option<Report>)

  /** Where the software is. Each constructor names the step that comes next. */
  datatype Pc =
    | Off                                       // no power, or inside the bootloader
    | Early                                     // booted; `reconcile` was not called yet
    | Serving                                   // running normally
    | Clearing                                  // ClearAttempt: delete the record
    | Completing                                // CompleteAttempt: look at the refusal
    | CompletingClear                           // CompleteAttempt: delete the record
    | Activating(refuse: bool)                  // persist `activated`
    | HealthCheck
    | RollingBack
    | Reporting(id: nat, left: Option<Version>) // ReportRollback: persist the report
    | Refusing(left: Option<Version>)           // ReportRollback: persist the refusal
    | ReportClear                               // ReportRollback: delete the record
    | Reserving(v: Version)                     // offer accepted: persist the id counter
    | Starting(v: Version)                      // persist the attempt
    | Downloading
    | Switching                                 // image written: switch the boot slot
    | Selecting                                 // boot slot switched: persist `boot_selected`
    | Rebooting

  /** What happened so far, for the properties only; no decision reads it. */
  datatype History = History(
    versions: map<nat, Version>,  // promised version of every attempt started
    switched: set<nat>,           // attempts whose target became the boot slot
    healthy: set<nat>,            // attempts whose image passed its health check
    created: seq<nat>)            // attempt id of every report record written

  datatype Device = Device(
    otadata: Pair<Otadata>,
    image: Pair<Option<Version>>,  // version embedded in each slot's image, if it parses
    boot: Slot,
    running: Slot,
    pc: Pc,
    nvs: Nvs,
    hist: History)
  {
    function State(): Otadata { otadata.Get(running) }
    function RunningVersion(): Option<Version> { image.Get(running) }
    predicate Undelivered() { nvs.report.Some? && !nvs.report.value.delivered }
    predicate ReportPersisted() {
      nvs.attempt.Some? && nvs.report.Some? && nvs.report.value.attemptId == nvs.attempt.value.attemptId
    }
  }

  /** The facts the consumer reads. Only the update slot may be unreadable. */
  function Facts(d: Device, readable: bool): BootFacts {
    BootFacts(
      d.running,
      MapState(d.State()),
      d.RunningVersion(),
      if readable then Some((Other(d.running), MapState(d.otadata.Get(Other(d.running))))) else None,
      d.ReportPersisted())
  }

  function Decide(d: Device, readable: bool): ReconcileAction {
    Reconcile.Reconcile(d.nvs.attempt, Facts(d, readable))
  }

  /** The first step of carrying out `action`. */
  function FirstStep(action: ReconcileAction): Pc {
    match action
    case NoAttempt | Defer => Serving
    case ClearAttempt => Clearing
    case CompleteAttempt => Completing
    case AwaitHealthCheck(mark) => if mark then Activating(false) else HealthCheck
    case RefuseImage(_, mark) => if mark then Activating(true) else RollingBack
    case ReportRollback(id, left, already) => if already then Refusing(left) else Reporting(id, left)
  }

  datatype Event =
    | PowerLoss                                       // or a crash, or a requested reboot
    | Boot                                            // one decision of the bootloader
    | Reconcile(readable: bool)                       // read the facts and decide
    | Act(ok: bool)                                   // next step of the script; `ok` = it succeeded
    | Offer(v: Version)
    | Fetch(embedded: Option<Version>, ok: bool)      // the target slot now holds this image
    | Deliver                                         // the report was delivered and marked so
    | Forget                                          // drop a delivered report nothing refers to

  predicate Enabled(d: Device, e: Event) {
    match e
    case PowerLoss => true
    case Boot => d.pc.Off?
    case Reconcile(_) => d.pc.Early? || d.pc.Serving?
    case Act(_) => !d.pc.Off? && !d.pc.Early? && !d.pc.Serving? && !d.pc.Downloading? && !d.pc.Rebooting?
    case Offer(_) => d.pc.Serving? && d.RunningVersion().Some?
    case Fetch(_, _) => d.pc.Downloading?
    case Deliver => d.pc.Serving? && d.Undelivered()
    case Forget => d.pc.Serving? && d.nvs.attempt.None? && d.nvs.report.Some? && !d.Undelivered()
  }

  /** Bootloader: a new image gets one boot; one that was never marked valid is given up. */
  function BootStep(d: Device): Device {
    match d.otadata.Get(d.boot)
    case New => d.(otadata := Put(d.otadata, d.boot, Pending), running := d.boot, pc := Early)
    case Good => d.(running := d.boot, pc := Early)
    case Pending | Bad | Absent => d.(otadata := Put(d.otadata, d.boot, Bad), boot := Other(d.boot))
  }

  function ClearRecord(d: Device): Device {
    d.(nvs := d.nvs.(attempt := None), pc := Serving)
  }

  function MarkRecord(d: Device, selected: bool, activated: bool): Device {
    match d.nvs.attempt
    case None => d
    case Some(a) =>
      d.(nvs := d.nvs.(attempt := Some(a.(bootSelected := a.bootSelected || selected,
                                          activated := a.activated || activated))))
  }

  function StartAttempt(d: Device, v: Version): Device {
    var target := Other(d.running);
    var a := AttemptRecord(d.nvs.counter, Some(v), target, false, false, d.otadata.Get(target).Bad?);
    d.(nvs := d.nvs.(attempt := Some(a)),
       hist := d.hist.(versions := d.hist.versions[a.attemptId := v]),
       pc := Downloading)
  }

  /** One step of the script. A failed write ends the action with the record kept, except that
      losing `activated` or `boot_selected` is only logged. */
  function ActStep(d: Device, ok: bool): Device {
    match d.pc
    case Clearing | ReportClear => if ok then ClearRecord(d) else d.(pc := Serving)
    case Completing =>
      if d.nvs.refused.Some? && d.nvs.refused != d.RunningVersion() then
        if ok then d.(nvs := d.nvs.(refused := None), pc := CompletingClear) else d.(pc := Serving)
      else d.(pc := CompletingClear)
    case CompletingClear => if ok then ClearRecord(d) else d.(pc := Serving)
    case Activating(refuse) =>
      var next := if refuse then RollingBack else HealthCheck;
      (if ok then MarkRecord(d, false, true) else d).(pc := next)
    case HealthCheck =>
      if ok then
        d.(otadata := Put(d.otadata, d.running, Good),
           hist := if d.nvs.attempt.Some? then
                     d.hist.(healthy := d.hist.healthy + {d.nvs.attempt.value.attemptId})
                   else d.hist,
           pc := Completing)
      else d.(pc := RollingBack)
    case RollingBack =>
      if ok then d.(otadata := Put(d.otadata, d.running, Bad), boot := Other(d.running), pc := Off) else d
    case Reporting(id, left) =>
      if ok then
        d.(nvs := d.nvs.(report := Some(Report(id, false))),
           hist := d.hist.(created := d.hist.created + [id]),
           pc := Refusing(left))
      else d.(pc := Serving)
    case Refusing(left) =>
      if left.None? then d.(pc := ReportClear)
      else if ok then d.(nvs := d.nvs.(refused := left), pc := ReportClear)
      else d.(pc := Serving)
    case Reserving(v) =>
      if ok then d.(nvs := d.nvs.(counter := d.nvs.counter + 1), pc := Starting(v)) else d.(pc := Serving)
    case Starting(v) => if ok then StartAttempt(d, v) else d.(pc := Serving)
    case Switching =>
      if ok && d.nvs.attempt.Some? then
        var target := Other(d.running);
        d.(otadata := Put(d.otadata, target, New), boot := target,
           hist := d.hist.(switched := d.hist.switched + {d.nvs.attempt.value.attemptId}),
           pc := Selecting)
      else d.(pc := Early)  // the download failed: reconcile again right away
    case Selecting => (if ok then MarkRecord(d, true, false) else d).(pc := Rebooting)
    case Off | Early | Serving | Downloading | Rebooting => d
  }

  function OfferStep(d: Device, v: Version): Device
    requires d.RunningVersion().Some?
  {
    var admission := FromRecords(d.nvs.attempt.Some?, d.Undelivered());
    if DecideOffer(d.RunningVersion().value, v, d.nvs.refused, admission).Apply? then d.(pc := Reserving(v)) else d
  }

  function Next(d: Device, e: Event): Device
    requires Enabled(d, e)
  {
    match e
    case PowerLoss => d.(pc := Off)
    case Boot => BootStep(d)
    case Reconcile(readable) => d.(pc := FirstStep(Decide(d, readable)))
    case Act(ok) => ActStep(d, ok)
    case Offer(v) => OfferStep(d, v)
    case Fetch(embedded, ok) =>
      d.(image := Put(d.image, Other(d.running), embedded), pc := if ok then Switching else Early)
    case Deliver => d.(nvs := d.nvs.(report := Some(d.nvs.report.value.(delivered := true))))
    case Forget => d.(nvs := d.nvs.(report := None))
  }

  /** A verified image runs from the boot slot, no attempt is recorded, and the other slot holds
      anything that is not awaiting verification. */
  predicate Init(d: Device) {
    && d.pc.Off?
    && d.otadata.Get(d.boot).Good?
    && !d.otadata.Get(Other(d.boot)).New? && !d.otadata.Get(Other(d.boot)).Pending?
    && d.nvs.attempt.None?
    && (d.nvs.report.Some? ==> d.nvs.report.value.attemptId <= d.nvs.counter)
    && d.hist == History(map[], {}, {}, if d.nvs.report.Some? then [d.nvs.report.value.attemptId] else [])
  }

  predicate Feasible(d: Device, es: seq<Event>)
    decreases |es|
  {
    es == [] || (Enabled(d, es[0]) && Feasible(Next(d, es[0]), es[1..]))
  }

  function Exec(d: Device, es: seq<Event>): Device
    requires Feasible(d, es)
    decreases |es|
  {
    if es == [] then d else Exec(Next(d, es[0]), es[1..])
  }

  /** `d` is the state after some run: any events, in any order the script allows. */
  ghost predicate Reachable(d: Device) {
    exists d0: Device, es: seq<Event> :: Init(d0) && Feasible(d0, es) && d == Exec(d0, es)
  }
}
