# Verified model of the `juggler` decision logic

`juggler` is the hardware-independent core of a firmware framework: everything that decides, none of
the radio, flash or socket code. This project models its step machines and persistence protocols in
Dafny and proves what they promise over whole runs. `dafny verify dfyconfig.toml` checks all of it.

| files | what they model |
|---|---|
| `Decision`, `Reconcile`, `OtaDevice`, `OtaInvariant`, `OtaTheorems` | The over-the-air update policy. `reconcile` and `decide_offer` are expressions, as in the source; around them stands a device with two slots, a bootloader that gives a new image one boot, durable records written in the documented order, and a loss of power possible between any two steps. |
| `WaitList`, `Outbox`, `OutboxSystem` | The publish queue and its wait list: classes whose methods are lock sections, and every interleaving of those sections, of dropped and re-polled waits and of wake-ups on their way. |
| `Scan`, `ScanTermination`, `ScanRuns`, `ScanTheorems`, `ScanTiming`, `ScanProtocol` | The channel-scan machine with its injected clock, a rig that records what its actions did to the radio and the peer registration, and the protocol as its caller sees it. |
| `Session`, `SessionRuns`, `SessionHistory`, `SessionBroker` | The MQTT session machine and the network gate, alone, against the history of their inputs and actions, composed with each other, and composed with a broker that tells the truth about the sessions it keeps. |
| `Text`, `KvStore`, `KvTheorems`, `KvLoading`, `KvHistory` | The provisioning store: its reads, writes and removals in order, any of which may fail, commits cut short, and its whole life as a sequence of saves and erases. |
| `WriteAlign`, `Chunks` | Word-aligned flash writes from a chunked stream; joining a message that arrives in chunks. |
| `Topics`, `Backoff` | Topic filters against sections 4.7.1 and 4.7.2 of MQTT Version 3.1.1 (OASIS); exponential backoff in saturating 64-bit arithmetic. |

Each class is proved against a function on a plain record (`Step`, `Fed`, `Pushed`, `Published`, ...)
and the theorems are about that function, so they hold for every run of the class.

## What was found

Where the code does not do all that its documentation says, the model keeps the code. For each case
one lemma is a failing run or input and another one says exactly when the promise holds.

- **A refusal can end early.** `ota/decision.rs:181-187` keeps a refused version until a different
  version passes its health check. Only one refused version is stored, so a second rollback replaces
  it: `SecondRollbackReadmits` is a run in which no image ever passes a health check and the first
  version is accepted again. `RefusalEndsExactly` names the only two steps that end a refusal.
- **The documented rollback-detection hole is real, is the only one, and costs what is claimed.**
  `HoleIsReached` is a run into it, `FallbackMissedExactly` turns `ota/reconcile.rs:110-115` into an
  equivalence, and `HoleCostIsBounded` is the bound of lines 118-122 over every run.
- **A session can be ready with a subscription missing.** A `Connected` that the machine ignores may
  belong to a session the broker started from nothing. That goes wrong while the machine is closing or
  retrying and trusts the old session (`IgnoredConnectMisleads`), and while connect work is under way
  that has subscribed something already (`ForgottenWorkMisleads`). `StepKeepsBeliefExactly` says that
  these are the only ways, and `WrongBeliefShows` that from then on an honest run always exists that
  ends ready with a subscription missing.
- **A successful save can leave an old credential in use.** `provisioning/kv_store.rs:317-322` says an
  absent optional always loads as absent, but the removal of its key is best effort. In
  `FailedRemovalReadsBack` only the removal of the old MQTT user name fails; the save reports success
  and the device loads, and logs in, with the old name. `SaveLoadRoundTrip` is the exact condition,
  `ServeCurrentExactly` the one for nothing stale to stay at all.
- **A commit over an existing record is not guarded.** `provisioning/kv_store.rs:324-328` says a power
  loss never leaves the record looking provisioned with partial data, but `save` does not drop the old
  guard first. `TornSaveMixes` loads a mixture of two configurations; `TornSaveReadsExactly` and
  `TornSaveStaysUnprovisioned` say when the promise does hold.
- **An extra name with a comma is lost.** The form accepts it (`provisioning/form.rs:379-408`), the
  comma-joined index does not: `CommaNameIsLost`. `SaveLoadRoundTrip` and `ErasedExactly` are
  equivalences with that condition.
- **An outbox without slots counts a drop that did not happen.** `NoSlotsMiscount`, and
  `PublishCountsExactly` for all states.
- **Stale connect work is taken when sessions are a multiple of 2^32 apart.** `StaleWorkIsTaken`, and
  `StaleWorkIgnoredExactly` for every run.
- **`abandoned` counts more than its comment says.** `mqtt/chunks.rs:92` speaks of a new message that
  started before the last one finished; a follow-up that does not continue the message in progress
  counts as well. `StrayIsCounted` is such a run, `CutShortExactly` the exact condition.

## Model

| member | source | states |
|---|---|---|
| Decision.DecideUpdateIsNumeric | crates/juggler/src/ota/decision.rs:57-63 | An offer is newer, equal or older exactly as the versions compare when read as one 48-bit number, so following offers never leads back. |
| Decision.DecideOfferExact | crates/juggler/src/ota/decision.rs:225-240 | An update starts exactly for a newer version that is not the refused one while neither record stands in the way; a refused version is reported as refused even while admission is blocked, an older one is rejected, the same one skipped; an unresolved attempt is the cause named before an undelivered report. |
| Reconcile.ReconcileByEvidence | crates/juggler/src/ota/reconcile.rs:447-488 | For every record and all facts, which evidence each answer stands for, in both directions: promised image, verification, a trace of the switch, a readable slot; and what the answer carries, `mark_activated` included. |
| Reconcile.NoRecordNoAttempt | crates/juggler/src/ota/reconcile.rs:447-451 | Without a record there is nothing to reconcile. |
| OtaInvariant.ReachableInv | crates/juggler/tests/ota_lifecycle.rs:239-490 | In every state of every run with power loss between any two steps the records, slots and script position agree: only the boot slot may be unverified, its rival is then verified, and each record is backed by what happened. |
| OtaTheorems.RollbackDetectionExact | crates/juggler/src/ota/reconcile.rs:447-488 | In every reachable state a rollback is reported exactly if the target became the boot slot, the previous image runs again, and a flag or a fresh `Invalid` mark in a readable slot survived. |
| OtaTheorems.FallbackMissedExactly | crates/juggler/src/ota/reconcile.rs:110-115 | A real fallback is cleared as an interrupted download exactly if neither flag was persisted and the slot was `Invalid` beforehand; otherwise it is reported or deferred. |
| OtaTheorems.HoleIsReached | crates/juggler/src/ota/reconcile.rs:110-115 | A run from an initial state ends in a real fallback that is cleared as an interrupted download although every slot can be read. |
| OtaTheorems.HoleCostIsBounded | crates/juggler/src/ota/reconcile.rs:118-122 | Over every run, the downloads lost to the hole number at most the power losses and failed writes that hit the window between the switch and `boot_selected`. |
| OtaTheorems.InterruptedDownloadIsDropped | crates/juggler/src/ota/reconcile.rs:12-19 | A download interrupted before the switch is dropped, or deferred while the slot is unreadable; it never leads to a refusal. |
| OtaTheorems.TargetRunningExact | crates/juggler/src/ota/reconcile.rs:452-471 | In every reachable state in which the target runs, completion, health check and refusal are decided exactly by whether it passed its check and is the promised image. |
| OtaTheorems.ActivationComesFirst | crates/juggler/src/ota/reconcile.rs:457-467 | In every reachable state in which an unverified target runs, the step after the decision persists `activated` exactly if it is not durable yet, for matching and other versions alike; only then is the image checked or rolled back. |
| OtaTheorems.ActivationIsDurable | crates/juggler/src/ota/reconcile.rs:342-372 | In every run in which no write of `activated` fails, an image is checked or rolled back only with the flag durable. |
| OtaTheorems.FailedStepsChangeNothing | crates/juggler/tests/ota_lifecycle.rs:279-490 | In every reachable state a failed step of an action changes no record and no slot, and leads to serving, a new decision, the health check, the rollback or the reboot as documented. |
| OtaTheorems.RecordRemovalAccounted | crates/juggler/src/ota/reconcile.rs:313-341 | A record is deleted only after success with no refusal of another version left, after a rollback that is reported and refused, before any switch, or in the documented hole. |
| OtaTheorems.RecordNeverOverwritten | crates/juggler/src/ota/reconcile.rs:45-51 | No step replaces the record of an unresolved attempt or takes back its evidence. |
| OtaTheorems.AttemptIdsIncrease | crates/juggler/src/ota/reconcile.rs:21-30 | A new attempt's id is above every id ever used, although power may fail between the counter and the record. |
| OtaTheorems.AtMostOneReportPerAttempt | crates/juggler/src/ota/reconcile.rs:66-72 | Over any run at most one report record is written per attempt. |
| OtaTheorems.ReportsAreEarned | crates/juggler/src/ota/reconcile.rs:373-405 | A report is written only for an attempt that fell back, and an undelivered one changes by delivery only. |
| OtaTheorems.RefusalsAreEarned | crates/juggler/src/ota/reconcile.rs:381-388 | A version becomes refused only if the device fell back from it without its passing a health check. |
| OtaTheorems.OnlyPromisedImagesBecomeValid | crates/juggler/src/ota/reconcile.rs:342-372 | Only the running image whose version the manifest promised is ever marked valid. |
| OtaTheorems.AlwaysBoots | crates/juggler/tests/ota_lifecycle.rs:239-262 | From any loss of power two bootloader decisions suffice, and an image not verified in its one boot is not run again. |
| OtaTheorems.RefusalEndsExactly | crates/juggler/src/ota/decision.rs:181-187 | A refusal ends exactly when another version that passed its health check is completed, or the device refuses another version it fell back from. |
| OtaTheorems.RefusedVersionStaysOut | crates/juggler/src/ota/decision.rs:169-177 | In every run without such a step the version stays refused and no attempt of it is started. |
| OtaTheorems.AdmissionReopens | crates/juggler/src/ota/reconcile.rs:45-64 | From every reachable state, in the middle of an update, rollback or refusal or without power, at most 17 steps in which nothing goes wrong lead to a device that serves with no attempt recorded and nothing undelivered, so that a new offer may start. |
| OtaTheorems.FaultFreeBootResolves | crates/juggler/src/ota/reconcile.rs:373-397 | From any detected rollback a boot without faults ends with the rollback reported, the version refused and the record gone. |
| OtaTheorems.SecondRollbackReadmits | crates/juggler/src/ota/decision.rs:181-187 | A run in which a second rollback re-admits the first refused version although nothing passed a health check. |
| WaitList.WaitList.Register | crates/juggler/src/wait_list.rs:35-51 | Draws an id on the first registration only and leaves exactly one entry under it, with the latest waker. |
| WaitList.WaitList.Unregister | crates/juggler/src/wait_list.rs:53-55 | Keeps every other wait's entry, in order. |
| WaitList.WaitList.WakeAll | crates/juggler/src/wait_list.rs:58-63 | Empties the list and wakes each waker that was on it, in order. |
| WaitList.Wait.Poll | crates/juggler/src/wait_list.rs:107-118 | Ready exactly if one of the two checks was; then no entry is left, else its entry holds this poll's waker. Undisturbed; the interleavings are those of `OutboxSystem`. |
| WaitList.Wait.Drop | crates/juggler/src/wait_list.rs:121-127 | Dropping a wait removes its entry and no other. |
| WaitList.RegisteredMembers | crates/juggler/src/wait_list.rs:42-50 | Registering keeps ids distinct and every other wait's entry. |
| WaitList.OthersKeepOrder | crates/juggler/src/wait_list.rs:42-55 | Registering and removing one wait's entry leave the entries of all others as they are and in order. |
| Outbox.Outbox.Attach | crates/juggler/src/mqtt/outbox.rs:117-134 | Hands the queue over in order, counts each refusal, and wakes every waiter. |
| Outbox.Outbox.Publish | crates/juggler/src/mqtt/outbox.rs:144-161 | The evicting policy: the new state is that of the specification the ledger lemmas are about. |
| Outbox.Outbox.TryPublish | crates/juggler/src/mqtt/outbox.rs:176-189 | The waiting policy takes the message exactly if there is room, and changes nothing otherwise. |
| Outbox.Outbox.TakeClient | crates/juggler/src/mqtt/outbox.rs:239-241 | Detaching keeps the queue, the counter and what was sent. |
| Outbox.AttachConserves | crates/juggler/src/mqtt/outbox.rs:117-134 | Draining keeps every message accounted for. |
| Outbox.PublishConserves | crates/juggler/src/mqtt/outbox.rs:144-161 | With at least one slot, publishing keeps every message accounted for, evictions included. |
| Outbox.OfferNeverEvicts | crates/juggler/src/mqtt/outbox.rs:163-189 | The waiting policy takes a message exactly when there is room, then as the synchronous one does, and only ever appends to the queue. |
| Outbox.PublishCountsExactly | crates/juggler/src/mqtt/outbox.rs:156-159 | The counter moves by what was lost exactly unless the outbox has no slots, no client and nothing queued. |
| Outbox.NoSlotsMiscount | crates/juggler/src/mqtt/outbox.rs:156-160 | With no slots the first message is queued and a drop counted, though nothing was lost. |
| OutboxSystem.MessagesConserved | crates/juggler/src/mqtt/outbox.rs:117-197 | In every interleaving each admitted message was handed over, refused by the client or evicted, once, or is queued; clients see them in order of admission; the counter is the number lost modulo 2^32; an attached client leaves nothing queued. |
| OutboxSystem.CompletedPublishesAdmittedOnce | crates/juggler/src/mqtt/outbox.rs:171-197 | In every interleaving what was admitted is what was published directly plus one message per completed waiting publish; a waiting or dropped one contributed nothing. |
| OutboxSystem.WaitingNeverEvicts | crates/juggler/src/mqtt/outbox.rs:168-170 | No step of a waiting publish removes or evicts a queued message. |
| OutboxSystem.RoomOnlyFromAttach | crates/juggler/src/mqtt/outbox.rs:190-195 | What a waiting publish waits for is brought about by `attach` alone, which owes a `wake_all`. |
| OutboxSystem.NoLostWakeup | crates/juggler/src/wait_list.rs:112-117 | In every interleaving a parked publish that could go on was woken, or its wake-up is in flight, or it is listed and an `attach` has yet to wake the list. |
| OutboxSystem.QuietMeansFull | crates/juggler/src/mqtt/outbox.rs:171-197 | Once all wake-ups are delivered, a publish still parked has no client and a full queue, and is on the list. |
| OutboxSystem.EntriesBelongToWaiters | crates/juggler/src/wait_list.rs:4-8 | Entry ids are distinct, each live wait has at most one entry, and finished or dropped waits have none. |
| OutboxSystem.FreshPublishCompletes | crates/juggler/src/mqtt/outbox.rs:171-189 | With room, a new waiting publish completes in the first section of its poll, its message taken. |
| OutboxSystem.ParkedPublishCompletes | crates/juggler/src/mqtt/outbox.rs:176-197 | From every reachable state with room, a parked publish that is polled completes within three sections, its message taken and its entry gone. |
| OutboxSystem.PublishParks | crates/juggler/src/mqtt/outbox.rs:176-197 | Without room a polled publish parks within four sections, nothing taken and its entry on the list with the waker of this poll. |
| OutboxSystem.OnlyDropGivesUp | crates/juggler/src/mqtt/outbox.rs:163-170 | In every run a waiting publish ends without completing only if it was dropped. |
| OutboxSystem.DropCleansUp | crates/juggler/src/wait_list.rs:121-127 | Dropping a parked publish removes its entry and touches nothing else. |
| OutboxSystem.EachRegistrationWakesOnce | crates/juggler/src/wait_list.rs:58-63 | Over every run the wake-ups delivered, on their way and still listed are together no more than the registrations. |
| Scan.ScanMachine.Poll | crates/juggler/src/espnow/scan.rs:294-388 | Every poll behaves as the specification's step, which all theorems below are about. |
| ScanTermination.StepLowersRank | crates/juggler/src/espnow/scan.rs:294-448 | Every poll before `Done` lowers a measure, whatever is fed. |
| ScanTermination.ScanTerminates | crates/juggler/src/espnow/scan.rs:294-296 | `Done` comes within 9 + channels * (2 + 2 * confirmations) polls and is repeated ever after. |
| ScanTermination.ConfirmationNumberFits | crates/juggler/src/espnow/scan.rs:342-345 | The confirmation counter never exceeds the configured count, so it cannot overflow. |
| ScanRuns.ScanInv | crates/juggler/src/espnow/scan.rs:294-477 | In every run the machine's state, its pending action, the channel visits and the radio agree, and every failure it would report is justified. |
| ScanRuns.ScanBurst | crates/juggler/src/espnow/scan.rs:317-320 | In every run the machine measures the budget from the very poll that answered `BoostTxPower`, and visits no channel before it. |
| ScanProtocol.EveryAnswerIsDemanded | crates/juggler/src/espnow/scan.rs:294-477 | In every run each poll is answered by what the earlier outcomes, the clock and the channel list demand, told without the machine's fields: the next step of setup, search, teardown and fallback, the channel, the confirmation, its deadline, and the error reported. |
| ScanProtocol.UpsetsAreReported | crates/juggler/src/espnow/scan.rs:390-410 | A scan that was aborted or misfed ends with exactly that error, and no other scan does. |
| ScanTheorems.VisitsArePrefix | crates/juggler/src/espnow/scan.rs:317-350 | The channels visited are a prefix of the list, each reached within the budget counted from the answer to `BoostTxPower`, and `probed` counts those whose first probe was transmitted. |
| ScanTheorems.ScanRefinesSearch | crates/juggler/src/espnow/scan.rs:317-448 | Without abort, misuse or failed registration the result is the first channel, reached within the budget counted from the answer to `BoostTxPower`, whose probe and confirmations were all acknowledged; every channel passed over could not be set or left a probe unacknowledged; it gives up only after every listed channel, or every one the budget let it reach. |
| ScanTheorems.BurstExpiredExactly | crates/juggler/src/espnow/scan.rs:276-281 | In every run `burst_expired` means the budget, counted from the answer to `BoostTxPower`, was over with a listed channel left; for every finished scan without abort or misuse it holds exactly if the peer was not found and a channel was not visited. |
| ScanTheorems.ProbesFollowVisits | crates/juggler/src/espnow/scan.rs:329-345 | In every run the probe that is out goes to the channel of the current visit, waits for the configured time, and is numbered by the acknowledgements of that visit. |
| ScanTheorems.FitsExactly | crates/juggler/src/espnow/scan.rs:294-388 | In every run an input is taken as an answer exactly if it is a kind the pending action can have. |
| ScanTheorems.ConfirmationsAreSpaced | crates/juggler/src/espnow/scan.rs:342-351 | In every run, after probe n was acknowledged, probe n + 1 goes out on the same channel at least the configured gap later, if the caller waits as told. |
| ScanTheorems.FinalStateSound | crates/juggler/src/espnow/scan.rs:352-384 | A failure leaves the pin as given; a success sets it to a listed channel and leaves radio and peer there. |
| ScanTheorems.FailedScanFallsBack | crates/juggler/src/espnow/scan.rs:450-472 | A failed scan with a pin ends by restoring the channel, then registering the peer on it, unless aborted or misfed before `Start` or inside the teardown. |
| ScanTheorems.BoostIsRestoredOnce | crates/juggler/src/espnow/scan.rs:395-410 | Whatever is fed, there is at most one boost, none is restored before it, and exactly one restore follows by the end of the burst. |
| ScanTiming.BurstEndsInTime | crates/juggler/src/espnow/scan.rs:421-448 | With a monotone clock, switches of at most S, probes of at most P and wake-ups at most E late, once a channel was switched to, power is restored before the answer to `BoostTxPower` + burst timeout + S + (1 + c) * P + c * (gap + E). |
| ScanTiming.EmptyBurstEndsAtOnce | crates/juggler/src/espnow/scan.rs:317-320 | In every run without abort or misuse, a burst that switched to no channel restores power at the very poll that answers `BoostTxPower`. |
| Session.SessionMachine.Poll | crates/juggler/src/mqtt/session.rs:199-293 | Every poll behaves as the specification's step, which the theorems below are about. |
| Session.NetworkGate.Feed | crates/juggler/src/mqtt/gate.rs:37-47 | Remembers the observation and emits its edge, if it is one. |
| SessionRuns.PhasesFollowNetwork | crates/juggler/src/mqtt/session.rs:9-11 | Over any inputs, attempts, work, readiness and retries imply the network is up, resting implies it is down, and a working token is the current generation. |
| SessionRuns.DriverIdleExactly | crates/juggler/src/mqtt/session.rs:183-191 | In every run the driver counts as idle exactly while closing with nothing opened since the last end it reported. |
| SessionRuns.ConnectsAreSeparated | crates/juggler/src/mqtt/session.rs:278-290 | Between two `Connect` actions a `Disconnected` was consumed. |
| SessionRuns.AttemptsArePaced | crates/juggler/src/mqtt/session.rs:20-21 | In every run an end with the network up is answered by exactly the configured pause, `Connect` is ordered only when the network comes up or such a pause is over, and the connect counter is the number of times the session got ready modulo 2^32. An attempt the driver starts on its own is not ordered and not paced. |
| SessionRuns.GateOpensByWork | crates/juggler/src/mqtt/session.rs:154-181 | In every run publishing opens exactly when the current connect work is reported done, needs the network, and agrees with the observable state. |
| SessionHistory.AnswersExactly | crates/juggler/src/mqtt/session.rs:194-293 | In every run each action is ordered exactly when the inputs and earlier actions demand it, in both directions: `Close`, `Connect`, `Wait` with its pause, and connect work with its token and whether it subscribes. |
| SessionHistory.CloseExactly | crates/juggler/src/mqtt/session.rs:200-272 | In every run `Close` is ordered exactly when the machine begins to close, or shuts down while an attempt, a session or a retry pause is under way that is not being closed already. |
| SessionHistory.AccessorsTellHistory | crates/juggler/src/mqtt/session.rs:154-191 | In every run state, publish gate, current work, connect counter and driver idleness are what the inputs and earlier actions imply. |
| SessionRuns.SessionsAreNumbered | crates/juggler/src/mqtt/session.rs:256-267 | Connect work that starts the i-th session of a run carries i modulo 2^32 as its token. |
| SessionRuns.StaleWorkIgnoredExactly | crates/juggler/src/mqtt/session.rs:17-18 | In every phase of every run, reports of the i-th session are taken exactly if the latest one works and the two are a multiple of 2^32 apart; otherwise nothing changes. |
| SessionRuns.AnyNumberOfSessions | crates/juggler/src/mqtt/session.rs:256-290 | For every n there is a run that works on its n-th session. |
| SessionRuns.StaleWorkIsTaken | crates/juggler/src/mqtt/session.rs:268-273 | A run in which a report 2^32 sessions old makes the machine ready. |
| SessionRuns.FlagTracksLink | crates/juggler/src/mqtt/gate.rs:27-36 | Behind the gate the machine's network flag is the last observation, until shutdown. |
| SessionRuns.EdgesAlternate | crates/juggler/src/mqtt/gate.rs:37-47 | The gate emits one edge per change, strictly alternating, up first. |
| SessionBroker.StepKeepsBeliefExactly | crates/juggler/src/mqtt/session.rs:256-272 | What the machine trusts, and what the connect work under way subscribed, stays held by the broker exactly unless a broker that forgot the session accepts while the machine is not connecting and trusts it, or works and has subscribed. |
| SessionBroker.ReadyHoldsSubscriptions | crates/juggler/src/mqtt/session.rs:12-16 | In every run without such a step, with an adapter that only reports work done once it subscribed everything, ready on a live connection means the broker holds every subscription. |
| SessionBroker.HeardConnectsSuffice | crates/juggler/src/mqtt/session.rs:256-267 | In particular if every `Connected` reaches the machine while it is connecting. |
| SessionBroker.WrongBeliefShows | crates/juggler/src/mqtt/session.rs:260-272 | From any state that such a step leaves, some honest run without another one ends ready and live with a subscription missing, so the condition is necessary. |
| SessionBroker.IgnoredConnectMisleads | crates/juggler/src/mqtt/session.rs:291-291 | A run from the start in which an ignored `Connected` leads there. |
| SessionBroker.ForgottenWorkMisleads | crates/juggler/src/mqtt/session.rs:268-273 | A run of seven events in which the work of the first session is reported done after the broker forgot what it subscribed. |
| Text.SplitJoin | crates/juggler/src/provisioning/kv_store.rs:544-549 | Splitting the index undoes joining exactly if no name contains the separator. |
| Text.DecimalRoundTrip | crates/juggler/src/provisioning/kv_store.rs:427-430 | Every 16-bit port reads back from its decimal form. |
| Text.PortParsesExactly | crates/juggler/src/provisioning/kv_store.rs:281-283 | A stored port reads as a number exactly if it is its decimal form, with leading zeros and at most one plus sign before it. |
| KvStore.KeyNamesDistinct | crates/juggler/src/provisioning/kv_store.rs:20-33 | Stored keys never collide, whatever the extras are called, and fit 15 bytes exactly if the name is within its cap. |
| KvStore.KvProvisioningStore.Save | crates/juggler/src/provisioning/kv_store.rs:335-405 | With any backend failures, the store ends as its ordered writes and removals leave it, up to the first failed write, and succeeds exactly if no write failed; an index that cannot be read counts as empty. |
| KvStore.KvProvisioningStore.WriteProfileGroup | crates/juggler/src/provisioning/kv_store.rs:411-438 | Writes the active group and removes the other; fails without a call if the group is missing. |
| KvStore.KvProvisioningStore.WriteExtras | crates/juggler/src/provisioning/kv_store.rs:358-365 | Writes every extra in order and builds their index. |
| KvStore.KvProvisioningStore.RemoveStale | crates/juggler/src/provisioning/kv_store.rs:374-391 | Removes exactly the previously indexed extras no longer named, best effort. |
| KvStore.KvProvisioningStore.EraseAll | crates/juggler/src/provisioning/kv_store.rs:490-503 | With any backend failures, removes guard, indexed extras, index and canonical keys in that order; an index that cannot be read counts as empty. |
| KvStore.KvProvisioningStore.Load | crates/juggler/src/provisioning/kv_store.rs:235-312 | Reads as the specification does, whichever keys cannot be read, first error first. |
| KvTheorems.PerformedAt | crates/juggler/src/provisioning/kv_store.rs:442-472 | A sequence of calls that counts as carried out leaves behind what it would have without failures, except under keys of which every removal failed. |
| KvTheorems.SaveStores | crates/juggler/src/provisioning/kv_store.rs:335-405 | After a save that reports success each key of the configuration holds its value; any other key is gone if a removal of it went through, else as before. |
| KvTheorems.SaveSucceedsExactly | crates/juggler/src/provisioning/kv_store.rs:335-405 | From any contents a save succeeds exactly if a field group is present, the joined extra names take at most 256 bytes and no write fails. |
| KvTheorems.LoadExactly | crates/juggler/src/provisioning/kv_store.rs:235-312 | A store that holds a configuration loads as it exactly if no extra name contains a comma and no string shows through an optional it leaves out. |
| KvLoading.FindsNothingExactly | crates/juggler/src/provisioning/kv_store.rs:192-238 | A load finds nothing exactly if the guard, or behind it the SSID, is absent, and fails at once exactly if the one it reads cannot be read. |
| KvLoading.LoadFailsExactly | crates/juggler/src/provisioning/kv_store.rs:229-312 | From any contents a load of a provisioned record fails with the error of the first key in reading order that cannot be read, is longer than its documented cap, or is an unknown profile, a missing or an unparsable port. |
| KvLoading.LoadSucceedsExactly | crates/juggler/src/provisioning/kv_store.rs:235-312 | Otherwise it fails exactly if more than eight indexed extras have a value, and returns what the stored strings spell. |
| KvLoading.RefusedExactlyByLength | crates/juggler/src/provisioning/kv_store.rs:229-234 | Where nothing else is wrong, a stored value is refused exactly if it is longer than its cap in bytes: SSID 32, password 64, URL 128, name 24, EUIs 16, key 32, host, user and MQTT password 64, client id 23, extra 64. |
| KvTheorems.SaveLoadRoundTrip | crates/juggler/src/provisioning/kv_store.rs:314-322 | From any earlier contents and whichever calls failed, loading after a save that reports success gives the configuration back exactly if no extra name contains a comma and no absent optional kept a string because every removal of it failed. |
| KvTheorems.FaultlessSave | crates/juggler/src/provisioning/kv_store.rs:314-405 | If no call fails, saving a validated configuration succeeds and loads back exactly if no extra name contains a comma. |
| KvTheorems.FailedRemovalReadsBack | crates/juggler/src/provisioning/kv_store.rs:445-448 | With only the removal of the old user name failing, the save reports success and the old name is loaded. |
| KvTheorems.AcceptedIsValidated | crates/juggler/src/provisioning/form.rs:418-833 | What the form accepts, with its caps as numbers, has one field group, every value within the cap it is loaded with and distinct non-empty extra names. |
| KvTheorems.CommaNameIsLost | crates/juggler/src/provisioning/form.rs:379-408 | A configuration that the form accepts and no successful save brings back. |
| KvTheorems.ReadErrorsOnlyFail | crates/juggler/src/provisioning/kv_store.rs:229-234 | Whichever keys cannot be read, a load returns what it would otherwise or the error of such a key. |
| KvTheorems.RecordWithoutProfileIsLorawan | crates/juggler/src/provisioning/kv_store.rs:240-244 | A record without a profile never loads as anything but LoRaWAN, whichever keys cannot be read. |
| KvTheorems.VersionOneRecordLoads | crates/juggler/src/provisioning/kv_store.rs:35-47 | A LoRaWAN record loads unchanged when its guard says version 1 and its profile is absent. |
| KvHistory.EraseClears | crates/juggler/src/provisioning/kv_store.rs:490-503 | An erase never reports a failure; a key is gone afterwards exactly if a removal of it went through or it was not there. |
| KvHistory.ServeCurrentExactly | crates/juggler/src/provisioning/kv_store.rs:314-322 | From any contents and whichever calls fail, a save or erase that reports success leaves its own contents and nothing else exactly if every key no longer wanted was removed. |
| KvHistory.NothingStale | crates/juggler/src/provisioning/kv_store.rs:314-322 | After any saves and erases of an empty store that report success, with comma-free names and no failed index read or removal of a stored key, its contents are exactly those of the latest request. |
| KvHistory.ErasedExactly | crates/juggler/src/provisioning/kv_store.rs:474-484 | An erase of a stored configuration empties the store exactly if no extra name contains a comma and no failure it hides concerns a stored key. |
| KvHistory.TornSaveStaysUnprovisioned | crates/juggler/src/provisioning/kv_store.rs:324-328 | From a store without the guard, a save cut short anywhere or ended by an error reads as unprovisioned, whichever calls failed. |
| KvHistory.TornSaveReadsExactly | crates/juggler/src/provisioning/kv_store.rs:324-328 | Whichever removals failed, a save cut short reads as provisioned exactly if the guard was there before. |
| KvHistory.ProfileBeforeGuard | crates/juggler/src/provisioning/kv_store.rs:324-328 | A complete save writes the profile right before the guard and nowhere else. |
| KvHistory.TornSaveMixes | crates/juggler/src/provisioning/kv_store.rs:344-354 | After the first write over an old record, the device loads the old configuration with the new SSID. |
| KvHistory.TornEraseIsUnprovisioned | crates/juggler/src/provisioning/kv_store.rs:479-480 | An erase that removed the guard reads as unprovisioned wherever it is cut short. |
| WriteAlign.ChunkAligner.Push | crates/juggler/src/ota/write_align.rs:94-135 | Behaves as the specification `Pushed`, refused writes included; the carry is an array updated in place. |
| WriteAlign.ChunkAligner.Finish | crates/juggler/src/ota/write_align.rs:141-157 | Behaves as the specification `Finished`, padding with the erased value. |
| WriteAlign.RoundUpIsLeast | crates/juggler/src/ota/write_align.rs:173-175 | For any alignment the rounded length is the least multiple that is not below. |
| WriteAlign.PushTakes | crates/juggler/src/ota/write_align.rs:87-135 | Whatever the driver refuses, a push takes a first part of the bytes behind what was taken before, all of them if it completes, and its writes stay aligned, contiguous and in order. |
| WriteAlign.ImageIsChunkIndependent | crates/juggler/src/ota/write_align.rs:42-47 | For every write size, stream, split and pattern of refused writes, resuming where the aligner stands ends in aligned, contiguous writes whose concatenation is the stream padded to whole words. |
| WriteAlign.UnrefusedImage | crates/juggler/src/ota/write_align.rs:10-13 | With a driver that refuses nothing, any split that covers the stream arrives and the final flush completes with that image. |
| WriteAlign.NewAlignerWritesImage | crates/juggler/src/ota/write_align.rs:71-82 | The same from a new aligner and an empty flash. |
| WriteAlign.WrongOffsetExactly | crates/juggler/src/ota/write_align.rs:87-157 | Bytes at another offset than expected, and with bytes held back another end, are refused as out of order, nothing else is, and nothing changes. |
| WriteAlign.RefusedPushExactly | crates/juggler/src/ota/write_align.rs:94-135 | A push is refused exactly if the driver refused one of its calls, and then took the rest of the held-back word and nothing else. |
| Chunks.ChunkAssembler.Feed | crates/juggler/src/mqtt/chunks.rs:98-153 | Behaves as the specification `Fed`. |
| Chunks.ReassemblyExactly | crates/juggler/src/mqtt/chunks.rs:98-168 | From any state, a split message is answered `Pending` up to its last piece and then handed out whole exactly if it is within the cap and its last piece, unless the only one, is not empty. |
| Chunks.OversizedIsSkipped | crates/juggler/src/mqtt/chunks.rs:109-144 | A message over the cap is refused once; its other pieces are skipped, up to the one that ends it. |
| Chunks.MessageExactly | crates/juggler/src/mqtt/chunks.rs:98-168 | In every run a message is handed out exactly for chunks that spell it without gaps, within the cap. |
| Chunks.RefusedExactly | crates/juggler/src/mqtt/chunks.rs:98-153 | In every run a chunk is too large exactly if it is or announces a message over the cap, and out of order exactly if it is a follow-up that neither continues the message the chunks before it left open nor belongs to one being skipped. |
| Chunks.NothingUncounted | crates/juggler/src/mqtt/chunks.rs:155-175 | Messages started are those handed out, given up and in progress. |
| Chunks.CounterCounts | crates/juggler/src/mqtt/chunks.rs:170-175 | The counter is the number given up, modulo 2^32. |
| Chunks.CutShortExactly | crates/juggler/src/mqtt/chunks.rs:92-95 | The number given up is the number cut short by another message exactly if no stray follow-up hit a message in progress. |
| Chunks.StrayIsCounted | crates/juggler/src/mqtt/chunks.rs:146-149 | A run with one message only that counts one as abandoned. |
| Topics.ValidateSubscribeFilter | crates/juggler/src/mqtt/mod.rs:106-128 | The byte loop gives the verdict of the first offending byte. |
| Topics.FilterAcceptedExactly | crates/juggler/src/mqtt/mod.rs:98-128 | A filter is accepted exactly if the topic checks hold and, split into levels, `+` is only a whole level and `#` only the whole last level. |
| Topics.RejectedForExactly | crates/juggler/src/mqtt/mod.rs:69-128 | Which verdict a rejected filter gets: empty, over 65535 bytes, NUL, in this order, or else the first wildcard out of place. |
| Topics.TopicMatchesFilter | crates/juggler/src/mqtt/mod.rs:137-168 | The loop over both level iterators decides as the specification's walk. |
| Topics.MatchesStandard | crates/juggler/src/mqtt/mod.rs:130-168 | For accepted filters matching is level by level, with a trailing `#` for any further levels and the rule for `$` topics. |
| Topics.MatchesUpToHash | crates/juggler/src/mqtt/mod.rs:137-168 | For any filter, also one never validated, matching is that of its levels up to the first whole `#`. |
| Backoff.ExponentialBackoff.Next | crates/juggler/src/backoff.rs:49-54 | The n-th delay since construction or reset is min(base * 2^n, max) over unbounded integers. |
| Backoff.DelayIsExact | crates/juggler/src/backoff.rs:50-51 | The saturating computation is exact for every base, maximum and n, past shifts of 64 and the saturation of the counter. |

## Left out

- WaitList.Wait.Poll: is read as one section; that other threads take the list's lock in between is modelled by the separate steps of `OutboxSystem`, not by this method.
- OutboxSystem.NoLostWakeup: assumes at most 2^64 waits ever drew an id, because the id counter then wraps and ids would no longer be distinct.
- OutboxSystem.MessagesConserved: needs a depth of at least one; at depth zero the counter is wrong, which `Outbox.PublishCountsExactly` states.
- Outbox.Outbox.TryPublish: is one lock section of `publish_waiting`; the `async` loop around it is the step system of `OutboxSystem`, not one method.
- ScanTiming.BurstEndsInTime: speaks of bursts that switched to a channel; the others are the subject of `ScanTiming.EmptyBurstEndsAtOnce`.
- WriteAlign.ChunkAligner.Push: does not model the overflow of the 32-bit offset, so bytes that are in order have to end within 32 bits.
- WriteAlign.ChunkAligner.Finish: likewise for the padded word; and like the source it does not look at the given end when no partial word is held back.
- OtaInvariant.ReachableInv: attempt ids are unbounded; counter exhaustion and factory reset are the consumer's policy. Serial flashing over a slot, an unreadable running slot and consumer-originated reports are outside the device, as they are outside `reconcile`. A run starts from a verified image without an attempt.
- OtaDevice.ActStep: every attempt of the device has a parsed version, so no run reports a rollback from an image of unknown version, which `ota/reconcile.rs` reports and does not refuse.
- KvStore.KvProvisioningStore.Load: a key can be read throughout one load or not at all; failures that come and go within a load are not told apart.
- Strings are sequences of bytes, one character each; Unicode, `usize` widths and memory exhaustion are not modelled.
- Threads, wakers, mutex poisoning and atomics are represented by atomic lock sections and wake events.
- `with_client_mut` and `try_with_client_mut` run arbitrary client code on the outbox.
- The peer's address and the probe payload, which no decision of the scan reads.
- `ConnectionEpoch` and the thread helpers in `mqtt/mod.rs` (superseded by the session machine), `PendingAcks`, `waker_slots.rs`, `espnow/tracker.rs`, `ota/state.rs`, `ota/deadline.rs`: single-branch logic or guarantees other code decides.
- The decoding of a form submission (which configurations result is `KvTheorems.FormAccepts`), version and hex parsing, escaping, display text, logging and secret scrubbing.
- Hardware tiers, examples, scripts, mocks, LoRa and command decoders.
