# Verified model of the entwurf bridges

Entwurf gives coding-agent sessions of several vendors one addressable identity (a *garden id*), a mailbox
and a doorbell. This project models the parts of it that are protocols, and proves what they promise over
every run, interleaving or input.

Seven components are modelled. Each long-lived component has a transition system (what one synchronous
stretch, file operation or handler does), lemmas over all its runs, and the classes whose methods are proved
to take exactly those steps.

| files | component |
|---|---|
| `DurableModel`, `DurableLife`, `DurableGate`, `DurableMail`, `DurableCases`, `DurableClose`, `DurableRings`, `DurableDrains`, `DurableBirth`, `DurableContact` | the doorbell contact of the durable host: birth, gate, ring passes, inbox reads, withdrawals, retirement and close, interleaved at every await |
| `OmpModel`, `OmpSafety`, `OmpDelivery`, `OmpBootstrap` | the two-stage bootstrap of a fresh omp session, its process-wide latch and its readiness poll |
| `ReceiverModel`, `ReceiverSafety`, `ReceiverOrphans`, `ReceiverArming`, `OmpReceiver` | the omp receiver: arm, unarm, bounded retry, ring |
| `HookModel`, `HookAgreement`, `HookBusy`, `HookCreate`, `HookCases`, `HookSwitch`, `HookOutcome`, `HookProcess`, `ArmLock`, `ArmLockOutcome` | any number of concurrent Claude hook processes over one store, and the lock file they share, system call by system call |
| `Json`, `CodeUnits`, `QuotedText`, `CanonicalJson`, `CanonicalText`, `ToolSchemas` | the canonical JSON printer and the tool schema comparison built on it |
| `PermissionModel`, `PermissionRoundTrip`, `PermissionSets`, `PermissionHistory`, `PermissionRefusals`, `PermissionDoctor`, `PermissionInstaller` | the agy permission installer, its inverse and its doctor |
| `ControlSequences`, `RecorderTeardown`, `LineFraming`, `CaptionTiming` | the control-sequence recogniser and the trim built on it, the newline framing of the control socket, the caption track |

`Option` and `Listing` (a sorted directory listing) are shared. Verify the whole with
`dafny verify dfyconfig.toml`.

## How to read the model

- Everything another process, a vendor or the file system answers is an input: it comes with the event (`Io`,
  `Vendor`, `Env`, the `ok` of a step), so each theorem holds for every answer unless it says which must succeed.
- Fields called history (`stamped`, `issued`, `withdrawals`, `orphans`, `excused`, `stuck`, `stranded`, `sent`, ...)
  record what happened so that a promise over a run can be stated on its last state. No step reads them.
- File names and garden ids are numbers where only their order or identity matters.

## Where the code and its own words differ

Each difference comes with the input that shows it and the exact condition, for every run or input.

- *Durable contact, coverage.* A stamped, unread message is held by a notice exactly when the pass that stamped it
  did not fail (`DurableMail.Coverage`); a pass whose count, later rename or admission fails leaves its messages
  stamped and unannounced (`DurableCases.OrphanedMessage`).
- *Durable contact, close.* The comment at `close` says the contact judges no more. A closed contact asks for no
  withdraw exactly when at its close no ring pass awaited its admission and no withdraw loop had another drained
  notice before it (`DurableClose.ClosedAsksNoMore`). A loop goes on through its snapshot
  (`DurableCases.WithdrawsAfterClose`), and a pass that is admitted after the close pushes a notice a later read
  withdraws (`DurableClose.PassOutlivesClose`). What is asked for is still judged by its own listing, once, and
  archived (`DurableMail.WithdrawnJudged`, `DurableMail.WithdrawnOnce`).
- *Hook, busy lock.* The comment says a hook turned away by a busy lock writes nothing. It may have created the
  record it then could not lock (`HookCases.BusyHookThatWrote`): it wrote nothing exactly when one of its own looks
  had found a record of its session, and a prompt never wrote anything (`HookBusy.BusyWroteNothing`).
- *Hook, create.* Publishing a record is exclusive per garden id, not per native session, so two hooks of one session
  can publish two (`HookCases.TwoCreators`): the store is certified exactly when no create published a record of a
  session that had one (`HookCreate.CertifiedUnlessDoubled`).
- *Hook, agreement.* It fails exactly for a garden whose last committed arm had no owner, could not write its
  marker or died before it did (`HookAgreement.Agreement`; `HookCases.SpoiledGarden` is such a run).
- *Receiver, cancellation.* Both retry fields are cleared even if the canceller throws. The timer it could not cancel
  can later arm over an armed doorbell: its watcher is lost, and if another garden is armed the marker of the garden
  left goes on standing (`ReceiverOrphans.OrphanTickLeavesAMarker`). The balance of watchers holds exactly when no
  such tick happened (`ReceiverOrphans.WatchersAccounted`), and where a marker of ours stands is said exactly for
  every run (`ReceiverOrphans.MarkersAccounted`).
- *Permissions.* Installing a rule set that no longer grants a rule we added strands that rule, and granting it again
  later does not help, because it is taken for the operator's by then (`PermissionHistory.StrandedRule` is such a
  history). Over any sequence of rule sets the uninstall gives the settings back exactly when every rule granted that
  was not the operator's is granted by every later set too (`PermissionSets.RestoresIff`).
- *Recording trim.* A herdr shutdown line whose server words repeat the shutdown mark is kept, because the prefix is
  taken up to the last mark (`RecorderTeardown.MarkMustNotRecur`, `RecorderTeardown.RepeatedMark`).

## Model

| member | source | states |
|---|---|---|
| DurableMail.Coverage | pi-extensions/meta-bridge-pi-durable.ts:930-977 | in every interleaving, with no pass awaiting admission and the contact not closed, a stamped unread message is named by a held notice iff the pass that stamped it did not fail, and never by two |
| DurableMail.FaultlessRunsOrphanNothing | pi-extensions/meta-bridge-pi-durable.ts:950-974 | runs in which no rename, count or admission fails leave no message stamped and unannounced |
| DurableCases.OrphanedMessage | pi-extensions/meta-bridge-pi-durable.ts:949-974 | a run of a ready contact in which a failed pass left a stamped, unread message that no notice names |
| DurableCases.WithdrawsAfterClose | pi-extensions/meta-bridge-pi-durable.ts:1257-1268 | a run in which a closed contact asks for one more withdraw, from the snapshot it was going through |
| DurableClose.ClosedAsksNoMore | pi-extensions/meta-bridge-pi-durable.ts:1257-1268 | for every run: after a close nothing that can happen makes the contact ask for another withdraw iff at the close no pass awaited its admission and no withdraw loop had another drained notice before it |
| DurableClose.PassOutlivesClose | pi-extensions/meta-bridge-pi-durable.ts:955-971 | a run with no read at the close and one pass awaiting, which ends in one withdraw after the close |
| DurableMail.ReadsFindHandles | pi-extensions/meta-bridge-pi-durable.ts:1022-1036 | while a read is at the bridge, every message it could drain already has a held withdraw handle |
| DurableMail.WithdrawnJudged | pi-extensions/meta-bridge-pi-durable.ts:997-1015 | every withdraw ever asked for, the first included, was for a notice this contact issued, none of whose names was unread in the listing it was judged by, and all of whose mail is archived |
| DurableMail.WithdrawnOnce | pi-extensions/meta-bridge-pi-durable.ts:1006-1010 | no two withdraws were ever asked for one notice: their request ids differ |
| DurableMail.RequestIdsDiffer | pi-extensions/meta-bridge-pi-durable.ts:955-970 | request ids of all notices ever issued are pairwise distinct |
| DurableMail.ReadLeavesOnlyUnread | pi-extensions/meta-bridge-pi-durable.ts:997-1015 | after a read whose listing succeeded every held notice has an unread name in that listing |
| DurableDrains.HeldOrAsked | pi-extensions/meta-bridge-pi-durable.ts:973-1015 | until a close, in every run, an issued notice is held iff its withdraw was not asked for: no notice is lost |
| DurableDrains.DrainedAreAsked | pi-extensions/meta-bridge-pi-durable.ts:997-1036 | whatever happens meanwhile, by the time an answered read is about to leave, the withdraw of every notice then held has been asked for if the mailbox listed at the answer had none of its messages unread |
| DurableDrains.AnswersAsk | pi-extensions/meta-bridge-pi-durable.ts:997-1015 | what an answered read does first: nothing held or nothing listed leaves all notices; else the oldest drained notice is asked for, or there is none |
| DurableDrains.WithdrawsGoOn | pi-extensions/meta-bridge-pi-durable.ts:1004-1014 | after a withdraw settled, well or not, the loop goes on to the next drained notice of its snapshot, or is done |
| DurableDrains.FailuresNamed | pi-extensions/meta-bridge-pi-durable.ts:984-1014 | the report names the latest failed listing or rejected withdraw, with its request id, and nothing else changes it |
| DurableDrains.EveryReadMoves | pi-extensions/meta-bridge-pi-durable.ts:862-879 | every read queues or enters, calls, withdraws and leaves; no event moves it but its own and the one that lets it in |
| DurableMail.SpliceTail | pi-extensions/meta-bridge-pi-durable.ts:1006-1008 | while a withdraw loop runs, `splice(indexOf(notice), 1)` takes out exactly the judged notice and nothing else |
| DurableMail.JudgeKeeps | pi-extensions/meta-bridge-pi-durable.ts:997-1015 | the withdraw loop keeps the mail, withdrawal and snapshot invariants wherever it stops |
| DurableMail.RunKeeps | pi-extensions/meta-bridge-pi-durable.ts:855-1036 | the mail invariant holds after every run of passes, reads, admissions, rejections, closes and other processes' renames |
| DurableGate.GateIsExclusive | pi-extensions/meta-bridge-pi-durable.ts:852-879 | a pass and a read, or two reads, never hold the gate together; a free gate has no waiter and no holder |
| DurableGate.NoLostWakeUp | pi-extensions/meta-bridge-pi-durable.ts:862-977 | armed and free: nothing pending, nothing signalled left fresh; armed and held: such a message keeps the signal pending |
| DurableGate.PendingRingsOnLeave | pi-extensions/meta-bridge-pi-durable.ts:871-879 | whoever leaves the gate with a signal pending and nobody waiting rings at once: the doorbell retires or every fresh message is stamped and its admission asked for |
| DurableGate.NoOvertaking | pi-extensions/meta-bridge-pi-durable.ts:860-879 | the waiter queue only grows at its end and shrinks at its front, and the read taken off is the one let in |
| DurableRings.PassesRun | pi-extensions/meta-bridge-pi-durable.ts:930-977 | every pass of every run: what it stamps, in order and up to a rename that throws; the one admission it asks for, which names all fresh mail and counts all delivered; which fault takes the doorbell down; and when the gate is given up |
| DurableRings.NothingElseStamps | pi-extensions/meta-bridge-pi-durable.ts:930-977 | an event without a pass stamps nothing and asks for nothing; a signal that finds the gate held stays pending |
| DurableRings.SignalsAreServed | pi-extensions/meta-bridge-pi-durable.ts:930-977 | a signal, an admission or a leaving read with a signal to serve and no fault leaves the doorbell armed, nothing fresh, and one admission that names exactly what was fresh |
| DurableRings.DownOnlyFor | pi-extensions/meta-bridge-pi-durable.ts:881-977 | in every run an armed doorbell goes down iff the contact closes, its watch errors, its session fails, its admission is rejected, its signal file is gone or its pass faults; the report names which, and watch and marker are given back as far as the file system lets them |
| DurableRings.UpOnlyFor | pi-extensions/meta-bridge-pi-durable.ts:1045-1138 | in every run a doorbell is hung iff a birth ends well with a session to ring and its startup pass does not fail |
| DurableRings.AdmissionsRecorded | pi-extensions/meta-bridge-pi-durable.ts:967-974 | a resolved admission records one notice and the latest admission, with the names of its pass and the last of them as request id; nothing else does |
| DurableGate.RunKeeps | pi-extensions/meta-bridge-pi-durable.ts:852-977 | gate exclusion and the wake-up invariant hold after every run |
| DurableLife.ReadySettlesOnce | pi-extensions/meta-bridge-pi-durable.ts:793-805 | the ready promise settles at most once, and exactly in the states ready, failed and closed |
| DurableLife.BridgeNeverLeaks | pi-extensions/meta-bridge-pi-durable.ts:1195-1268 | the bridge child is open exactly while a birth lists it, a ready contact uses it or a close still owes its end |
| DurableLife.MarkerMeansArmed | pi-extensions/meta-bridge-pi-durable.ts:888-920 | cleanups succeeding and nobody else touching it, our receiver marker and the watch stand exactly while the doorbell is armed |
| DurableLife.StepMoves | pi-extensions/meta-bridge-pi-durable.ts:888-920 | the report only moves off, armed, retired; ready, failed and closed are left only for closed |
| DurableLife.RetirementIsFinal | pi-extensions/meta-bridge-pi-durable.ts:881-920 | no later event re-arms a retired doorbell or changes its reason |
| DurableLife.LeftAttachingNeverArms | pi-extensions/meta-bridge-pi-durable.ts:1213-1221 | a contact that left attaching mid-birth never becomes ready, never arms, and closes the bridge it opened |
| DurableBirth.EveryBirth | pi-extensions/meta-bridge-pi-durable.ts:1150-1268 | in every run: ready iff the tools agree while still attaching and the arm holds; failed iff a start, connect or cleanup fails it or it fails from outside, before that; the promise and the bridge follow, both ways |
| DurableBirth.ArmsThatFail | pi-extensions/meta-bridge-pi-durable.ts:1045-1138 | what an arm that throws at each step, or has to retire at once, leaves of signal, watch, marker and report |
| DurableContact.Contact.Ring | pi-extensions/meta-bridge-pi-durable.ts:930-940 | the synchronous head of `ring` is the model's ring step: coalesced when gated, else a pass |
| DurableContact.Contact.Round | pi-extensions/meta-bridge-pi-durable.ts:940-967 | one round of the do-while is the model's round, with every fault of listing, rename and count |
| DurableContact.Contact.StampAll | pi-extensions/meta-bridge-pi-durable.ts:950-953 | the rename loop stamps exactly the names before the first rename that throws |
| DurableContact.Contact.LeaveGate | pi-extensions/meta-bridge-pi-durable.ts:871-879 | leaving hands the gate to the first waiter, or frees it and rings if a signal is pending |
| DurableContact.Contact.EnterGate | pi-extensions/meta-bridge-pi-durable.ts:862-868 | entering takes a free gate or queues |
| DurableContact.Contact.Admitted | pi-extensions/meta-bridge-pi-durable.ts:967-977 | an admission records one notice with a new handle and goes round again iff a signal is pending and the doorbell is the same |
| DurableContact.Contact.AdmissionRejected | pi-extensions/meta-bridge-pi-durable.ts:963-966 | a rejected admission retires the doorbell and leaves the gate |
| DurableContact.Contact.WithdrawDrained | pi-extensions/meta-bridge-pi-durable.ts:997-1015 | the loop up to its next await is the model's judging of the rest of the snapshot |
| DurableContact.Contact.Retire | pi-extensions/meta-bridge-pi-durable.ts:888-920 | retirement, its cleanups and their failures |
| DurableContact.Contact.Arm | pi-extensions/meta-bridge-pi-durable.ts:1045-1138 | arming step by step: what a throw at each step leaves of signal, watch, marker, report and doorbell, and what a session that failed before the subscription leaves, the second close of the watch included |
| DurableContact.Contact.ListSettled | pi-extensions/meta-bridge-pi-durable.ts:1204-1250 | drift, a state that moved on, a failed arm, or ready with a startup ring |
| DurableContact.Contact.Close | pi-extensions/meta-bridge-pi-durable.ts:1257-1268 | close settles the promise, drops the notices and retires the doorbell |
| OmpSafety.AtMostOnce | pi-extensions/meta-bridge-omp.ts:994-1015 | whatever happens, one process makes at most one bootstrap and hands out at most the callback-only prompt and then its one launch text, each once |
| OmpSafety.TaskHasItsChain | pi-extensions/meta-bridge-omp.ts:818-981 | a launch text that was sent has behind it, in order and on the same bootstrap, its arming edge, the prompt, a matching call, a same-id result with isError false and a turn end from the bound visible session, with no visible birth edge in between |
| OmpSafety.Noninterference | pi-extensions/meta-bridge-omp.ts:1032-1047 | deleting every event of a subagent and of any other session id leaves state and messages unchanged |
| OmpSafety.PollingTerminates | pi-extensions/meta-bridge-omp.ts:885-915 | at most 601 readiness observations, after which the bootstrap has prompted or failed; a poll with an effect exists only in waiting, so a timer whose clearing threw fires without effect |
| OmpSafety.WaitingIsScheduled | pi-extensions/meta-bridge-omp.ts:907-915 | a waiting bootstrap always has its next look scheduled, until the vendor ends the session |
| OmpSafety.RunKeeps | pi-extensions/meta-bridge-omp.ts:1099-1234 | one bootstrap per process, and an inactive one is final, after every run, sends re-entered or not |
| OmpDelivery.TaskSentIff | pi-extensions/meta-bridge-omp.ts:818-1015 | in every run the launch text was sent iff its chain is complete: after the prompt the first call of the tool by its session, the first result of that call with isError false, the first turn end after that, which can send, and up to there no visible birth and no send that threw |
| OmpDelivery.Handed | pi-extensions/meta-bridge-omp.ts:885-1015 | what one more event hands to the session, in every run: the prompt iff it finds the tool there and can send, the launch text iff it ends the turn of a released bootstrap and can send |
| OmpDelivery.ReleasedDelivers | pi-extensions/meta-bridge-omp.ts:965-970 | the turn end of a released bootstrap, if it can send, makes what was sent exactly the prompt and the launch text |
| OmpDelivery.EveryMove | pi-extensions/meta-bridge-omp.ts:836-978 | every stage is reached by its cause and by nothing else, and a look in vain but in time schedules the next one 100 ms later |
| OmpDelivery.LatchSpent | pi-extensions/meta-bridge-omp.ts:1099-1172 | in every run the latch is spent iff a visible birth carried the payload |
| OmpDelivery.BootstrapMade | pi-extensions/meta-bridge-omp.ts:1099-1172 | in every run a bootstrap was made iff the first such birth names its caller and owns its timers |
| OmpDelivery.TimersStopped | pi-extensions/meta-bridge-omp.ts:836-848 | where the vendor clears what it is asked to, a bootstrap that does not wait has no live timer |
| OmpBootstrap.Bootstrap.Tick | pi-extensions/meta-bridge-omp.ts:885-905 | the readiness callback is the model's tick |
| OmpBootstrap.Bootstrap.OnToolCall | pi-extensions/meta-bridge-omp.ts:925-932 | only the first matching call with an id is taken |
| OmpBootstrap.Bootstrap.OnToolResult | pi-extensions/meta-bridge-omp.ts:933-947 | only a same-id result with isError false releases |
| OmpBootstrap.Bootstrap.OnTurnEnd | pi-extensions/meta-bridge-omp.ts:965-970 | the phase is latched before the send |
| OmpBootstrap.Bindings.OnBirthEdge | pi-extensions/meta-bridge-omp.ts:1178-1234 | a birth edge ends the epoch, then at most once arms a bootstrap |
| OmpBootstrap.Bindings.StartBootstrap | pi-extensions/meta-bridge-omp.ts:1099-1172 | the launch latch: spent by the first payload, whether or not it could be armed |
| OmpBootstrap.Bindings.EndEpoch | pi-extensions/meta-bridge-omp.ts:1089-1097 | a later visible edge fails the live bootstrap and forgets it |
| ReceiverSafety.ResourcesBalance | pi-extensions/meta-bridge-receive-omp.ts:363-500 | with a working canceller, over every run, opened minus closed watchers is one if armed, plus those whose close threw; at most one timer is live and none while armed |
| ReceiverSafety.MarkerMeansArmed | pi-extensions/meta-bridge-receive-omp.ts:580-637 | a marker naming our pid means that garden is armed with the one open watch, and the armed garden has it unless another process wrote over it |
| ReceiverSafety.EdgeCostsFortyTicks | pi-extensions/meta-bridge-receive-omp.ts:429-460 | between two edges of the host at most 40 live ticks happen, and the counter counts exactly them |
| ReceiverSafety.FortyTicksAnEdge | pi-extensions/meta-bridge-receive-omp.ts:290-304 | over any whole run, at most 40 live ticks for each edge of the host |
| ReceiverSafety.OtherModesAreIgnored | pi-extensions/meta-bridge-receive-omp.ts:290-297 | deleting every edge of another mode from a run leaves its end state unchanged |
| ReceiverSafety.RingAnnounces | pi-extensions/meta-bridge-receive-omp.ts:516-565 | a ring conserves the mailbox, stamps the oldest new mail first as far as it can be renamed, announces iff there was new mail, all of it is stamped and the send works, and counts all that is stamped |
| ReceiverSafety.ArmsForWhoeverIsHere | pi-extensions/meta-bridge-receive-omp.ts:205-229 | whoever is armed in any run was armed by an event in which sender marker, record and vendor id agreed on that garden, and no edge of the host has happened since |
| ReceiverSafety.ForeignMarkersSurvive | pi-extensions/meta-bridge-receive-omp.ts:610-636 | a marker another process owns survives every step of ours except an arm of that very garden |
| ReceiverArming.AfterEdge | pi-extensions/meta-bridge-receive-omp.ts:205-304 | after a host edge, in every run and whatever throws: armed iff marker, record and vendor agree on that garden and all of an arm works, with watch, marker, signal and a wake for waiting mail; a retry begins iff it can ring, can time, and they cannot tell yet who this session is |
| ReceiverArming.AfterTick | pi-extensions/meta-bridge-receive-omp.ts:429-466 | a live tick arms where they agree, and the retry goes on iff they cannot tell yet and fewer than 40 ticks are used |
| ReceiverArming.ArmingEndsRetry | pi-extensions/meta-bridge-receive-omp.ts:436-441 | with working cancellers a live tick that finds everything in agreement ends armed and with no timer left |
| ReceiverArming.DownOnlyFor | pi-extensions/meta-bridge-receive-omp.ts:376-395 | between edges and ticks a doorbell stays up iff its signal file is there when rung, its watch does not fail and the process does not exit under the exit guard |
| ReceiverOrphans.WatchersAccounted | pi-extensions/meta-bridge-receive-omp.ts:363-500 | over every run, whatever throws, watchers opened are exactly those closed, those whose close threw, the armed one, and one for each tick that found the receiver armed and armed again; so the balance holds iff there was no such tick |
| ReceiverOrphans.WorkingCancelLosesNothing | pi-extensions/meta-bridge-receive-omp.ts:490-500 | with a canceller that works there is no such tick |
| ReceiverOrphans.MarkersAccounted | pi-extensions/meta-bridge-receive-omp.ts:363-636 | over every run, whatever throws, a marker of ours stands exactly for the armed garden, those whose marker could not be removed and those such a tick left behind and nothing armed since, but for those another process wrote over; and the armed garden is none of the others |
| ReceiverOrphans.OrphanTickLeavesAMarker | pi-extensions/meta-bridge-receive-omp.ts:438-451 | a run in which such a tick loses a watcher and leaves the marker of the garden it left standing |
| ReceiverOrphans.ThrowingCancelOrphans | pi-extensions/meta-bridge-receive-omp.ts:490-500 | a run in which one cancellation that throws leaves an armed receiver with a live retry timer |
| OmpReceiver.Receiver.OnEdge | pi-extensions/meta-bridge-receive-omp.ts:290-304 | an edge is cancel, unarm, reset, try, retry, in that order |
| OmpReceiver.Receiver.OnTick | pi-extensions/meta-bridge-receive-omp.ts:438-451 | the retry callback is the model's tick |
| OmpReceiver.Receiver.Arm | pi-extensions/meta-bridge-receive-omp.ts:363-417 | mailbox, signal, watch, marker, then a startup ring; a failure closes the watch |
| OmpReceiver.Receiver.Unarm | pi-extensions/meta-bridge-receive-omp.ts:610-636 | unarm gives back watch and marker |
| OmpReceiver.Receiver.Ring | pi-extensions/meta-bridge-receive-omp.ts:516-565 | the do-while ends after one pass and leaves `ringing` and `pending` idle |
| OmpReceiver.Receiver.Stamp | pi-extensions/meta-bridge-receive-omp.ts:542-545 | the rename loop moves exactly the names before the first rename that throws |
| HookAgreement.Agreement | pi-extensions/meta-bridge-hook.ts:251-300 | with any number of concurrent hooks, whenever a garden's lock is free its marker carries the record's attach incarnation iff the last committed arm there had an owner, wrote its marker and lived to do so |
| HookCases.SpoiledGarden | pi-extensions/meta-bridge-hook.ts:393-454 | a run that ends with the lock free and a marker that names the arm before the ownerless one that committed last |
| HookAgreement.SoundRunsExcuseNothing | pi-extensions/meta-bridge-hook.ts:393-503 | runs of owned arms without write failure or death excuse no garden |
| HookAgreement.RunKeeps | pi-extensions/meta-bridge-hook.ts:260-513 | the invariant behind agreement holds after every run of spawns, steps and deaths |
| HookBusy.BusyWroteNothing | pi-extensions/meta-bridge-hook.ts:260-294 | in every run, a hook turned away by a busy lock wrote nothing iff one of its own looks had found a record of its session in a certified store; otherwise it wrote the record it created and only that; a prompt never wrote anything |
| HookCases.BusyHookThatWrote | pi-extensions/meta-bridge-hook.ts:265-294 | a run in which an arm turned away by a busy lock had written its record |
| HookCreate.CertifiedUnlessDoubled | pi-extensions/lib/meta-session.ts:2264-2279 | over every run, the store is certified iff no create published a record of a session that had one |
| HookCreate.StepCertifies | pi-extensions/lib/meta-session.ts:2264-2279 | no other step certifies or spoils a store, and a create spoils it iff a record of its session is there |
| HookCases.TwoCreators | pi-extensions/lib/meta-session.ts:2340-2360 | a run in which two hooks of one session both publish, under two garden ids |
| HookOutcome.WritesItAll | pi-extensions/meta-bridge-hook.ts:302-521 | in every run, a hook for which nothing went wrong and that was not turned away has by its exit written, of one garden and in order, the record if it found none, the binding, the retirement, the pointer, and for an arm the marker |
| HookOutcome.PromptPoints | pi-extensions/meta-bridge-hook.ts:296-446 | in particular a prompt with an owner that found its record has bound it and pointed its owner at it |
| HookOutcome.EveryWrite | pi-extensions/meta-bridge-hook.ts:260-503 | each write of a hook has its effect on the store, each effect is a write, and a marker copies the binding of its record |
| HookOutcome.EveryLook | pi-extensions/meta-bridge-hook.ts:260-503 | where each look at the store and each failed write takes the hook: off an uncertified store, and on without what failed only where the rest does not need it |
| HookOutcome.CommitsFirst | pi-extensions/meta-bridge-hook.ts:296-503 | whatever fails, no pointer and no marker names a garden whose record the hook has not bound, or as a prompt made |
| HookOutcome.RetiresItsOwn | pi-extensions/meta-bridge-hook.ts:425-437 | an arm retires iff its owner points at another garden, and only a marker of its owner |
| HookOutcome.BusyOnlyFor | pi-extensions/meta-bridge-hook.ts:134-151 | in every run a hook is turned away iff its attempt is given up or it does not wait at a held lock; at a free lock it gets it |
| HookOutcome.LocksGivenBack | pi-extensions/meta-bridge-hook.ts:154-178 | in every run a hook that exited holds no lock, and any other at most its own garden's |
| HookOutcome.TwelveSteps | pi-extensions/meta-bridge-hook.ts:302-521 | in every run a hook takes at most twelve steps but for its waits, and has exited after twelve |
| HookSwitch.SwitchesRetire | pi-extensions/meta-bridge-hook.ts:393-446 | over any sequence of switches, re-fires and deaths a process owns at most one receiver marker, that of the garden its sender pointer names |
| HookSwitch.ArmLeavesItsGarden | pi-extensions/meta-bridge-hook.ts:439-500 | after an arm that wrote its marker that garden is marked by the process, named by its sender pointer, and the only one it owns |
| HookSwitch.PromptSettles | pi-extensions/meta-bridge-hook.ts:425-446 | a prompt's pointer write keeps the process settled iff it owns no other garden's marker |
| HookProcess.Process.TakeArmLock | pi-extensions/meta-bridge-hook.ts:134-151 | one attempt without waiting, at most 81 with; it ends at the first attempt granted or the first refused past the deadline |
| HookProcess.Process.ReleaseArmLock | pi-extensions/meta-bridge-hook.ts:154-168 | releases the held lock if it is still ours, and holds nothing after |
| HookProcess.Process.Handle | pi-extensions/meta-bridge-hook.ts:302-521 | alone with the store, the whole hook is a run of the program counter for every answer of its file operations and exits holding no lock; with its lock granted and its record written it leaves the record bound and its owner's pointer there, and an arm is armed, with a matched pair, iff it also wrote its marker; without a garden it writes nothing, and it touches no other record and no other process's pointer |
| HookProcess.Process.Retire | pi-extensions/meta-bridge-hook.ts:425-437 | the owner's previous marker is gone if it could be unlinked, and no other |
| ArmLock.MutualExclusion | pi-extensions/lib/entwurf-v2-lock.ts:231-391 | in every interleaving of acquires, reclaims, releases and deaths at most one live attempt holds the lock, and the file carries its claim |
| ArmLock.LiveClaimIsSafe | pi-extensions/lib/entwurf-v2-lock.ts:393-422 | no reclaimer and no late release takes a live holder's lock |
| ArmLock.OneReclaimer | pi-extensions/lib/entwurf-v2-lock.ts:322-391 | at most one live attempt is past the reclaim file, and what it unlinks is a dead claim |
| ArmLockOutcome.AloneIff | pi-extensions/lib/entwurf-v2-lock.ts:231-391 | an attempt left alone, from any state of the files, is told within nine calls: it holds the lock iff there was no lock file, or one of a dead process and no reclaim under way, and else nothing changed |
| ArmLockOutcome.EveryCall | pi-extensions/lib/entwurf-v2-lock.ts:231-422 | what each call does to lock file and reclaim file, what grants and what refuses an attempt, and that each call brings it nearer to its end |
| ArmLockOutcome.ReleaseFrees | pi-extensions/lib/entwurf-v2-lock.ts:393-422 | a holder left alone removes its lock file in two calls |
| CanonicalJson.CanonicalSame | pi-extensions/meta-bridge-pi-durable.ts:302-310 | two JSON values print the same canonical text iff they are equal up to object key order |
| CanonicalJson.PrintPrefix | pi-extensions/meta-bridge-pi-durable.ts:303-310 | no printed value is the beginning of another followed by a delimiter: the printer is unambiguous in any context |
| CanonicalJson.SameNorm | pi-extensions/meta-bridge-pi-durable.ts:305-308 | equality up to key order is equality after sorting every object's keys |
| CanonicalJson.CanonicalPrints | pi-extensions/meta-bridge-pi-durable.ts:303-310 | sorting at every level while printing prints the sorted value |
| CanonicalText.CanonicalIsJson | pi-extensions/meta-bridge-pi-durable.ts:302-310 | the canonical text is JSON by the grammar of RFC 8259, and denotes a value equal to the one printed up to key order, with every object's keys ascending by code units |
| QuotedText.ReadEscaped | pi-extensions/meta-bridge-pi-durable.ts:307-309 | every string of code units, control characters and lone surrogates included, is read back from its literal by a reader of section 7 of RFC 8259 |
| QuotedText.QuotePrefix | pi-extensions/meta-bridge-pi-durable.ts:307-309 | a string literal is never the beginning of another |
| ToolSchemas.ToolSchemaDrift | pi-extensions/meta-bridge-pi-durable.ts:313-323 | the loop lists, in order, each exposed tool that is not listed or whose first listing's schema differs |
| ToolSchemas.NoDriftMeansAgreement | pi-extensions/meta-bridge-pi-durable.ts:313-323 | no problem iff every exposed tool is listed and its first listing has an equal schema up to key order |
| ToolSchemas.FoundIsFirst | pi-extensions/meta-bridge-pi-durable.ts:316 | the listing compared is the first of that name |
| PermissionRoundTrip.RoundTrip | scripts/agy-bridge-config.py:406-538 | installing growing rule sets any number of times and uninstalling gives the operator's settings back as a JSON value, null containers dropped, a created file removed, the record gone |
| PermissionRoundTrip.LegacyRoundTrip | scripts/agy-bridge-config.py:229-235 | the same, begun by a version 1 install of one rule |
| PermissionRoundTrip.ShrinkingSetStrands | scripts/agy-bridge-config.py:438-466 | after a further install with any rule set the uninstall restores iff that set grants every rule of ours |
| PermissionSets.RestoresIff | scripts/agy-bridge-config.py:406-538 | over any sequence of non-empty rule sets, installing them and uninstalling restores the settings iff every rule granted that was not the operator's is in every later set |
| PermissionSets.StuckThroughout | scripts/agy-bridge-config.py:436-466 | a rule on disk that no record calls ours survives every later install and the uninstall, granted again or not |
| PermissionHistory.StrandedRule | scripts/agy-bridge-config.py:459-466 | two rules granted where there were no settings, then one of them: the uninstall does not take the file away |
| PermissionRoundTrip.EditsSurvive | scripts/agy-bridge-config.py:406-538 | over an arbitrary document and record, install then uninstall keeps every other key, and every rule not ours, unchanged and in order |
| PermissionHistory.OperatorHistory | scripts/agy-bridge-config.py:436-538 | over any history of growing installs with arbitrary operator edits before each of them and before the uninstall, the uninstall leaves the last document but for the rules it owns, in order; it owns exactly those that were not in the operator's document when first granted |
| PermissionHistory.StagesRemember | scripts/agy-bridge-config.py:441-465 | whatever the operator does in between, the record answers for each rule what was true when it was first granted |
| PermissionRoundTrip.InstallTouchesOnlyRules | scripts/agy-bridge-config.py:418-470 | an install changes only the allow list, by appending the rules it lacks |
| PermissionRoundTrip.UninstallTouchesOnlyRules | scripts/agy-bridge-config.py:517-531 | an uninstall changes only the allow list, by taking out our rules |
| PermissionRoundTrip.InstallsAgain | scripts/agy-bridge-config.py:438-466 | a re-install carries the first install's provenance, whatever is on disk now |
| PermissionRoundTrip.UninstallRestores | scripts/agy-bridge-config.py:494-538 | taking our rules out gives back the original, containers included |
| PermissionRoundTrip.ParseWritten | scripts/agy-bridge-config.py:194-238 | the strict parser reads back exactly what an install records |
| PermissionInstaller.Installer.PermissionInstall | scripts/agy-bridge-config.py:406-491 | refused iff the settings are a link (3), of the wrong shape or under a record that is not understood (4), and then neither file changes; else every rule is granted and noted, and nothing else changed |
| PermissionInstaller.Installer.PermissionUninstall | scripts/agy-bridge-config.py:494-538 | refused iff there is no record (2), one not understood or a file that is no object (4) or a link (3), and then neither file changes; else our rules are out, the record is gone, and nothing else changed |
| PermissionInstaller.RulesExisted | scripts/agy-bridge-config.py:436-465 | per rule, the recorded answer wins over what the file says now |
| PermissionInstaller.AppendMissing | scripts/agy-bridge-config.py:466-468 | the append loop adds each missing rule once, in order |
| PermissionRefusals.InstallRefusedIff | scripts/agy-bridge-config.py:406-457 | an install is refused iff the settings are a link (3), are no object or have permissions or an allow list of another type, or the record is unreadable or, for this path, not understood (4) |
| PermissionRefusals.UninstallRefusedIff | scripts/agy-bridge-config.py:494-522 | an uninstall is refused iff there is no record (2), it is unreadable, names no path or is not understood (4), the settings are a link (3) or no object (4) |
| PermissionRefusals.ParsesUnderstood | scripts/agy-bridge-config.py:194-238 | the strict parser understands exactly complete records of version 2 or 1, and reads them as they are |
| PermissionRefusals.InstallGrants | scripts/agy-bridge-config.py:418-490 | an install that is not refused leaves a regular file with the lacking rules appended, every rule granted, nothing else changed, and a record of these rules at this path |
| PermissionRefusals.UninstallRevokes | scripts/agy-bridge-config.py:515-536 | an uninstall that is not refused leaves the document without our rules, a container only if it was the operator's or still holds something, nothing else changed and no record; the file is gone iff we made it and nothing is left |
| PermissionDoctor.Doctor | scripts/agy-bridge-config.py:541-599 | configured or covered iff the engine allows every granted tool; shadowed broadly iff a broad rule is in deny or ask, and then no tool is allowed; configured iff unshadowed with every rule in the allow list, covered by the first broad rule there; partial iff some but not all are, listing exactly those that prompt, in order |
| PermissionDoctor.FindShadow | scripts/agy-bridge-config.py:568-576 | a shadow is found iff there is one, and it is the first hit of its list; broad before exact over both lists, deny before ask |
| PermissionDoctor.Grants | scripts/agy-bridge-config.py:578-599 | what the allow list alone grants, against the engine |
| ControlSequences.OnlyCsiIsTheGrammar | demo/render-take.ts:42-54 | the greedy scan accepts exactly the concatenations of control sequences of section 5.4 of ECMA-48 |
| ControlSequences.OnlyCsiConcat | demo/render-take.ts:42-54 | closed under concatenation, and what follows such a text is judged alone |
| ControlSequences.IsOnlyCsi | demo/render-take.ts:42-54 | the index loop is that scan |
| RecorderTeardown.TrimRecorderTeardown | demo/render-take.ts:66-96 | events are split into kept and suffix; a non-empty suffix is exactly one of the two teardown forms followed by exit events, the tmux form first, and it is empty only if there is no such suffix |
| RecorderTeardown.IsHerdrClientExit | demo/render-take.ts:58-62 | accepts exactly control sequences with the alternate-screen exit followed by one shutdown line whose mark does not recur |
| RecorderTeardown.MarkMustNotRecur | demo/render-take.ts:58-62 | control sequences with the alternate-screen exit and then a shutdown line are taken for the teardown iff the mark does not come again in the server's words |
| RecorderTeardown.RepeatedMark | demo/render-take.ts:58-62 | a text of that form whose mark comes again, which is kept |
| LineFraming.ChunkInvariance | pi-extensions/entwurf-control.ts:730-737 | however the stream is cut, what is dispatched is the trimmed non-empty complete lines of the whole stream and what stays is what follows its last newline |
| LineFraming.AnyCut | pi-extensions/entwurf-control.ts:730-737 | two cuts of one stream dispatch the same commands and leave the same buffer, free of newlines |
| LineFraming.Connection.OnData | pi-extensions/entwurf-control.ts:730-737 | the handler's loop takes exactly the complete lines out of buffer and chunk |
| LineFraming.Feed | pi-extensions/entwurf-control.ts:730-737 | the handler called chunk by chunk has the effect of one call with the whole stream |
| LineFraming.FramesOnce | pi-extensions/entwurf-control.ts:732-736 | a stream has exactly one cutting into lines and rest |
| LineFraming.TrimIs | pi-extensions/entwurf-control.ts:734 | trim takes off white space only, at both ends, and all of it |
| CaptionTiming.CaptionsTile | demo/caption-take.ts:63-74 | starts ascend, the first is 0, each segment ends where the next begins and the last at the end |
| CaptionTiming.CaptionsBegin | demo/caption-take.ts:63-74 | every caption but the first begins at the first frame not more than 0.1 s before its switch, or at its own time where no frame is left |
| CaptionTiming.GifTimes | demo/caption-take.ts:27-33 | each time is the one before it plus its interval sped up, or the idle limit sped up where the interval is longer |
| CaptionTiming.GifTimeAt | demo/caption-take.ts:36-48 | the time of the first event at or after the instant, or of the last |
| CaptionTiming.TimeFromGrows | demo/caption-take.ts:36-48 | a later instant has no earlier GIF time |
| CaptionTiming.SnapIs | demo/caption-take.ts:58-60 | the frame taken is the first within the slack, or the time itself when there is none |

## Left out

- Logs, notices, status lines, exit messages and timestamps: no promise rests on them.
- MCP transport, sockets, process spawning, ffmpeg and file watching themselves: only that they succeed or fail.
- UTF-8 decoding before the framing loop, and JSON parsing of the settings and state files: texts and documents are given decoded.
- Number::toString of ECMA-262: a number is represented by the text it prints as, so equal numbers are equal texts.
- The wording of schema problems: which problems, in which order, is modelled, their English is not.
- Coverage of a closed contact: `DurableMail.Coverage` speaks of contacts that are not closed.
- Birth edges re-entered from inside the omp receiver's own send: its steps run to their end before the next begins.
- The waiting of tool calls for readiness (`waitReady`) with an abort signal: a read begins once the promise is released.
- The durable host's birth commit (record and sender marker): one success flag of the attach step.
- Record contents beyond native id and attach incarnation, and the read-then-write of an attach seen as two steps with no partial file.
- Reuse of process ids: a dead process stays dead in `ArmLock` and `HookModel`.
- DurableContact.Contact.Arm: an unsubscription that throws during cleanup is not modelled, since it changes the error's text and nothing else.
- DurableContact.Contact.Retire: an unsubscription that throws is not modelled; in the source it stands outside both try blocks, so the watch, the marker and the report would stay as they were with the doorbell gone.
- OmpReceiver.Receiver.Ring: a ring that lands on one under way asks for one more pass, but no ring is re-entered from its own send, so here the loop goes round once.
- CaptionTiming.GifTimes: exact sums of reals, where the source accumulates rounded doubles.
- HookProcess.Process.Handle: alone with the store, so it does not interleave; `HookModel` does, on values.
- A crash between the installer's two file writes: each command is one step on both files.
- The MCP server key commands of the same script, the hooks and status-line configurators, the model lock, the envelope validators and the other vendors' receivers: the same schemes with less structure.
