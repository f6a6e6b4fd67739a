# NetNexus: a verified model of its mock network elements

NetNexus is a network-engineering workbench. Around its desktop application it ships
mock network elements and helpers that carry real protocol state: a NETCONF server with
YANG-Push subscriptions, BGP and BMP clients, a schema exporter over libyang, an NTP
client, and the locks and gates that guard native rebuilds and settings changes. This
project models that logic in Dafny and proves what it is for, over every input and,
for the stateful parts, over every run.

`dafny verify dfyconfig.toml` checks the whole project.

## What is modelled

**NETCONF server** (`scripts/mockNetconfServer.js`). `NetconfServer` is a transition
system: three datastores with their locks and revision, sessions with one RFC 5277
subscription or several dynamic ones, per-session write callbacks, timers, a clock, and
the messages on the wire. Every RPC, callback, timer and clock reading is a step.
`YangPush` holds what one subscription does. `PushSubscription` and `DeviceState` are
the same operations as objects updated in place: every method of a subscription keeps
the invariant of a live subscription over the messages it has sent itself.
`SelectionDiff` is the recursive diff between two selections together with a receiver
that applies patches; `EditConfig` is the loop behind `edit-config`, and `EditFields`
says field by field what a fragment stores and which fragments are refused.

The central result is replica agreement. A receiver that keeps a copy and applies what it
is sent holds, after every push, exactly the filtered selection of that moment
(`ReplicaAgreesAtEverySend`), and in between its copy and the queued edits lead exactly
to the current selection (`ReplicaFollowsSelection`). Both are statements about one
subscription: what happens to other subscriptions does not matter, and a push-update heals
whatever was lost before. The proof rests on the diff being applicable in every order
(`DiffThenPatch`), on an invariant over all steps (`StepKeeps`) and on an account of what
a step does to one subscription (`StepBecomes`).

What is sent, and what it is about, is also told in the clients' terms. A subscription is
what its last accepted request asked for (`ServedAsAsked`), a push carries the datastore and
the filter of that request (`PushesCarryDatastore`), and a receiver that sees a whole
datastore reads every field of the configuration out of its copy
(`ReceiverReadsConfiguration`). `PushedIff` says exactly at which steps a push goes out,
`EndsIff` exactly which steps end a subscription, and `EndIsFinal` that nothing is sent
afterwards; `KillIsFinal`, `ResyncIsAnswered` and `StartIsAnswered` follow a request through
the queue of written replies to its effect. `WriteEffect`, `LastWriteStays` and
`LockProtects` do the same for datastores and locks.

The code does not keep the promise of replica agreement in every run. When a
subscription is switched to a periodic trigger, its queue of unsent edits is emptied
without a push. `SomeRunLosesEdits` is a run of ten steps in which an idle receiver is
left with a stale copy, and the next change update does not mend it. The exact
conditions are proved for every run: `DropKeepsStepIff` for the branch itself (the
dropped queue had no net effect), `IdleAgreesIff` for an idle receiver (what was last
sent and what was last observed are the same up to order), and `ChangeSendAgreesIff` for
every change update whatever was lost before: the receiver ends with the current
selection exactly when every edit that is the first at its place fits the copy it meets,
and nothing differs at the places no edit touches.

A second gap concerns subscriptions without sync-on-start: whatever is noticed between the
reply and activation stays queued although the selection it leads to is recorded as already
sent. `SomeEarlyEditIsRefused` is a run of six steps in which the first change update cannot
be applied to that selection. `ActivationFollowsIff` has the exact condition for every run,
whatever was noticed, pushed or modified before activation: a receiver starting from the
recorded selection is led to the current one exactly when something was pushed before, or
every queued edit that is the first at its place fits. A push-update sent under a periodic
trigger does not reset the patch id; `SomePatchIdDoesNotRestart` is a run in which a change
update right after a push-update carries a patch id other than 0, and `PatchIdsCountUp` the
exact count.

**BGP and BMP** (`scripts/mockBgpClient.js`, `scripts/mockBmpClient.js`,
`scripts/mockBmpScaleClient.js`). `BgpStream` is packet reassembly from arbitrary chunks.
`BgpUpdate` encodes UPDATE messages and decodes them back. `ScaleUpdates` holds the UPDATEs
of the load generator octet by octet, in all four families, and what a receiver reads out
of them; `ScaleStream` is its message stream, `ScaleReplay` and `ScaleTables` decode that
stream into routing tables, and `ScaleGenerator` holds the generator's loops.

A body of 65517 octets makes the 16-bit length field zero, and the receive loop then
makes no progress (`FullWrapSpins`); `SpinsIff` says exactly on which streams that
happens, and `PacketSurvivesIff` which packets come out whole. An attribute whose flags
already carry the extended-length bit on a short value is not decoded as it was meant;
`AttrSurvivesIff` has the exact condition. The generator puts no upper bound on its
batches, so an UPDATE can outgrow the same 16-bit field: an announcement carries at most
16367, 7272, 4363 or 3272 routes of the four families (`Capacities`), and
`LargeBatchIsLost` gives accepted options with which every table stays empty.
`ScenarioGivesPlannedTablesIff` says exactly when the decoded tables are the planned
ones. `RouteReader` reads the path attributes, labels and addresses back by the numbers
of the standards. The generator cannot go beyond 1024 peers once there are routes,
because a community is built from the AS number. The statistics it reports are those of
the decoded tables exactly when nothing is withdrawn and every batch has room, and for
the total in addition no family is named twice (`StatisticsMatchIff`).

**Schema exporter** (`scripts/netnexus-libyang-schema.c`). `SchemaModules` computes the
modules an export needs, `SchemaTree` lays the schema trees out in one array, and
`JsonBuffer` is the output buffer with its escaping.

**Locks and clocks.** `RebuildLock` runs any number of processes through the native
rebuild, one file-system call per step (`scripts/better-sqlite3-rebuild-lock.js`,
`scripts/rebuild-better-sqlite3.js`). A lock is judged stale by its age or because its
process has gone, and the verdict is carried out later, on whatever lock is there then:
`SomeOwnerIsRobbed` is a run in which two processes find a dead owner's lock and the
second removes the first one's new lock. `NobodyIsRobbed` says what keeps that from
happening. `RebuildRuns` tells a rebuild by its calls: what is in place whenever the
lock is free was built, validated and verified, or was there from the start, and a
rebuild that failed has put back what it found. `LifecycleGate` is the promise chain
used as a mutex (`electron/app/tcpAoSettingsLifecycleGate.js`). `NtpTime` is the
timestamp format and the offset computation (`scripts/testNtpClient.js`).

## Model

| member | source | states |
|---|---|---|
| SelectionDiff.DiffThenPatch | scripts/mockNetconfServer.js:1066-1095 | applying the edits of a diff in any order turns the first selection into the second, with no edit refused |
| SelectionDiff.DiffTargetsNotNested | scripts/mockNetconfServer.js:1066-1095 | no edit of a diff targets a node at or below the target of another edit |
| SelectionDiff.DiffEmptyIffSame | scripts/mockNetconfServer.js:1066-1095 | the diff is empty exactly when both selections hold the same nodes up to sibling order |
| SelectionDiff.DiffRelative | scripts/mockNetconfServer.js:1040-1051 | a diff below a parent is the diff at the root with the parent's path in front of every target |
| SelectionDiff.SelectDiff | scripts/mockNetconfServer.js:1062-1095 | the edits that start at one sibling are exactly those of comparing that sibling alone |
| EditConfig.EditInterface | scripts/mockNetconfServer.js:609-640 | one interface element is accepted or refused for the right reason, and changes only its own entry of the list |
| EditConfig.EditInterfaces | scripts/mockNetconfServer.js:609-640 | the loop stops at the first refused element and otherwise folds all elements into the list |
| EditConfig.ApplyConfigFragment | scripts/mockNetconfServer.js:591-647 | the stepwise update equals the fragment's meaning: blank and unknown content refused, replace starts empty |
| EditConfig.EditAllOutcome | scripts/mockNetconfServer.js:609-640 | the loop succeeds exactly when every element is acceptable, and otherwise reports why the first refused one was |
| EditConfig.EditAllRefines | scripts/mockNetconfServer.js:609-640 | the list loop refines a fold over entries keyed by name, and names stay distinct |
| EditConfig.ApplyFragmentKeepsGood | scripts/mockNetconfServer.js:591-647 | an accepted fragment keeps interface names distinct and every MTU within 576 to 9216 |
| EditConfig.ApplyFragmentIdempotent | scripts/mockNetconfServer.js:591-647 | applying an accepted fragment again leaves every entry and the system container as they are |
| EditConfig.OrderMayChange | scripts/mockNetconfServer.js:609-640 | the list order, unlike the entries, is not idempotent |
| EditFields.FragmentOutcome | scripts/mockNetconfServer.js:584-647 | a fragment is accepted exactly when it has a known part and every interface element has a name and, unless it removes, one of the four boolean texts and an MTU of 576 to 9216; otherwise the error is that of the first bad element |
| EditFields.InterfacesStored | scripts/mockNetconfServer.js:609-640 | after an accepted fragment each field of each interface has the value of the last element about that name that gives it after the last removal, or the old value, or the default; other names keep their entry and removed ones have none |
| EditFields.SystemStored | scripts/mockNetconfServer.js:600-607 | hostname, location and contact each take the text given for them, and otherwise stay, or become empty when the configuration is replaced |
| NetconfServer.RenderWellFormedIff | scripts/mockNetconfServer.js:542-582 | a rendered configuration has unique sibling identities exactly when interface names are distinct |
| Rendering.SystemReads | scripts/mockNetconfServer.js:542-554 | a reader of the receiver's forest gets back hostname, location and contact |
| Rendering.InterfacesRead | scripts/mockNetconfServer.js:556-582 | under every name the reader gets back description, enabled and MTU of the interface stored there, and nothing where none is stored |
| ReplicaProofs.RecordInStep | scripts/mockNetconfServer.js:1101-1104 | recording a change keeps the queue leading from the last selection sent to the one just observed |
| ReplicaProofs.SendUpdateKeeps | scripts/mockNetconfServer.js:2443-2472 | a push-update makes the receiver hold the selection, empties the queue and keeps the invariant |
| ReplicaProofs.SendChangeKeeps | scripts/mockNetconfServer.js:2474-2522 | a push-change-update takes a synced receiver exactly to the current selection and keeps the invariant |
| ReplicaProofs.FireChangeKeeps | scripts/mockNetconfServer.js:2206-2237 | the change timer, dampened or not, keeps timers, wakeups, patch ids and the receiver in step |
| ReplicaProofs.ObserveKeeps | scripts/mockNetconfServer.js:2524-2537 | noticing a datastore change sends nothing and keeps the invariant |
| ReplicaProofs.TickKeeps | scripts/mockNetconfServer.js:2275-2293 | the periodic scheduler keeps the invariant, and what it sends is the current selection |
| ReplicaProofs.DeliverKeeps | scripts/mockNetconfServer.js:2239-2273 | starting delivery keeps the invariant and leaves no activation due, unless it throws away edits the receiver needs |
| ReplicaProofs.DeliverModifiedKeeps | scripts/mockNetconfServer.js:2305-2311 | restarting delivery after a modification does the same |
| ReplicaProofs.DropKeepsStepIff | scripts/mockNetconfServer.js:2247-2262 | starting periodic delivery keeps a synced receiver in step exactly when the emptied queue had no net effect |
| ReplicaProofs.ChangeUpdatesAreDampened | scripts/mockNetconfServer.js:2206-2237 | a change update is sent only after the dampening period since the previous push |
| ReplicaProofs.FallbackDiffIsEmpty | scripts/mockNetconfServer.js:1106-1111 | for a synced receiver the diff used when the queue is empty never finds an edit |
| ReplicaLimits.SyncedIffUpdated | scripts/mockNetconfServer.js:2443-2472 | a receiver is synced exactly when it has been sent a push-update |
| ReplicaLimits.SwitchAndBackForgetsQueue | scripts/mockNetconfServer.js:2247-2262 | switching to periodic and back with nothing changing sends nothing, forgets the queue and leaves no timer |
| ReplicaLimits.EditMetAgain | scripts/mockNetconfServer.js:1066-1095 | an edit met again by a receiver that holds the newer selection changes nothing if it replaces and is refused if it creates or deletes |
| PatchTransfer.AcceptsIff | scripts/mockNetconfServer.js:1066-1095 | a receiver accepts an edit exactly when what it creates is absent under a present parent, and what it deletes or replaces is present |
| PatchTransfer.TransferIff | scripts/mockNetconfServer.js:1066-1111 | edits made for one copy take another copy to the same selection exactly when every first edit at a place fits it and it agrees wherever no edit touches |
| ReplicaLimits.FireChangeLed | scripts/mockNetconfServer.js:2474-2522 | whatever happened before, the edits of a change update lead from some copy to the selection of the moment |
| ReplicaLimits.EarlyEditsFitIff | scripts/mockNetconfServer.js:2239-2273 | without sync-on-start, for every series of changes before activation, the queue can be followed from the recorded selection exactly when every first edit at a place fits it |
| ReplicaLimits.OneChangeFitsIff | scripts/mockNetconfServer.js:2239-2273 | for a single change before activation that means that all its edits are replacements |
| ReplicaLimits.DetourFits | scripts/mockNetconfServer.js:2239-2273 | a detour that comes back can be followed whatever it created or deleted |
| ServerEarly.RunKeepsEarly | scripts/mockNetconfServer.js:2206-2237 | in every run, before its first activation a subscription has nothing recorded as sent, or its queue leads on from what the change timer pushed last |
| ServerEarly.ActivationFollowsIff | scripts/mockNetconfServer.js:2239-2273 | in every run, activation without sync-on-start pushes nothing, and a receiver at the selection it records is led to the current one exactly when something was pushed before or every first edit at a place fits |
| EarlyEditRun.SomeEarlyEditIsRefused | scripts/mockNetconfServer.js:2239-2273 | some run of six steps ends with a change update that a receiver at the selection recorded as sent must refuse |
| ServerProofs.StepKeeps | scripts/mockNetconfServer.js:1410-2089 | every step keeps ownership, exclusivity, locks, timers, wakeups and patch ids, and in step every receiver whose edits it does not lose |
| ServerProofs.WriteShape | scripts/mockNetconfServer.js:2830-2836 | a write is refused without any effect, or changes contents, raises the revision and notifies all subscriptions |
| ServerProofs.StepKeepsInStepIff | scripts/mockNetconfServer.js:2239-2311 | a receiver in step stays in step exactly when the step does not empty a queue it needs, whatever happens to others |
| ServerSteps.StepBecomes | scripts/mockNetconfServer.js:1410-2537 | after any step a live subscription is as before, has looked at its selection, has run one of its timers or callbacks, or awaits activation |
| ServerRuns.RunKeepsInv | scripts/mockNetconfServer.js:2652-2669 | the invariant holds in every state of every run |
| ServerRuns.RunKeepsCurrent | scripts/mockNetconfServer.js:2524-2537 | in every run an on-change subscription with no activation due has observed the selection as it is now |
| ServerRuns.UpdateHeals | scripts/mockNetconfServer.js:2443-2472 | a push-update puts its receiver in step, whatever was lost before |
| ServerRuns.RunKeepsInStep | scripts/mockNetconfServer.js:2239-2311 | in every run a receiver is in step once every loss of its own edits has been followed by a push-update |
| ServerRuns.InStepThroughoutIff | scripts/mockNetconfServer.js:2239-2311 | a receiver is in step throughout a run exactly when no step of the run loses its edits |
| ServerRuns.ReplicaFollowsSelection | scripts/mockNetconfServer.js:2206-2237 | in every state, if its own losses are healed, a synced receiver's copy plus the queued edits is exactly the current selection |
| ServerRuns.StepSends | scripts/mockNetconfServer.js:2443-2604 | a step only adds to the wire, and only for a live subscription before its stop time, one push at most |
| ServerTheorems.ReplicaAgreesAtEverySend | scripts/mockNetconfServer.js:2443-2522 | in every run a synced receiver holds the selection of the moment after every push-update, and after every change update if its own losses are healed |
| ServerRequests.ServedAsAsked | scripts/mockNetconfServer.js:1865-2023 | in every run a live subscription belongs to the session that asked for it and has the kind and stop time of its last accepted establish or modify request |
| ServerRequests.RequestTakesEffect | scripts/mockNetconfServer.js:1934-2023 | an accepted establish or modify request takes effect with its own step |
| ServerRequests.RefusedChangesNothing | scripts/mockNetconfServer.js:1865-2080 | a refused establish, modify, delete, kill or resync request changes nothing at all |
| ServerRequests.PushesCarryDatastore | scripts/mockNetconfServer.js:2433-2522 | every push-update carries the rendering of the datastore asked for, through the filter asked for, and the receiver then holds just that; a change update takes a synced receiver to the same |
| ServerRequests.ReceiverReadsConfiguration | scripts/mockNetconfServer.js:2433-2472 | after a push of a whole datastore the receiver reads every system field and every interface out of its copy |
| ServerLimits.RunKeepsLed | scripts/mockNetconfServer.js:1101-1104 | in every state of every run the queue leads from some copy to the observed selection |
| ServerLimits.FollowsIff | scripts/mockNetconfServer.js:2206-2237 | in every state of every run, losses or not, the queue takes the receiver's copy to the current selection exactly when it suits that copy |
| ServerLimits.ChangeSendAgreesIff | scripts/mockNetconfServer.js:2474-2522 | in every run, losses or not, a change update leaves the receiver with the selection of the moment exactly when it suits the copy it meets |
| ServerLimits.IdleAgreesIff | scripts/mockNetconfServer.js:2239-2273 | an idle synced receiver agrees exactly when what was last sent and what was last observed are the same up to order |
| ServerTheorems.PatchIdsCountUp | scripts/mockNetconfServer.js:2496-2501 | a patch id is the number of change updates since the last on-change push-update, modulo 2^32 |
| ServerTheorems.NoLostWakeup | scripts/mockNetconfServer.js:2206-2237 | queued edits always have exactly one armed timer or an activation still due, and no timer is armed twice |
| ServerPushes.PushesIff | scripts/mockNetconfServer.js:2206-2293 | a step sends exactly one push for a subscription, and nothing else, exactly when a starting or resynchronising callback runs, an update is due, or queued edits have waited out the dampening period, before the stop time |
| ServerPushes.PushedIff | scripts/mockNetconfServer.js:2443-2522 | the same at every step of every run |
| ServerPushes.ResyncIsAnswered | scripts/mockNetconfServer.js:2054-2080 | once the reply to a resync of an on-change subscription has been written, the whole selection goes out, if the subscription still lives |
| ServerPushes.StartIsAnswered | scripts/mockNetconfServer.js:2239-2262 | once the reply to its request has been written, a new subscription gets its first push if it synchronises on start or is periodic without an anchor |
| ServerTimers.TimersAreWound | scripts/mockNetconfServer.js:2193-2204 | in every run a live subscription with no activation due has an armed stop timer if it has a stop time and an armed update timer if it is periodic |
| ServerTimers.AnnouncementsReachListeners | scripts/mockNetconfServer.js:2554-2604 | a change or announcement puts one record on the wire for every mention of a live event-stream subscription before its stop time, and nothing else |
| ServerTimers.RecordsInOrder | scripts/mockNetconfServer.js:2838-2840 | the audience of an announcement is served in order |
| ServerTheorems.DampeningRespected | scripts/mockNetconfServer.js:2206-2237 | in every run a change update follows the previous push by at least the dampening period |
| ServerTheorems.SubscriptionOwnership | scripts/mockNetconfServer.js:1865-1874 | no session has both kinds of subscription, and a dynamic id has one owner |
| ServerTheorems.OnlyEstablishCreates | scripts/mockNetconfServer.js:1934-1950 | only establish-subscription brings an id to life, and it takes the next unused one |
| ServerTheorems.EndedStaysEnded | scripts/mockNetconfServer.js:2171-2183 | an id that has ended never comes back |
| ServerTheorems.EndedIsSilent | scripts/mockNetconfServer.js:2171-2183 | nothing is sent for an id after it has ended |
| ServerEnds.EndsIff | scripts/mockNetconfServer.js:2171-2204 | a step ends a live subscription exactly when its session closes, it is deleted, terminated or killed, or the stop time has come and something of it runs |
| ServerEnds.EndIsFinal | scripts/mockNetconfServer.js:2025-2032 | after a live subscription was deleted, killed, terminated, stopped or closed, in every run nothing is sent for its id and no session has it |
| ServerQueues.CallbacksInOrder | scripts/mockNetconfServer.js:2606-2609 | in every run each callback of a session moves forward by one with every reply written |
| ServerQueues.KillIsFinal | scripts/mockNetconfServer.js:2034-2052 | once the reply to a kill has been written, nothing is sent for the subscription any more, whoever owns it |
| ServerTheorems.NothingSentPastStopTime | scripts/mockNetconfServer.js:2185-2204 | nothing is sent at or after a subscription's stop time |
| ServerTheorems.LockHoldersAreOpen | scripts/mockNetconfServer.js:2611-2632 | every lock holder is an open session |
| ServerTheorems.CloseIsFinal | scripts/mockNetconfServer.js:2611-2632 | from its close on a session is never open again, holds no lock and owns no subscription, in every run |
| ServerTimers.OpensFreshSession | scripts/mockNetconfServer.js:2780-2783 | a new session has an id from 1001 on that was never used before, and no subscriptions |
| ServerTimers.LegacyIff | scripts/mockNetconfServer.js:1534-1545 | a session gets an RFC 5277 subscription exactly when it has none of either kind |
| ServerEffects.LockEffect | scripts/mockNetconfServer.js:1452-1463 | a lock is granted exactly to an open session that finds the datastore free or its own |
| ServerEffects.UnlockEffect | scripts/mockNetconfServer.js:1465-1474 | an unlock frees a datastore unless another session holds it |
| ServerEffects.CloseEffect | scripts/mockNetconfServer.js:2611-2632 | closing a session frees what it holds and touches no other session |
| ServerEffects.LockProtects | scripts/mockNetconfServer.js:1452-1474 | from the granting of a lock to its release, in every run, the session holds the datastore and nobody else changes it |
| ServerTheorems.OnlyHolderChanges | scripts/mockNetconfServer.js:2821-2828 | while a datastore is locked only its holder changes it |
| ServerTheorems.LockLeavesOnlyThroughHolder | scripts/mockNetconfServer.js:1452-1474 | a lock is given up only by its holder's unlock or close |
| ServerTheorems.WriteRaisesRevisionByOne | scripts/mockNetconfServer.js:2830-2836 | a write changes nothing at all or raises the revision by exactly one |
| ServerTheorems.EditChangesNothingIff | scripts/mockNetconfServer.js:1410-1427 | edit-config has no effect exactly when the session is closed, locked out, refused or test-only |
| ServerEffects.WriteEffect | scripts/mockNetconfServer.js:1410-1499 | a write that is let through puts what it asks for into its target, leaves the other datastores and all locks alone and counts once; any other changes nothing |
| ServerEffects.LastWriteStays | scripts/mockNetconfServer.js:1410-1499 | in every run a datastore holds what the last write let through put there |
| ServerEffects.CommitPublishes | scripts/mockNetconfServer.js:1486-1492 | what was last written to the candidate is what running holds after a commit |
| ServerEffects.ResetEffect | scripts/mockNetconfServer.js:2671-2677 | a reset puts all datastores, locks and the revision back to the start |
| LostEditRun.SomeRunLosesEdits | scripts/mockNetconfServer.js:1968-2023 | from every starting time a run in which an idle on-change receiver holds a stale copy, and the next change update leaves it wrong |
| PatchIdRun.SomePatchIdDoesNotRestart | scripts/mockNetconfServer.js:2443-2472 | from every starting time a run in which a change update right after a push-update carries a patch id other than 0 |
| PeriodicGrid.NextUpdateInWindow | scripts/mockNetconfServer.js:2275-2293 | a due tick moves the next update to the first grid point after now |
| PeriodicGrid.FirstUpdateOnGrid | scripts/mockNetconfServer.js:2247-2262 | the first update comes one period after the base, at an anchor still ahead, or at the first grid point after now of an anchor that has passed |
| PeriodicGrid.SeriesOnGrid | scripts/mockNetconfServer.js:2275-2293 | over any sequence of clock readings the schedule stays on its grid |
| PeriodicGrid.OneUpdatePerInterval | scripts/mockNetconfServer.js:2275-2293 | no two periodic updates fall into the same grid interval, whatever the clock does |
| ServerSchedule.ScheduleOnGrid | scripts/mockNetconfServer.js:2239-2293 | in every state of every run the next update of an active periodic subscription lies on the grid of its anchor, or of the moment it was activated |
| ServerSchedule.OnePushPerInterval | scripts/mockNetconfServer.js:2275-2293 | in every run two scheduled pushes of a periodic subscription that is not modified in between fall into different intervals of its grid, the later into a later one |
| PushSubscriptions.PushSubscription.constructor | scripts/mockNetconfServer.js:1934-1950 | a new subscription meets the invariant, unsynced, with its activation to come |
| PushSubscriptions.PushSubscription.ClearDynamicTimers | scripts/mockNetconfServer.js:2160-2169 | all held timers are cancelled, and the queue is kept or emptied as asked |
| PushSubscriptions.PushSubscription.EndIfExpired | scripts/mockNetconfServer.js:2185-2191 | the subscription ends exactly when its stop time has come |
| PushSubscriptions.PushSubscription.RecordChanges | scripts/mockNetconfServer.js:1101-1104 | for a receiver in step the queue leads from the copy it holds to the selection, and the invariant is kept |
| PushSubscriptions.PushSubscription.ScheduleOnChangeUpdate | scripts/mockNetconfServer.js:2206-2237 | afterwards queued edits of a live on-change subscription have exactly one armed timer |
| PushSubscriptions.PushSubscription.SendYangPushUpdate | scripts/mockNetconfServer.js:2443-2472 | the receiver of a live subscription then holds the selection, whatever was lost before, and the invariant is kept |
| PushSubscriptions.PushSubscription.SendYangPushChangeUpdate | scripts/mockNetconfServer.js:2474-2522 | a synced receiver in step then holds the selection, and the invariant is kept |
| PushSubscriptions.PushSubscription.OnChangeTimer | scripts/mockNetconfServer.js:2206-2237 | whether it ends, waits or sends, the invariant is kept, and after a send a synced receiver in step holds the selection |
| PushSubscriptions.PushSubscription.NotifyYangPushChange | scripts/mockNetconfServer.js:2524-2537 | nothing is sent, the invariant is kept and the queue leads from the receiver's copy to the new selection |
| PushSubscriptions.PushSubscription.ScheduleDynamicStop | scripts/mockNetconfServer.js:2193-2204 | a live subscription with a stop time has exactly one armed stop timer, and the invariant is kept |
| PushSubscriptions.PushSubscription.OnUpdateTimer | scripts/mockNetconfServer.js:2275-2293 | a push goes out exactly when it is due, the receiver then holds it and is in step, the next one lies ahead, and the invariant is kept |
| PushSubscriptions.PushSubscription.OnStopTimer | scripts/mockNetconfServer.js:2193-2204 | the invariant is kept whether the subscription ends or waits on |
| PushSubscriptions.PushSubscription.ScheduleDynamicDelivery | scripts/mockNetconfServer.js:2239-2273 | no activation is to come any more, the invariant is kept, and the receiver stays in step exactly unless a queue it needs is emptied without a push |
| PushSubscriptions.PushSubscription.ActivateModified | scripts/mockNetconfServer.js:2305-2311 | nothing is sent, the invariant is kept, and the receiver stays in step exactly unless a queue it needs is emptied |
| PushSubscriptions.PushSubscription.ModifySubscription | scripts/mockNetconfServer.js:1968-2023 | the queue survives, the invariant is kept and an activation is to come |
| DeviceState.MockState.constructor | scripts/mockNetconfServer.js:2652-2669 | three independent copies of the initial configuration, unlocked, revision one |
| DeviceState.MockState.EditConfig | scripts/mockNetconfServer.js:1410-1427 | only the target changes, to what the fragment says, and the datastores stay unaliased |
| DeviceState.MockState.CopyConfig | scripts/mockNetconfServer.js:1429-1438 | the target takes a deep copy of the source |
| DeviceState.MockState.DeleteConfig | scripts/mockNetconfServer.js:1440-1450 | the target becomes empty, and running is never deleted |
| DeviceState.MockState.Commit | scripts/mockNetconfServer.js:1486-1492 | running takes a deep copy of candidate if both are writable |
| DeviceState.MockState.DiscardChanges | scripts/mockNetconfServer.js:1494-1499 | candidate takes a deep copy of running |
| DeviceState.MockState.LockDatastore | scripts/mockNetconfServer.js:1452-1463 | a lock is granted exactly when nobody else holds it |
| DeviceState.MockState.UnlockDatastore | scripts/mockNetconfServer.js:1465-1474 | a lock is released exactly when nobody else holds it |
| DeviceState.MockState.CloseSession | scripts/mockNetconfServer.js:2611-2632 | exactly the closing session's locks are freed |
| SchemaModules.ModuleList.Contains | scripts/netnexus-libyang-schema.c:316-327 | the linear search finds exactly the members |
| SchemaModules.ModuleList.Add | scripts/netnexus-libyang-schema.c:329-340 | a module is appended once and the list stays free of duplicates |
| SchemaModules.RelationHasOwner | scripts/netnexus-libyang-schema.c:349-362 | some module of the relation is in one of the two lists |
| SchemaModules.Pass | scripts/netnexus-libyang-schema.c:364-391 | a pass stays within every closed set and, adding nothing, leaves a closed set |
| SchemaModules.ExpandRelevantModules | scripts/netnexus-libyang-schema.c:364-391 | the loop ends with the least set closed under augmentation and deviation that contains the start |
| SchemaModules.OrderIndependent | scripts/netnexus-libyang-schema.c:364-391 | the result does not depend on the order of modules in the context |
| SchemaTree.ExportTree.NewNode | scripts/netnexus-libyang-schema.c:677-713 | a node is appended unless the node limit is reached |
| SchemaTree.ExportTree.ExportSiblings | scripts/netnexus-libyang-schema.c:718-730 | a sibling list is exported exactly when it fits the depth and node limits, and then as laid out |
| SchemaTree.ExportTree.ExportSchemaNode | scripts/netnexus-libyang-schema.c:732-782 | one subtree is exported exactly when it fits, below its parent, and nothing else changes |
| SchemaTree.ExportTree.ExportModule | scripts/netnexus-libyang-schema.c:784-830 | a compiled module that fits becomes a new root with its data nodes, RPCs and notifications below, in this order |
| SchemaTree.ExportTree.ExportModules | scripts/netnexus-libyang-schema.c:784-830 | the export succeeds exactly when every module is compiled and at most 256 deep and there are at most 100000 nodes, and then lists each module's id, data nodes, RPCs and notifications in pre-order |
| SchemaTree.FitIff | scripts/netnexus-libyang-schema.c:784-830 | fitting one behind the other is the same as fitting together |
| SchemaTree.LayoutIsWalk | scripts/netnexus-libyang-schema.c:732-782 | the exported array lists a subtree in pre-order |
| SchemaTree.LayoutShape | scripts/netnexus-libyang-schema.c:677-782 | every node but the top is listed by exactly one earlier node, once, and carries its id as parent id |
| SchemaTree.ModulesAreWalks | scripts/netnexus-libyang-schema.c:784-830 | the array lists, module by module, the id, the data nodes, the RPCs and the notifications in pre-order |
| SchemaTree.RootOfModule | scripts/netnexus-libyang-schema.c:784-830 | each module starts where those before it end, with a root node that lists where its data nodes, RPCs and notifications start |
| SchemaTree.ModulesShape | scripts/netnexus-libyang-schema.c:677-830 | the same over all modules: the nodes without a parent are exactly the module roots, in pre-order |
| JsonBuffers.JsonBuffer.Reserve | scripts/netnexus-libyang-schema.c:848-887 | growing keeps the content, leaves room for the terminator and fails exactly above the limit |
| JsonBuffers.JsonBuffer.RawN | scripts/netnexus-libyang-schema.c:889-898 | a write appends whole or fails for good, and the content stays terminated |
| JsonBuffers.JsonBuffer.JsonString | scripts/netnexus-libyang-schema.c:906-950 | the loop writes exactly the quoted, escaped pieces |
| JsonBuffers.PushAllIsConcat | scripts/netnexus-libyang-schema.c:848-898 | a series of writes succeeds exactly when everything fits into 2^26-1 octets, and otherwise leaves a prefix within the limit |
| JsonBuffers.FrozenOnceFailed | scripts/netnexus-libyang-schema.c:848-898 | after a failure nothing changes any more |
| JsonBuffers.StringRoundTrip | scripts/netnexus-libyang-schema.c:906-950 | a JSON decoder recovers every C string and stops at the closing quote |
| JsonBuffers.ValueRoundTrip | scripts/netnexus-libyang-schema.c:906-950 | a missing string is written as null and told apart from every string |
| BgpStream.ChunkingDoesNotMatter | scripts/mockBgpClient.js:374-412 | however a stream is cut into chunks, the same packets and the same rest come out |
| BgpStream.StreamRoundTrip | scripts/mockBgpClient.js:109-116 | a stream of packets with an incomplete tail is cut into exactly those packets |
| BgpStream.ReassemblyIsExact | scripts/mockBgpClient.js:374-412 | for every list of packets, every tail and every chunking exactly the packets come out |
| BgpStream.PacketSurvivesIff | scripts/mockBgpClient.js:109-116 | a packet comes out whole exactly when its length fits the header field |
| BgpStream.PacketForm | scripts/mockBgpClient.js:109-116 | a packet has sixteen octets of ones, its own length, its type and its body |
| BgpStream.SpinsIff | scripts/mockBgpClient.js:374-384 | the loop makes no progress exactly when cutting whole packets brings it to a complete header of length zero |
| BgpStream.FullWrapSpins | scripts/mockBgpClient.js:109-116 | a body of 65517 octets is such a case, and no further octets help |
| BgpStream.SpinsOnlyOnLongBody | scripts/mockBgpClient.js:109-116 | a stream of built packets stops making progress only if some body is too long for its header |
| BgpStream.BgpClient.Handle | scripts/mockBgpClient.js:386-411 | flags and counter say exactly which packets have been received |
| BgpStream.BgpClient.OnData | scripts/mockBgpClient.js:374-412 | the in-place loop receives exactly the packets of buffer and chunk and keeps the rest |
| BgpUpdate.AttrsRoundTrip | scripts/mockBmpClient.js:135-145 | concatenated attributes of either header width split back into the same list |
| BgpUpdate.AttrSurvivesIff | scripts/mockBmpClient.js:135-145 | an attribute survives exactly when its length fits and the extended bit was not preset on a short value |
| BgpUpdate.NlrisRoundTrip | scripts/mockBmpClient.js:182-188 | prefixes with or without path ids are parsed back |
| BgpUpdate.UpdateRoundTrip | scripts/mockBmpClient.js:190-216 | an UPDATE splits back into withdrawn routes, attributes and prefixes |
| BgpUpdate.Ipv4UpdateRoundTrip | scripts/mockBmpClient.js:190-216 | every announcement below 65536 octets decodes to its attributes and prefixes |
| BgpUpdate.Ipv4WithdrawRoundTrip | scripts/mockBmpClient.js:218-221 | every withdrawal decodes to its prefixes |
| BgpUpdate.MpReachRoundTrip | scripts/mockBmpClient.js:236-265 | family, next hop and routes come back out of the attribute |
| BgpUpdate.MultiprotocolRoundTrip | scripts/mockBmpClient.js:236-265 | a multiprotocol announcement decodes to its attributes, the reachability one included |
| BgpUpdate.MultiprotocolWithdrawRoundTrip | scripts/mockBmpClient.js:267-271 | a multiprotocol withdrawal decodes to its attribute, which yields routes and family, modulo 2^16 |
| RouteReader.AsPathSurvivesIff | scripts/mockBmpClient.js:147-156 | an AS path is read back exactly when it has at most 255 numbers, each below 2^32 |
| RouteReader.CommunitiesRead | scripts/mockBmpClient.js:158-180 | communities are read back in order, AS number first |
| RouteReader.Ipv4WayReads | scripts/mockBmpClient.js:190-216 | origin, AS path, next hop, preference and communities of an IPv4 announcement are read back by the standard type codes and flags |
| RouteReader.MultiprotocolWayReads | scripts/mockBmpClient.js:236-265 | the same for a multiprotocol announcement, with the next hop of its reachability attribute |
| ScaleStream.PrefixInjective | scripts/mockBmpScaleClient.js:163-193 | prefixes of one address family are equal only for equal global indexes |
| RouteReader.Ipv4PrefixesNumbered | scripts/mockBmpScaleClient.js:163-174 | IPv4 prefixes are numbered through from 10.0.0.0/24 on |
| RouteReader.Ipv6PrefixesNumbered | scripts/mockBmpScaleClient.js:181-193 | IPv6 prefixes are numbered through within 2001:100::/24 |
| RouteReader.PeersNumbered | scripts/mockBmpScaleClient.js:334-343 | peers are numbered through from 10.255.0.1 on |
| RouteReader.PlanNumbers | scripts/mockBmpScaleClient.js:349-357 | routes are split evenly over the families, withdrawals are the percentage rounded down, and blocks are just large enough for the largest table |
| ScaleStream.BlocksDisjoint | scripts/mockBmpScaleClient.js:353-357 | different blocks never share a prefix |
| ScaleStream.TablesDoNotOverlap | scripts/mockBmpScaleClient.js:353-357 | Loc-RIB prefixes differ from all peers', and with unique prefixes peers differ from each other |
| ScaleStream.ScenarioSum | scripts/mockBmpScaleClient.js:498-508 | the route numbers of the messages add up to the announced total less the withdrawals |
| ScaleUpdates.AnnouncementReadsIff | scripts/mockBmpScaleClient.js:206-262 | an announcement of any family is read as exactly its routes up to the family's capacity, and not at all beyond it |
| ScaleUpdates.WithdrawalReadsIff | scripts/mockBmpScaleClient.js:273-329 | so is a withdrawal |
| ScaleUpdates.RibEndReads | scripts/mockBmpClient.js:223-234 | an end-of-RIB marker of any family moves no route |
| RouteReader.AnnouncementWay | scripts/mockBmpScaleClient.js:205-262 | every announcement of every family describes the AS path, next hop, preference and community of its table |
| RouteReader.WithdrawalForm | scripts/mockBmpScaleClient.js:274-320 | a multiprotocol withdrawal is one optional attribute of type 15 |
| RouteReader.VpnRouteReads | scripts/mockBmpScaleClient.js:195-245 | a VPN route carries its label, a distinguisher with the number of its table, and its prefix |
| RouteReader.AnnouncedLabels | scripts/mockBmpScaleClient.js:199-246 | VPN routes are announced with the label of their table |
| RouteReader.WithdrawnLabels | scripts/mockBmpScaleClient.js:287-310 | they are withdrawn with label 0x80000 |
| RouteReader.PeerAnnouncesItself | scripts/mockBmpScaleClient.js:378-389 | a peer's next hop is its own address, and its path and community begin with its own AS number |
| ScaleUpdates.Capacities | scripts/mockBmpClient.js:36-38 | the routes an UPDATE can carry before its 16-bit length wraps, for each family, for peers, Loc-RIB and withdrawals |
| ScaleReplay.BatchesReplay | scripts/mockBmpScaleClient.js:388-412 | decoding the batches of a table announces or withdraws exactly the routes of the batches that have room in an UPDATE |
| ScaleReplay.DeliveredIsPlannedIff | scripts/mockBmpScaleClient.js:388-412 | what gets through is the planned table exactly when every batch has room, or only a short last one has and the others are withdrawn, or all are |
| ScaleReplay.DeliveredSize | scripts/mockBmpScaleClient.js:388-412 | a table holds all the routes announced for it exactly when none is withdrawn and every batch has room |
| ScaleTables.ScenarioGivesTables | scripts/mockBmpScaleClient.js:483-496 | decoding the whole stream leaves every peer, family and the Loc-RIB with exactly what gets through, for every batch size |
| ScaleTables.ScenarioGivesPlannedTablesIff | scripts/mockBmpScaleClient.js:483-496 | a peer's decoded table is the planned one exactly when the planned routes get through, the Loc-RIB's exactly when every batch has room |
| ScaleTables.NothingElse | scripts/mockBmpScaleClient.js:483-496 | families and peers that are not asked for have no table |
| ScaleTables.LargeBatchIsLost | scripts/mockBmpScaleClient.js:126-128 | with accepted options of 20000 routes per batch every table stays empty, where 20000 and 100000 routes are planned |
| ScaleTables.StatisticsMatchIff | scripts/mockBmpScaleClient.js:414-424 | against the decoded tables a peer's report is right per family exactly when nothing is withdrawn and every batch has room, and in total exactly when in addition no family repeats or there are no routes |
| ScaleTables.LocRibStatisticsMatchIff | scripts/mockBmpScaleClient.js:470-480 | the Loc-RIB's report is right per family exactly when every batch has room, and in total exactly when in addition no family repeats or there are no routes |
| ScaleGenerator.BuildPrefixes | scripts/mockBmpScaleClient.js:206-262 | the prefixes of one message are those of consecutive indexes, or the generator gives up |
| ScaleGenerator.BuildBatch | scripts/mockBmpScaleClient.js:206-320 | the message of one batch, or failure exactly when a prefix or the community cannot be built |
| ScaleGenerator.GenerateBatches | scripts/mockBmpScaleClient.js:359-425 | the batch loop yields the specified batches or gives up at the end of the prefix space |
| ScaleGenerator.GenerateFamily | scripts/mockBmpScaleClient.js:359-425 | announcements, end-of-RIB and withdrawals of one family |
| ScaleGenerator.GeneratePeer | scripts/mockBmpScaleClient.js:359-425 | the messages of one peer, or failure exactly when a prefix or community cannot be built |
| ScaleGenerator.GeneratePeers | scripts/mockBmpScaleClient.js:483-496 | the messages of all peers in order, or failure exactly when one of them fails |
| ScaleGenerator.GenerateLocRib | scripts/mockBmpScaleClient.js:427-481 | the messages of the Loc-RIB, or failure exactly when its prefixes run out |
| ScaleGenerator.GenerateScenario | scripts/mockBmpScaleClient.js:483-496 | the whole stream, or failure exactly when a part fails |
| ScaleGenerator.AtMost1024Peers | scripts/mockBmpScaleClient.js:334-343 | with routes to announce, more than 1024 peers cannot be generated |
| ScaleGenerator.GeneratedStreamGivesPlannedTablesIff | scripts/mockBmpScaleClient.js:483-496 | whenever generation succeeds, decoding its output gives the planned tables exactly when the planned routes get through |
| ScaleGenerator.LargeBatchSucceeds | scripts/mockBmpScaleClient.js:126-128 | generation succeeds for the options with which every table stays empty |
| RebuildLock.MutualExclusion | scripts/better-sqlite3-rebuild-lock.js:34-105 | in every interleaving, crashes included, at most one process is inside unless a live owner's lock is removed as stale |
| RebuildLock.NobodyIsRobbed | scripts/better-sqlite3-rebuild-lock.js:34-105 | no owner loses its lock as long as nobody leaves the lock behind, none is judged by its age, and no owner ends between another's reading of its lock and the verdict |
| RobbedLockRun.SomeOwnerIsRobbed | scripts/better-sqlite3-rebuild-lock.js:34-72 | some run of twenty-one calls lets two processes in: both judge a dead owner's lock, and the second removes the first one's |
| RebuildLock.RobbingBreaksExclusion | scripts/better-sqlite3-rebuild-lock.js:58-72 | removing a live owner's lock lets two processes in, three calls later |
| RebuildLock.StepKeepsInv | scripts/rebuild-better-sqlite3.js:41-141 | every step keeps the snapshot, the files and the phase of each process consistent |
| RebuildRuns.RebuildsAreAllOrNothing | scripts/rebuild-better-sqlite3.js:79-144 | whenever the lock is free the runtime files are those of the start or those of a rebuild that ended without error, was validated with a non-empty binding and was verified |
| RebuildRuns.FailedRebuildRestores | scripts/rebuild-better-sqlite3.js:103-141 | a rebuild that failed to build, validate or verify has put back contents and modes of the pair it found when it took the lock, before it releases the lock |
| RebuildRuns.VerifiedRebuildStays | scripts/rebuild-better-sqlite3.js:109-138 | a verified rebuild keeps its output until the lock is released |
| RebuildRuns.FinishedLeavesFree | scripts/better-sqlite3-rebuild-lock.js:86-95 | a process that was not robbed frees its own lock when it finishes |
| RebuildRuns.FailedCalls | scripts/rebuild-better-sqlite3.js:103-141 | a call that fails before the build leaves the lock behind, and a failed restore still releases it |
| RebuildRuns.RestoredStepwise | scripts/rebuild-better-sqlite3.js:53-63 | a file is restored contents first and mode after, created with its mode if it is gone, and removed if it was not there |
| RebuildRuns.LooksBeforeOpening | scripts/better-sqlite3-rebuild-lock.js:58-88 | a process tries to create the lock only after a look that found none |
| RebuildRuns.NeverStuck | scripts/better-sqlite3-rebuild-lock.js:58-105 | until it is done, failed or crashed, some call of its own moves every process on |
| RebuildRuns.WaitingSince | scripts/better-sqlite3-rebuild-lock.js:58-72 | the time a process has waited counts from its first look or from the moment another one was faster |
| RebuildRuns.VerdictIff | scripts/better-sqlite3-rebuild-lock.js:34-72 | a lock is taken for stale exactly when it was over ten minutes old as read, or its process has gone; otherwise the process sleeps, or gives up after five minutes |
| LifecycleGate.StepKeepsInv | electron/app/tcpAoSettingsLifecycleGate.js:6-13 | every call and every reaction keeps the calls one chain whose queue never rejects |
| LifecycleGate.FifoMutex | electron/app/tcpAoSettingsLifecycleGate.js:6-13 | operations start in submission order and never before all earlier ones have settled |
| LifecycleGate.OwnOutcome | electron/app/tcpAoSettingsLifecycleGate.js:6-13 | a caller's promise settles with the outcome of its own operation, when that settles, and with nothing else |
| LifecycleGate.SettledNeverBlocks | electron/app/tcpAoSettingsLifecycleGate.js:6-13 | a settled operation, rejected or not, lets the next one start |
| LifecycleGate.NoDeadlock | electron/app/tcpAoSettingsLifecycleGate.js:6-13 | while something is unsettled, an operation is running or a reaction makes progress |
| LifecycleGate.TcpAoSettingsLifecycleGate.RunExclusive | electron/app/tcpAoSettingsLifecycleGate.js:6-13 | the invariant is kept, earlier calls are untouched, and the new operation cannot be invoked while the one before it is unsettled |
| NtpTime.WriteTimestamp | scripts/testNtpClient.js:84-91 | eight octets are written in place and no others |
| NtpTime.EraRoundTrip | scripts/testNtpClient.js:84-100 | what is read back is the time within its era, and the start of an era reads as no timestamp |
| NtpTime.TimestampRoundTripIff | scripts/testNtpClient.js:84-100 | the same millisecond comes back exactly inside era 0 and off its all-zero start |
| NtpTime.EpochsApart | scripts/testNtpClient.js:26 | the epochs lie as far apart as the first of January of 1900 and of 1970 |
| NtpTime.EncodedCounts | scripts/testNtpClient.js:84-91 | the eight octets count units of 2^-32 seconds since 1900, rounded down, modulo the era |
| NtpTime.OffsetWithinHalfDelay | scripts/testNtpClient.js:151-158 | the computed offset misses the true one by at most half the computed delay, and is exact exactly for equal delays |

## Left out

- XML parsing and printing, message framing, SSH and the hello exchange: the model starts from parsed requests with trimmed texts, and requests refused while parsing do not reach it.
- Subtree and XPath filters: a filter is an arbitrary function on selections that keeps sibling identities unique.
- Target paths: a target is a list of sibling identities, not the percent-encoded string built from it.
- The `operational` datastore, which mirrors running, and unknown datastore names.
- Subscription-state notifications, replay, counters and log lines; the stop timer of an RFC 5277 subscription is the step `CompleteLegacy`, allowed at any time.
- The clock is read once per step and never goes back; write callbacks of one session run in the order in which they were queued.
- ServerProofs.StepKeeps: modify-subscription may install any trigger and filter for the same datastore, which is more than the request format allows.
- ServerTheorems.ReplicaAgreesAtEverySend: for change updates it speaks of receivers whose losses have been healed; ServerLimits.ChangeSendAgreesIff says exactly what holds for the others.
- ServerLimits.IdleAgreesIff: speaks of runs without a change update between a loss and the push-update that heals it; ServerLimits.FollowsIff has no such condition.
- ServerTheorems.NoLostWakeup: says that a timer is armed, not that the event loop runs it in time.
- Allocation failure in the schema exporter; JSON text other than strings; hashed node ids.
- JsonBuffers.StringRoundTrip: the decoder does not read escaped code points above 0x7f, which the encoder never writes.
- BMP common and per-peer headers, OPEN and capability messages, EVPN, BGP-LS and FlowSpec routes.
- ScaleTables.ScenarioGivesPlannedTablesIff: for at most 64000 peers, the number of distinct peer addresses, and for indexes that fit the prefix; the receiver is a decoder that follows RFC 4271 and RFC 4760 and takes nothing from an UPDATE whose length field does not match.
- ScaleGenerator.GeneratedStreamGivesPlannedTablesIff: IPv6 indexes stay below 2^32, where the prefix would repeat.
- The 4096-octet limit of RFC 4271 on a BGP message, which the generator does not apply; the octets of statistics reports.
- The BGP client's connection handling; the loop that makes no progress is modelled as a flag that ends the step.
- The promise runtime's reactions are steps of the model of the lifecycle gate, not methods of its class.
- RebuildLock.NobodyIsRobbed: process ids are not reused, and the clock does not go back.
- RebuildRuns.RebuildsAreAllOrNothing: excludes removing a live owner's lock, a crash while inside and a restore that itself fails, after each of which the files may be a mixture.
- RebuildRuns.FailedRebuildRestores: excludes the same steps; after a restore that itself fails only the release of the lock is promised, in RebuildRuns.FailedCalls.
- Decimal formatting of NTP offsets and delays.
- The Electron application, its user interface and its persistent storage.
