# Patrol dispatch: what its concurrent core keeps

This project models the core of a patrol dispatch service written in Go and proves what it keeps:

* a numbered piece of gear is a preemptive priority lock with a wait queue;
* records cached while there was no signal are replayed by any number of workers at once;
* orders, gear, incidents and tracks live in one in-memory store, and each store call is one critical section;
* a patrol track is compared with the planned route;
* monitors flag incidents that were not assigned within the response deadline, while dispatchers assign them.

## How the model is laid out

| file | what it holds |
|---|---|
| `Common.dfy`, `Sorting.dfy`, `Sums.dfy` | options and results; the stable sort that `sort.SliceStable` performs, characterised uniquely; totals over maps |
| `Equipment.dfy`, `WorkOrder.dfy`, `Incident.dfy`, `Track.dfy` | the domain entities: a value with the functions on it, and a class whose methods update fields in place and are proved against the functions |
| `Db.dfy`, `Store.dfy` | the store as a value, one function per critical section; the store as an object, one method per section |
| `StoreRules.dfy` | when each use of an order or an incident goes through and what it writes, on the fields |
| `Calls.dfy`, `Service.dfy` | the calls that go through several sections, run undisturbed: as functions on the store with their laws, and as the methods of the service and the syncer with their loops |
| `EquipmentRuns.dfy`, `ArrivalOrder.dfy` | every run of calls on one item; who is served before whom, by arrival numbers that follow each claim |
| `Replay.dfy`, `ReplayEffects.dfy`, `ReplayCounts.dfy` | every interleaving of replay workers, direct reports, enqueues and other changes |
| `ReplayReceipts.dfy` | when a receipt comes to lead to a record with another receipt |
| `ReplayCarried.dfy` | the incident that a worker puts and the track that it saves are those that it was asked for |
| `ReplayAlone.dfy` | one worker alone does what `Calls.dfy` says |
| `ReplayAgain.dfy` | what a second application of a record does, and when the track of an order is replaced |
| `ReplayUndone.dfy`, `ReplayLost.dfy`, `ReplayDiverted.dfy`, `ReplayOverwritten.dfy` | runs in which a synced record ends as failed, an increment is lost, a receipt is diverted, a newer track is lost |
| `Dispatch.dfy`, `DispatchLaws.dfy`, `DispatchStranding.dfy` | every interleaving of order and gear calls, with `IssueEquipment` split at its two locks or taken whole; when an item can no longer be given back |
| `DispatchHistory.dfy` | how every order came to where it stands, and to whom an item goes when it is asked for |
| `DispatchRace.dfy` | runs in which an order is completed or cancelled between the two locks of an issue, an item is stranded, a lock is dropped |
| `Sla.dfy` | every interleaving of monitors and dispatchers, under a clock that may or may not go back |
| `SlaCleared.dfy` | a run in which a clock that goes back clears a flag |

A machine (`Replay`, `Dispatch`, `Sla`) is a state, a datatype of actions, a predicate `Can` and a function `Do`.
A run starts in an initial state and follows `Do`; the theorems are about every state of every run.
The actions use the same functions on the store value that the store methods are proved against.

Time is an integer with 0 as Go's zero time. Ids and clock readings are inputs. An id that is drawn at random
is any id that was not drawn before. A counter that is atomic in the source is one action; `syncedCount++` is two,
a read and a write.

## Where the code and its own description part

The code is modelled as it is. In these places it does not do what its comments or names say, or what one would
expect; each has a lemma.

* A damaged return does not retire the item: `promoteNext` overwrites the status
  (`DamagedReturnRecirculates`; nothing retires an item, `RunRetiredIff`).
* First come, first served among equal priorities is lost when a promoted officer is preempted, since the promotion
  time becomes the claim time. It is lost exactly at a claim that preempts a holder while an equal in the queue carries
  a reading earlier than the holder's lock (`AfterFairIff` for one call, `RunFairIff` for whole runs, with a clock that
  does not go back; `DisplacedKeepsPlaceIff` with any readings); `FirstComeLostAfterPromotion` is a run.
* A second replay of a record is not always a no-op. Undisturbed, it is one exactly for a report with an issue id, a
  patrol note, or a track submitted at the same instant (`SecondApplyIdleIff`). Under interleaving, a worker that
  applies a record again changes incidents, index or tracks exactly when it files under an issue not yet filed, which
  takes a report without issue id, or saves a track other than the one stored (`AgainChangesIff`; for the rest
  `AppliedOnce` holds throughout). The stored track of an order stays exactly while nobody saves another one for it
  (`TrackStaysIff`, `TrackStaysOverIff`); `NewerTrackLost` is a run in which a replay puts an old track back over a newer one.
* Nor are the statuses exactly once: `MarkSyncing` hands out a record that is being synced, and `MarkFailed` may
  overwrite a synced one (`SyncedUndoneIff` says exactly when; `SyncedThenFailed` is a run).
* `syncedCount` misses increments that overlap (`AttemptsAccountedFor` says exactly when it is right;
  `TwoSyncedOneCounted` is a run).
* A receipt that was given can come to lead to a record that carries another one, when two passes apply an incident
  report without an issue id (`AstrayIff` and `RunAstrayIff` say exactly when; `ReceiptDiverted` is a run).
* Reporting twice without an issue id gives two incidents (`ReportIdempotentIff`).
* `CreateWorkOrder` lets an order in when the last one is one window old to the instant, `DuplicateWindow` does not
  (`ReuseFormsDifferIff`).
* An item that is out cannot always be given back. It can until its shift ends, unless its order is cancelled or
  verified (`ReturnableIff`), and after that never (`EndedForGood`; past the shift, with a clock that does not go back,
  `OverdueForGood`). Just two moves bring this about: ending an order
  with the item out on it, which `Cancel` does not check, or issuing the item to an order that ended after the check
  (`StrandedByIff` for one move, `RunStrandsIff` for whole runs; with whole calls only the cancellation is left,
  `WholeCallsStrandIff`). `StrandedByWholeCalls` and `StrandedAfterCancel` are runs; in the second nothing is out when
  the order is cancelled.
* An order may be completed between the check and the issue of `IssueEquipment`, and the item is then issued to the
  completed order. No item is out on a completed or verified order as long as no such late issue happens, and no
  longer (`NoneOutBreaksIff` for one move, `RunNoneOutIff` for whole runs); it takes an order that completes under a
  pending issue (`CleanBreaksIff`, `RunCleanIff`) and an officer who keeps the lock until then
  (`StaleDecisionIssuesIff`). With whole calls it cannot happen (`WholeCallsClean`); `CompletedWithItemOut` is a run.
* The roll-back of a failed issue drops the lock of whoever holds it, also when somebody else asked
  (`RollbackDropsAnyLockIff`; `LockDroppedForOther` is a run).
* A flag set by the monitor is taken back by an assignment when the clock has gone back in between (`FlagClearedIff`;
  `FlagCleared` is a run). This needs a `Clock` whose readings go back, such as one set by hand: the differences of
  `time.Now` are monotonic, and with a forward clock no flag is ever cleared (`FlagStays`).

## Model

| member | source | states |
|---|---|---|
| EquipmentModel.Equipment.Claim | internal/domain/equipment.go:71-100 | the new state is the claim function's; refused, granted or queued exactly in the cases given, with the officer's first place in the queue |
| EquipmentModel.Equipment.Enqueue | internal/domain/equipment.go:93-99 | the entry is put behind the queue and the queue sorted; the place given is the first one of the officer |
| EquipmentModel.Equipment.Issue | internal/domain/equipment.go:104-115 | exactly for the holder of a lock; on error nothing changes |
| EquipmentModel.Equipment.ReleaseLock | internal/domain/equipment.go:120-126 | the new state is the release function's: a locked item is free or with the first in line, any other is left alone |
| EquipmentModel.Equipment.Return | internal/domain/equipment.go:130-146 | exactly for the holder of an issued item; the condition is recorded and the item is free or with the first in line; on error nothing changes |
| EquipmentModel.Equipment.PromoteNext | internal/domain/equipment.go:149-164 | the first of the sorted queue gets the lock, or the item is free |
| EquipmentModel.Equipment.SortQueue | internal/domain/equipment.go:166-173 | the new queue is in order, higher priority first and earlier reading first among equals, and elements that compare equal stand as they stood |
| EquipmentModel.Equipment.QueuePosition | internal/domain/equipment.go:175-182 | the 1-based first entry of the officer, 0 exactly when there is none |
| EquipmentModel.SortedQueueUnique | internal/domain/equipment.go:166-173 | a list is the sorted queue if and only if it is in order and keeps ties as they were |
| EquipmentModel.ClaimTakesOrWaits | internal/domain/equipment.go:71-99 | who has the item after a claim, from when and before whom: a free item or a lower lock is taken, the displaced holder is put in front with the time of its lock, everybody else waits |
| EquipmentModel.HeadIsFirstInLine | internal/domain/equipment.go:157-173 | the head of the sorted queue is the entry of highest priority, among those of the earliest reading, among those the one that stands first |
| EquipmentModel.PromotedPassesOn | internal/domain/equipment.go:149-164 | a promotion gives the item to that entry, which alone leaves the queue, or frees it |
| Sorting.StableSortUnique | internal/domain/equipment.go:167 | two ordered lists with the same ties in the same order are equal, so `sort.SliceStable` has one possible result |
| EquipmentRuns.NextWellFormed | internal/domain/equipment.go:71-164 | each operation keeps: status available, locked or issued; free means no holder and no queue; queue by descending priority; the holder of a lock is not below the queue; an order only while issued |
| EquipmentRuns.RunWellFormed | internal/domain/equipment.go:71-164 | this holds after any run of calls on a fresh item, with any clock; if every issue names an order, issued exactly when the order is not blank |
| EquipmentRuns.RunRetiredIff | internal/domain/equipment.go:130-164 | over any run an item is retired at the end exactly when it was at the start |
| EquipmentRuns.DamagedReturnRecirculates | internal/domain/equipment.go:141-144 | a damaged return frees the item or passes it to the next in line |
| EquipmentRuns.NextConserves | internal/domain/equipment.go:71-164 | per officer and priority: holder plus queue gain one per claim, lose the holder per release of a lock or successful return, and nothing else |
| EquipmentRuns.RunConserves | internal/domain/equipment.go:71-164 | over any run: outstanding claims are claims less releases less returns |
| EquipmentRuns.ClaimInserts | internal/domain/equipment.go:83-99 | preempt-and-prepend and append-and-sort are the same insertion into holder followed by queue |
| EquipmentRuns.ClaimsRefineStableSort | internal/domain/equipment.go:71-100 | after claims only, holder followed by queue is the stable sort of the claims by priority, when claims of equal priority come in clock order |
| EquipmentRuns.FirstComeByPriority | internal/domain/equipment.go:35-36 | that list is the only one by descending priority with first come first among equals |
| EquipmentRuns.ClaimOrderIrrelevant | internal/domain/equipment.go:71-100 | two orders of the same claims, each priority belonging to one officer, give the same holder and queue with any clock |
| EquipmentRuns.HandoverPasses | internal/domain/equipment.go:120-164 | a release, or an issue with its return, passes the item to the first of the sorted queue or frees it |
| EquipmentRuns.DrainInOrder | internal/domain/equipment.go:120-164 | after k handovers the k-th of the sorted queue holds; one more than the queue is long frees the item |
| EquipmentRuns.DisplacedKeepsPlaceIff | internal/domain/equipment.go:83-92 | after the next sort a displaced holder stands before all of its priority exactly when no queued one carries an earlier reading than its lock, in any state |
| ArrivalOrder.AfterFollows | internal/domain/equipment.go:71-173 | the numbered tickets are those of the queue that the item has, after every call |
| ArrivalOrder.FairIffAgree | internal/domain/equipment.go:166-173 | sorting puts equals in order of arrival exactly when any two of them, as they stand, have readings and places that agree with their arrival |
| ArrivalOrder.AfterFairIff | internal/domain/equipment.go:71-173 | a call leaves equals in order of arrival exactly when it is not a claim that preempts a holder while a queued equal carries an earlier reading than the holder's lock |
| ArrivalOrder.RunFairIff | internal/domain/equipment.go:71-173 | over any run with a clock that does not go back: equals are in order of arrival after every call exactly when no call is such a claim |
| ArrivalOrder.FirstComeFirstServed | internal/domain/equipment.go:148-164 | in a run without such a claim, whoever has the lock came before everybody of that priority who still waits |
| EquipmentRuns.FirstComeLostAfterPromotion | internal/domain/equipment.go:86-163 | a run of six calls after which a later claimant stands before an earlier one of the same priority |
| EquipmentRuns.ClaimsCannotTakeIssued | internal/domain/equipment.go:83-99 | no run without a return by the holder takes an issued item from holder and order |
| Tracks.NearestOnSegment | internal/domain/track.go:62-73 | the clamped projection is nearest among all points of the segment |
| Tracks.PlanarToSegment | internal/domain/track.go:59-73 | the squared distance of some point of the segment, and at most that of any |
| Tracks.PointToSegment | internal/domain/track.go:54-74 | the same for coordinates, with the great-circle distance for a segment that is a point |
| Tracks.DistanceToRoute | internal/domain/track.go:78-93 | infinite exactly for no route; beyond a limit exactly when every point of every segment is |
| Tracks.PatrolTrack.Evaluate | internal/domain/track.go:97-114 | flagged exactly when some fix is farther than the threshold from every point of the route, in whatever order the fixes come |
| Tracks.SquaresCompareAlike | internal/domain/track.go:113 | comparing squares decides the comparison with the threshold, also a negative one |
| WorkOrders.WorkOrder.Transition | internal/domain/workorder.go:82-92 | goes through exactly for the pairs of statuses written out; an order only advances and a terminal one stays; on error nothing changes |
| WorkOrders.ActiveUntilTerminal | internal/domain/workorder.go:30-70 | an order stops occupying its grid exactly at the statuses that have no way on |
| WorkOrders.ReuseFormsDifferIff | internal/domain/workorder.go:150-159 | the documented and the enforced form of the reuse window differ exactly at an age of one window |
| Incidents.IncidentRecord.Assign | internal/domain/incident.go:64-76 | exactly for reported incidents and a named handler; handler, time and lateness are recorded; on error nothing changes |
| Incidents.IncidentRecord.StartHandling | internal/domain/incident.go:79-85 | exactly for assigned incidents |
| Incidents.IncidentRecord.Close | internal/domain/incident.go:88-95 | exactly for assigned or handled incidents, which are closed as of the reading |
| Incidents.IncidentRecord.Flag | internal/app/incident.go:98-104 | sets the flag exactly on reported incidents without one, and tells whether it did |
| Database.BeforeOrder | internal/store/offline.go:87-92 | the order on records is strict, transitive, and total on different local ids |
| Database.LexLessIff | internal/store/offline.go:91 | local ids compare by the first place where they differ, and a prefix comes first |
| Database.PendingListUnique | internal/store/offline.go:69-85 | there is only one pending list, whatever the order in which the map is walked |
| Stores.Store.EnqueueOffline | internal/store/offline.go:51-65 | a known local id is left as it is and given back; otherwise the record is stored as it came, a blank time stamped and a blank status pending |
| Stores.Store.PendingOffline | internal/store/offline.go:69-85 | strictly ascending, and exactly the pending and failed records |
| Stores.SortRecords | internal/store/offline.go:79-83 | the in-place insertion sort gives an ascending array of the same records |
| Stores.Store.OfflineReceipt | internal/store/offline.go:103-111 | the record that the receipt index names, none exactly when there is no entry |
| Stores.Store.MarkSyncing | internal/store/offline.go:115-129 | handed out exactly when known and not synced, as syncing with one more attempt and nothing else changed |
| Stores.Store.MarkSynced | internal/store/offline.go:132-147 | synced at the reading with its receipt and no error, and the receipt leads to it |
| Stores.Store.MarkFailed | internal/store/offline.go:150-160 | failed with the error, from any status |
| Stores.Store.IncidentByIssue | internal/store/store.go:338-346 | found exactly when the issue is indexed |
| Stores.Store.PutIncidentAtomic | internal/store/store.go:374-390 | gives the stored incident that is filed under the issue and changes nothing, or stores the new one as it is, stamped if need be, and indexes it |
| Stores.Store.MutateIncident | internal/store/store.go:394-410 | the use applied to the stored incident, nothing on error; tells whether the monitor's flag is new |
| Stores.Store.UseIncident | internal/app/incident.go:59-77 | the service's closures on the loaded copy |
| Stores.Store.OpenIncidents | internal/store/store.go:349-358 | exactly the incidents that are reported, assigned or handled, each once |
| Stores.Store.SaveTrack | internal/store/store.go:415-419 | the track is stored under its order |
| Stores.Store.CreateWorkOrder | internal/store/store.go:199-225 | the order of a known key, or rejected exactly when an order of the grid that is not verified or cancelled is younger than the window, or stored field by field as the draft, with its two stamps; no other order changes |
| Stores.Store.IsGridTaken | internal/store/store.go:208-215 | the loop finds such an order exactly when there is one |
| Stores.Store.MutateWorkOrder | internal/store/store.go:229-243 | the use applied to the stored order and stamped, nothing on error |
| Stores.Store.UseOrder | internal/app/service.go:109-181 | the use that is asked for, with its errors in order |
| Stores.Store.Dispatch | internal/app/service.go:109-119 | goes through exactly for a draft whose grid, crew, prior report and shift keep the rules, written out on the fields |
| Stores.Store.CheckIn | internal/app/service.go:124-145 | goes through exactly for a dispatched order, an assignee, and a checkpoint of its grid that is the planned one if there is one; the order is then at that checkpoint |
| Stores.Store.Complete | internal/app/service.go:156-163 | goes through exactly for an order in progress with no item issued to it |
| Stores.Store.Verify | internal/app/service.go:167-174 | goes through exactly for a completed order with a track |
| StoreRules.DispatchIff | internal/app/service.go:109-119 | the same of the whole dispatch in the store, with all that it writes |
| StoreRules.CheckInIff | internal/app/service.go:124-145 | the same of a check-in |
| StoreRules.StartIff | internal/app/service.go:148-152 | a patrol starts exactly from check-in |
| StoreRules.CompleteIff | internal/app/service.go:156-163 | the same of a completion |
| StoreRules.VerifyIff | internal/app/service.go:167-174 | the same of a verification |
| StoreRules.CancelIff | internal/app/service.go:177-181 | an order is cancelled exactly while it is neither verified nor cancelled |
| StoreRules.AssignIff | internal/app/incident.go:59-63 | an assignment in the store goes through exactly for a reported incident and a named handler; what it writes |
| StoreRules.HandleIff | internal/app/incident.go:66-70 | the same of the start of handling |
| StoreRules.CloseIff | internal/app/incident.go:73-77 | the same of a closure |
| Stores.Store.OpenEquipmentForOrder | internal/app/service.go:230-238 | the number of items issued to the order; 0 exactly when there is none |
| Stores.Store.ClaimEquipment | internal/store/store.go:288-298 | one claim under the lock; unknown items are refused; granted, queued at a place or refused exactly as the item's status and priority say; who holds it then and who waits |
| Stores.Store.IssueItem | internal/app/equipment.go:52-54 | one issue under the lock, exactly for the holder of a lock; nothing on error |
| Stores.Store.ReleaseItem | internal/app/equipment.go:59-64 | one release under the lock: a locked item is free or with the first in line |
| Stores.Store.ReturnItem | internal/app/equipment.go:69-85 | one return under the lock, refused first by the order and then by the item; the condition given is recorded and the item moves on; nothing on error |
| Services.Service.ReportIncident | internal/app/incident.go:26-55 | the incident of a filed issue; else refused exactly when order, kind or an id is missing; else a new incident stored with the fields of the request, reported, unassigned and unflagged as of the reading, and nothing else changed |
| Calls.ReportFiles | internal/app/incident.go:26-55 | the same of the report function on the store |
| Calls.ReportIsWatched | internal/app/incident.go:36-46 | a new incident is in the open list, and a sweep flags it exactly when it reads the clock more than the deadline after the report |
| Sla.ReportIsMove | internal/app/incident.go:36-50 | a report that files a new incident is a move of the machine of monitors and dispatchers |
| Services.Service.SubmitTrack | internal/app/incident.go:112-133 | refused exactly when order, grid, id or points are missing; else the stored track has the points, the reading and the origin, is flagged exactly when some fix strays beyond the threshold, and carries the greatest deviation |
| Calls.NewTrackTells | internal/app/incident.go:121-132 | the same of the track that the function on the store makes |
| Tracks.MaxSquareExists | internal/domain/track.go:108-112 | there is a greatest squared deviation for any fixes and route |
| Services.Service.EvaluateTrack | internal/app/incident.go:130 | flag and greatest squared deviation of the points against the route |
| Services.Service.ApplyOfflineRecord | internal/app/incident.go:159-189 | outcome, receipt and store for each kind of payload: the receipt names the incident of the issue, the order of the track just saved, or the record |
| Services.Service.FlagSlaBreaches | internal/app/incident.go:88-107 | marks exactly the reported, unflagged incidents past the deadline and counts them; index entries stay where index and incidents are inverse, and otherwise follow an incident's own issue; nothing else changes |
| Calls.SweptFlagsIff | internal/app/incident.go:91-106 | after a sweep an incident is flagged exactly if it was, or is still reported and late; nothing else of it changes |
| Services.Service.IssueEquipment | internal/app/equipment.go:34-55 | for the holder of the lock: issued to the officer on the order exactly when that is stored, checked in or in progress, and has the officer on it; otherwise the item is free or with the first in line. For anybody, the faults in turn |
| Services.Syncer.MonitorSla | internal/sync/syncer.go:81-86 | the counter grows by the number of incidents newly flagged |
| Services.Syncer.ReplayRecord | internal/sync/syncer.go:98-111 | one record: skipped exactly when unknown or synced, else synced or failed, with the counter of each |
| Services.Syncer.Settle | internal/sync/syncer.go:103-111 | failed with the error and counted, or synced with the receipt and counted |
| Services.Syncer.ReconcileOffline | internal/sync/syncer.go:92-114 | nothing offline; online the pending list in order, with the two totals |
| Calls.PassFromFront | internal/sync/syncer.go:97-98 | the first of the list, which is the oldest, is replayed before the others |
| Calls.ReportKeepsIndexed | internal/store/store.go:374-390 | a report keeps issue index and incidents inverse, and its answer is what the issue is filed under |
| Calls.ReportIdempotentIff | internal/app/incident.go:23-32 | reporting twice gives one incident exactly when the client names the issue |
| Calls.PassSettles | internal/sync/syncer.go:97-113 | a pass leaves each listed record synced or failed with one more attempt, touches no other, and counts them all |
| Calls.SecondPassIdleIff | internal/sync/syncer.go:88-114 | nothing is left to sync exactly when nothing failed, and a further pass then changes nothing |
| ReplayEffects.ActionOk | internal/sync/syncer.go:92-114 | every critical section of every worker keeps the invariant; incidents, index entries, records with their payloads, and the fact that an order has a track, are not taken back |
| ReplayEffects.RunOk | internal/sync/syncer.go:92-114 | the invariant holds in every state of every interleaving |
| ReplayEffects.RunGrows | internal/store/store.go:374-410 | incidents, index entries, records and payloads stay for the rest of the run, and an order that has a track goes on having one, though perhaps another |
| ReplayCarried.PutIsTheReport | internal/app/incident.go:33-50 | in every interleaving: an incident about to be put is new, reported, unassigned and unflagged, with the fields of the report for which its worker has checked the order, and as of that reading |
| ReplayCarried.SaveIsTheTrack | internal/app/incident.go:113-132 | in every interleaving: a track about to be saved has the points of its request, and flag and greatest deviation by the route of the grid that its worker has read |
| ReplayCarried.CarriesThePayload | internal/app/incident.go:160-182 | in every interleaving: what a replaying worker puts or saves comes from the payload of its record |
| ReplayCarried.PutStoresIff | internal/store/store.go:374-390 | the write files the incident as it is held, exactly unless the issue has been filed in the meantime |
| Calls.SecondApplyIdleIff | internal/sync/syncer.go:88-91 | applying a record again, undisturbed, changes nothing exactly for a report with an issue id, a patrol note, or a track submitted at the same instant |
| ReplayAgain.TrackStaysIff | internal/store/store.go:415-419 | an action replaces the track of an order exactly when it saves another one for it |
| ReplayAgain.TrackStaysOverIff | internal/app/incident.go:112-133 | over any stretch of a run the track of an order stays exactly when nobody saves another one for it |
| ReplayAgain.AgainChangesIff | internal/app/incident.go:156-189 | a worker that applies an applied record again changes incidents, index or tracks exactly when it files under an issue not yet filed, of a report without issue id, or saves a track other than the stored one |
| ReplayAgain.AppliedOnce | internal/sync/syncer.go:88-91 | once a report with issue id or a patrol note is applied, no step of any later application, in any interleaving, changes incidents, index or tracks |
| ReplayOverwritten.NewerTrackLost | internal/app/incident.go:112-133 | for any record and any newer track there is a run in which the record is synced, the newer track is stored, and a second application puts the old track back |
| ReplayEffects.ReceiptsStandForEffects | internal/app/incident.go:159-189 | in every interleaving a receipt names an effect that is in the store, and a synced record has a receipt |
| ReplayEffects.OneIncidentPerIssue | internal/app/incident.go:26-55 | in every interleaving an issue has one incident, and every answer for it, then or later, names that one |
| ReplayEffects.SameReceiptEveryTime | internal/app/incident.go:156-189 | all applications of one record with an issue id give one receipt |
| ReplayEffects.ReceiptLeadsToCarrier | internal/store/offline.go:102-147 | the receipt index leads to a record that carries the receipt, also when two records share it, if that record is not an incident report without issue id; every carried receipt can be looked up |
| ReplayCounts.RunCounts | internal/sync/syncer.go:92-114 | attempts, increments, failures and workers on their way balance in every state |
| ReplayCounts.AttemptsAccountedFor | internal/sync/syncer.go:92-114 | attempts are increments plus failures plus workers on their way; the counter equals the increments exactly when none was lost |
| ReplayCounts.QuietStore | internal/store/offline.go:69-77 | with nobody on the way every record is pending, failed or synced, and no more are synced than counted |
| ReplayCounts.OverlapLosesOne | internal/sync/syncer.go:110 | two overlapping increments count once, from any state |
| ReplayLost.TwoSyncedOneCounted | internal/sync/syncer.go:92-114 | from the empty service a run ends with nobody under way, two records synced and a counter of one |
| ReplayReceipts.AstrayIff | internal/store/offline.go:132-147 | a receipt comes to lead to a record with another one exactly when that record is confirmed under another receipt |
| ReplayReceipts.RunAstrayIff | internal/store/offline.go:102-147 | over any run: every receipt in the index always leads to a record that carries it exactly when no such confirmation happens |
| ReplayDiverted.ReceiptDiverted | internal/app/incident.go:26-55 | for any well-formed report without issue id there is a run that ends with a receipt leading to a record that carries another |
| ReplayCounts.SyncedUndoneIff | internal/store/offline.go:150-160 | a synced record stops being synced exactly when a worker that took it earlier gives it up |
| ReplayCounts.SettledForGood | internal/store/offline.go:115-160 | a synced record that nobody works on never changes again |
| ReplayAlone.ReportAlone | internal/app/incident.go:26-55 | the single steps of a report, undisturbed, have the outcome and the store of the whole call |
| ReplayAlone.TrackAlone | internal/app/incident.go:112-133 | the same for a track |
| ReplayAlone.RecordAlone | internal/sync/syncer.go:98-111 | the same for one record, with its counter |
| ReplayAlone.PassAlone | internal/sync/syncer.go:97-113 | a worker that takes its list and then acts alone, by actions that the machine admits, ends with the store and the counters of a whole undisturbed pass |
| ReplayUndone.SyncedThenFailed | internal/store/offline.go:115-160 | for any track record there is a run in which it is synced and then failed |
| Dispatch.SectionsMakeTheCall | internal/app/equipment.go:34-55 | the check and the issue or release after it, with nothing in between, are the whole call |
| DispatchHistory.IssueAtOnceIff | internal/app/equipment.go:34-55 | the undivided call issues the item to the holder of its lock exactly on a stored order that is checked in or in progress and has the officer on it; otherwise the item moves on |
| DispatchHistory.DecideIff | internal/app/equipment.go:39-51 | the check alone lets the issue go ahead exactly then |
| DispatchHistory.FinishIff | internal/app/equipment.go:41-54 | the late section issues the item to an officer who still has the lock, or lets it move on |
| DispatchHistory.ClaimTells | internal/app/equipment.go:26 | a claim on the board gives the officer a free item or a lower lock from now on, and otherwise one more place in the queue |
| DispatchHistory.ReturnIff | internal/app/equipment.go:69-85 | an item is taken back exactly from its holder, while its order is under way and its shift not over; the condition given is recorded and the item moves on |
| Dispatch.MoveOk | internal/app/service.go:109-181 | every critical section keeps the invariant of orders, items and pending issues, and orders only advance |
| Dispatch.RunOk | internal/app/service.go:109-181 | the invariant holds in every state of every interleaving |
| DispatchLaws.IssuedToAssignee | internal/app/equipment.go:34-55 | an issued item is with an assignee of its order, which is past dispatch, though the check was made under another lock |
| DispatchLaws.GridReuseWindow | internal/store/store.go:199-225 | two active orders of one grid were created at least one window apart |
| DispatchLaws.ActiveOrdersInSpan | internal/store/store.go:199-225 | m active orders of one grid created within a span L satisfy (m-1)*window <= L |
| DispatchLaws.OneOrderPerKey | internal/store/store.go:202-223 | a request key is answered with one order for ever |
| DispatchLaws.CreateIdempotentIff | internal/store/store.go:202-223 | asking again with the key of a created order gives that order exactly when the key is not blank, and changes nothing |
| DispatchLaws.RunAdvances | internal/domain/workorder.go:62-92 | over any stretch of a run an order keeps its grid, assignees, prior report, planned start, shift end and creation time, and its status only advances |
| DispatchHistory.OrderIsAsCreated | internal/store/store.go:216-224 | in every run grid, crew, prior report, planned start, shift end and creation time of an order are those of the creation that made it |
| DispatchHistory.OrderHistory | internal/app/service.go:109-174 | in every run an order that is not cancelled has come from its creation through all the stages up to its own, in turn, each by a move that the rules of that stage allowed at that moment |
| DispatchHistory.StageUpIff | internal/app/service.go:109-174 | a move takes an order one stage up exactly when it is the use for that stage and order and store keep its rules |
| DispatchHistory.CancelledIff | internal/app/service.go:177-181 | a move cancels an order exactly when it is a cancellation and the order is not over; a status never changes in another way |
| DispatchLaws.DispatchedOrdersComply | internal/app/service.go:109-174 | a dispatched order on a core grid is manned and reported, one checked in is at a checkpoint of its grid, a verified one has a track |
| DispatchLaws.CleanBreaksIff | internal/app/service.go:156-174 | no completed or verified order has an item out nor a pending issue that would put one out: this breaks exactly when an order completes under a pending issue |
| DispatchLaws.RunCleanIff | internal/app/service.go:156-174 | over any interleaving, for items and pending issues together: it holds throughout exactly when no order completes under a pending issue |
| DispatchStranding.NoneOutBreaksIff | internal/app/equipment.go:39-54 | for the items alone: a move breaks the rule that no completed or verified order has one out exactly when it issues to such an order and the officer still has the lock |
| DispatchStranding.RunNoneOutIff | internal/app/service.go:156-174 | over any interleaving: that rule holds throughout exactly when no such late issue happens |
| DispatchLaws.WholeCallsClean | internal/app/service.go:156-174 | with whole calls as steps no completed or verified order has an item out, in any run |
| DispatchLaws.IssuedEndsIff | internal/app/equipment.go:69-85 | an issued item changes hands exactly at a return by its holder, its order under way and its shift not over |
| DispatchLaws.OutUntilGivenBack | internal/app/equipment.go:69-85 | over any stretch of a run without such a return the item stays with officer and order |
| DispatchLaws.StrandedForGood | internal/domain/workorder.go:136-146 | an item out on a cancelled or verified order stays out for the rest of the run |
| DispatchLaws.RollbackDropsAnyLockIff | internal/app/equipment.go:39-54 | an issue asked for by somebody else drops the holder's lock exactly when the order does not allow it |
| DispatchStranding.StaleDecisionIssuesIff | internal/app/equipment.go:39-54 | the late section of an issue puts the item out on its order, whatever the order has become, exactly when the officer still has the lock; on an order completed since, that breaks the rule |
| DispatchStranding.ReturnableIff | internal/app/equipment.go:69-85 | an item that is out can be given back by its holder exactly while its order is not cancelled or verified and its shift not past |
| DispatchStranding.StrandedByIff | internal/app/service.go:165-181 | an item comes to be out on an ended order exactly by a cancellation or verification of the order it is out on, or by a late issue to an ended order with the lock still held |
| DispatchStranding.RunStrandsIff | internal/app/service.go:165-181 | over any interleaving: no item is ever out on an ended order exactly when no move is one of these |
| DispatchStranding.WholeCallsStrandIff | internal/app/service.go:177-181 | with whole calls as steps: exactly when no order is cancelled with an item out |
| DispatchStranding.EndedForGood | internal/domain/workorder.go:136-146 | an item out on an ended order stays out for the rest of the run |
| DispatchStranding.OverdueForGood | internal/domain/workorder.go:136-146 | once the clock has passed the end of the shift and does not go back, what is out on the order stays out |
| DispatchStranding.CancelStrands | internal/app/service.go:177-181 | cancelling an order that is not over goes through with an item out on it, and strands it |
| DispatchRace.StrandedAfterCancel | internal/app/equipment.go:39-54 | for any officer, item and order there is a run in which nothing is out when the order is cancelled and the item ends up stranded |
| DispatchRace.StrandedByWholeCalls | internal/app/service.go:177-181 | for any officer, item and order there is a run of whole calls that ends with the item stranded on the cancelled order |
| DispatchRace.LockDroppedForOther | internal/app/equipment.go:39-54 | for any two officers there is a run in which the request of one frees the item that the other has locked |
| DispatchRace.CompletedWithItemOut | internal/app/equipment.go:39-54 | for any officer, item and order there is a run that ends with the order completed and the item out on it |
| Sla.MoveOk | internal/app/incident.go:88-107 | every step of monitors and dispatchers keeps the invariant, and incidents only age |
| Sla.RunOk | internal/app/incident.go:88-107 | the invariant holds in every state of every interleaving |
| Sla.FlagTellsLateness | internal/app/incident.go:57-63 | once assigned, flagged exactly when the assignment came more than the deadline after the report |
| Sla.EachFlagCountedOnce | internal/sync/syncer.go:81-86 | counter plus counts under way equal the number of different incidents flagged by monitors, with any clock |
| Sla.SweepLeavesNone | internal/app/incident.go:85-107 | a finished sweep leaves no listed incident unassigned, late and unflagged |
| Sla.SweepAlone | internal/app/incident.go:88-107 | a sweep that nobody disturbs has, after n visits, flagged and counted exactly the due ones among the first n of its list, as the loop of one whole call has |
| Sla.FlagClearedIff | internal/domain/incident.go:64-76 | a step takes a flag back exactly when it assigns a reported incident at a reading within the deadline |
| SlaCleared.FlagCleared | internal/app/incident.go:57-107 | for any incident, handler and deadline there is a run in which the monitor sets the flag, the clock goes back, and the assignment clears it |
| Sla.FlagStays | internal/app/incident.go:85-107 | with a clock that never goes back no flag is ever cleared |
| Sla.FlagMeansOverdue | internal/app/incident.go:88-107 | with such a clock a flagged, unassigned incident is past the deadline |

## Left out

* HTTP handlers, configuration, start-up, seeding and JSON: an offline payload is a value that is malformed, an incident, a track, a patrol note or of unknown kind.
* Field-presence checks at the edges (`Validate` of grids, checkpoints and equipment, blank officer or code), list endpoints and error texts: easy members only.
* Random ids: a drawn id is any id that was not drawn before, so collisions of random ids are not modelled.
* The width of `int64` and `time.Duration`: numbers and times are unbounded integers, and `time.Time` comparisons are integer comparisons.
* Floating point, NaN, square roots and trigonometry: coordinates are reals, distances are squared, the great-circle distance and the cosine are parameters. Where the projection puts both ends of a segment in one place, the source divides by zero; the model takes that place as the nearest point.
* Slices shared between returned equipment snapshots and the stored queue: queues are values.
* Lookups by inventory code and by QR code: the model starts from the id that they find.
* `CreateWorkOrder` of the service checks grid and checkpoint before it calls the store: the model starts at the store call, for any draft order.
* Administrative upserts (`SaveEquipment`, `SaveWorkOrder`, `SaveIncident`, grids and checkpoints after set-up): they can write any state, so they only make the initial one. In the replay runs, though, orders, grids and equipment may change in any way.
* Records enqueued with a status, attempts or a receipt of the client's own: the replay runs take these as blank, since a record that arrives as syncing is never listed.
* `Service.MarkSynced` and `Service.MarkFailed` called from outside the syncer: no handler does.
* `OfflineStats`, `slaLastRun`, `syncLastRun`, order priority, `IssueCount`, names, descriptions and locations: they decide nothing.
* The clock is read twice in `MutateWorkOrder` and once or twice in other calls: the order runs take the two readings apart (`now` and `stamp`), other calls take one reading.
* EquipmentModel.Equipment.SortQueue: stands for the call of the library's stable sort, not for its algorithm; the result is pinned down by SortedQueueUnique.
