# Orders, journeys, contracts and their archive: a verified model

This project models the parts of the business service in which several rows, several callers or
several runs have to agree, and proves what they keep. Dafny 4.11 checks it with
`dafny verify dfyconfig.toml`.

| files | what they model |
|---|---|
| `Status.dfy` | roles, order and shipment statuses, the two transition tables, the chain |
| `Stops.dfy`, `Journey.dfy` | the stop rows, PODs, shipment and order of one delivery, and every call that changes them, as functions on the stored state |
| `Delivery.dfy` | the same calls in place, with the service's loops, each proved equal to its function and to keep the journey's invariant, `Valid()`, when the call is clean |
| `Walking.dfy` | the status walk, for every role, and the order that follows the shipment |
| `JourneySafety.dfy`, `JourneyResults.dfy` | the inductive invariant of a journey and what it means for every clean run |
| `JourneyOrder.dfy` | on every journey, loading stops are visited before the unloading stops after them |
| `JourneyLaws.dfy`, `PodLaws.dfy` | what each call records and when it is refused, said of the rows themselves |
| `JourneyLimits.dfy`, `JourneyRuns.dfy`, `JourneyCompletion.dfy` | where the expected claims about a journey fail, exactly when they hold, and which deliveries can still be finished |
| `Planner.dfy`, `StopStore.dfy`, `RowLaws.dfy`, `PlannedJourney.dfy` | the visit order, the stop rows made from it and what they say of the order's lists, the freeze, and a planned journey when it is driven |
| `Agreements.dfy`, `AgreementRaces.dfy`, `AgreementLimits.dfy`, `RevisionFates.dfy` | agreement versions: whole transactions, their statements in any interleaving, and what becomes of a revision under way |
| `Archive.dfy`, `ArchiveSafety.dfy`, `ArchiveLaws.dfy`, `References.dfy` | moving cold aggregates to files and back, and which of them may go |
| `History.dfy`, `TableLaws.dfy` | compare-and-set order history; the two tables read by who asks |
| `Geofence.dfy` | the geofence watcher |
| `Rounding.dfy`, `Billing.dfy`, `BillingRaces.dfy` | the rounding of totals, invoices, and callers that bill at the same time |

**Clean runs.** The journey's safety claims are about clean runs: any finite sequence of calls in
which nobody is an administrator or carries the testing bypass, nobody but the service itself acts as
`system`, a POD id is new, and a stop a submission names is a stop of the journey of the stage's kind
(`Submit` does not check this, `internal/services/pod_service.go:276-297`). A call is one atomic step,
but one that fails keeps the writes it had made. The answers of the geofence, and whether a handover
code was confirmed, are arbitrary. The walk and the link between order and shipment are proved for
every role, administrators and the bypass included.

**Where the code does not do what one would expect**, or what its comments say, the model follows the
code, a run shows the difference and the exact condition is proved:

- A shipment at or past `loaded` may have every loading stop open. It cannot exactly when the journey
  has two points (`JourneyCompletion.LoadedMeansLoadingDoneIff`); the one call that does it is the approval
  of the last unloading POD while the shipment reads `loading`
  (`JourneyLimits.LoadedMeansLoadingDoneBreaksIff`). The delivery is then stranded: no clean call can
  finish it (`JourneyLimits.StrandedForever`).
- A delivery can be lost at its loading end too: the approval of the last loading POD while the shipment
  is still on its way to load closes loading and signs nothing off, and nothing later can
  (`JourneyCompletion.LastLoadingApprovalDoomsIff`, shown by `JourneyCompletion.LoadingEarlyDooms`, where
  the order's fence refuses an arrival that the stop's own does not). These two and a cancellation are all
  that can stop a delivery: every other safe state with a driver has a clean continuation that finishes
  shipment and order, and none of these has (`JourneyCompletion.CanBeFinishedIff`).
- The visited stops form a prefix of the visit order exactly when the first stop is a loading point
  (`JourneyRuns.PrefixHoldsIff`). What holds of every journey is that an unloading stop is visited only
  after every loading stop before it (`JourneyOrder.UnloadingComesAfterItsLoads`).
- A walk from `assigned` straight to `finished` would end with the order left in transit, because the
  walk reuses the order it read first; no other walk fails whose steps are all let through
  (`Walking.StaleOrderFailsTheFullWalkOnly`, and `Walking.StaleOrderShown` for a run). No caller asks for it.
- `SetStopSequence` stores the choice before the rows are rebuilt; once the journey has begun, a refused
  choice stays on the order (`StopStore.ChoiceLeavesStepIff`, shown by `StopStore.ChoiceLeftBehind`).
- `PatchDetail` stores a patch and drops the rebuild's refusal: the rows stay those of the old points
  exactly when the choice on the order no longer fits the new ones or the journey has begun
  (`RowLaws.PatchLeavesStepIff`, `RowLaws.LoadingPatchIsServed`).
- The comment on `CreateRevision` has the second of two writers wait and take the next number. It does so
  exactly when the first's version has been decided by the time the second counts what is pending
  (`RevisionFates.SecondWriterTakesNextIff`, `RevisionFates.SecondOfTwoWriters`). From any
  lineage with nothing pending there is a run in which the second takes the next number, one in which it
  meets the pending version, and, for writers of two versions, one in which it meets the unique index
  (`RevisionFates.SecondTakesTheNext`, `SecondMeetsPending`, `SecondMeetsTheIndex`).
- A lineage whose root awaits `DecideAgreement` can end with two live versions
  (`AgreementLimits.NeverTwoLiveIff`, shown by `AgreementLimits.SubmittedRootMakesTwo`).
- The archive's file names tell days and runs apart, not chunks: a chunk's aggregates can be restored
  exactly when no later chunk of the run is written on the same day, and are lost otherwise
  (`ArchiveSafety.ChunkIsRecoverableIff`). Within one day a run loses nothing exactly when it fits one
  chunk (`ArchiveSafety.OneDayRunIsRecoverableIff`).
- The catalogue's unique index keeps an aggregate that was restored from ever being archived again, which
  the comment on `Restore` promises (`ArchiveSafety.RestoredIsNeverArchivedAgain`; for an aggregate that
  is archived, restored and refused, `ArchiveSafety.ArchivingAgainIsRefused`).
- Nothing holds the check and the insert of `CreateInvoice` together: two callers can bill an order twice
  (`BillingRaces.TwoCallersBillTwice`). No order is ever on two live invoices exactly when no insert meets
  an uncancelled invoice that a call with a common order inserted since this call's check
  (`BillingRaces.AlwaysBilledOnceIff`); without cancellations, exactly when no two such calls overlap
  (`BillingRaces.BilledOnceIffNoOverlap`).

## Model

| member | source | states |
|---|---|---|
| Status.NextTowardsIsAnEdge | internal/models/status.go:325-379 | towards any non-legacy target on the chain there is a next step exactly when the target is not reached; it is an edge of the table, no legacy state, and skips legacy states only |
| Status.FinalStatesHaveNoSuccessor | internal/models/status.go:187-191 | from a final or unknown order state nobody, administrators included, may move |
| Walking.WalkTheorem | internal/services/stop_visits.go:331-356 | a walk climbs, never passes its target, enters no legacy state, stops at the first step the role or the fence refuses, stamps exactly what it climbs through, changes nothing else, and reports no failure exactly when it stands at or past the target |
| Walking.WalkTakesItsEdges | internal/models/status.go:195-249 | every step of a walk is an edge its role may take, strictly later, never into a legacy state nor past the target, and the last ends at the reach |
| Walking.WalkFollowsPath | internal/services/stop_visits.go:331-356 | whatever state the order is in, the statuses a walk passes are those edges in turn, and only the order failing to follow keeps it from the rest |
| Walking.EveryWalkStopsRightly | internal/services/stop_visits.go:331-356 | the same stopping rule whatever state the order is in: otherwise it stops only where the order cannot follow, at `toLoading` or `finished` |
| Walking.StaleOrderFailsTheFullWalkOnly | internal/services/shipment_service.go:527-558 | a walk all of whose steps are let through fails exactly when it goes from `assigned` to `finished`, leaving shipment finished and order in transit |
| Walking.StaleOrderShown | internal/services/shipment_service.go:527-558 | such a walk, by an administrator |
| Walking.EveryRunKeepsLink | internal/services/shipment_service.go:278-321 | over any run by any roles the order's status is the image of the shipment's |
| Delivery.Delivery.SyncOrderStatus | internal/services/shipment_service.go:527-558 | the order is moved, left or the failure reported exactly as the specification says of the remembered status |
| Delivery.Delivery.AdvanceTo | internal/services/shipment_service.go:278-321 | one edge: refusals before any write, then status and stamp, then the order, whose failure leaves the shipment moved |
| Delivery.Delivery.WalkShipmentTo | internal/services/stop_visits.go:331-356 | the bounded loop computes the whole walk: twelve steps never cut it short |
| Delivery.Delivery.Arrive | internal/services/stop_visits.go:50-81 | the new state and failure of an arrival, against the functional specification |
| Delivery.Delivery.Start | internal/services/stop_visits.go:84-139 | the stop starts and the walk's completed steps stay even when the walk fails, which is not reported |
| Delivery.Delivery.CheckStop | internal/services/stop_visits.go:179-198 | the cargo answer is recorded on a started stop only |
| Delivery.Delivery.Move | internal/services/shipment_service.go:224-251 | a shipment-level report: tenancy, entitlement, handover gate, then one edge |
| Delivery.Delivery.Check | internal/services/pod_service.go:345-382 | who may answer the cargo check of each stage, and when |
| Delivery.Delivery.Crossed | internal/services/shipment_service.go:722-763 | a crossing can stamp a first arrival and never moves a status |
| Delivery.Delivery.Audit | internal/services/field_service.go:172-189 | the receiver's answer without a login counts as the unloading cargo check, at `unloading` only |
| Delivery.Delivery.StopIsNext | internal/services/stop_visits.go:237-252 | a stop is next exactly when every earlier one was arrived at or finished |
| Delivery.Delivery.ResolvedStop | internal/services/pod_service.go:276-297 | the named stop, or the first unfinished one of the stage's kind, or none |
| Delivery.Delivery.Gate | internal/services/pod_service.go:86-130 | which of stop row and shipment gates a submission, and how it refuses |
| Delivery.Delivery.SubmitPhotos | internal/services/pod_service.go:67-172 | order of the gates; an accepted submission replaces the open one of its stage and no other |
| Delivery.Delivery.CloseStop | internal/services/pod_service.go:311-340 | finishes the named stop alone, and answers whether any other of its kind is open |
| Delivery.Delivery.Review | internal/services/pod_service.go:191-268 | a decision on a POD, with everything it leaves stored when its walk is refused half way |
| JourneyResults.NoCallGoesBack | internal/services/stop_visits.go:320-356 | no call of anybody takes the shipment back or changes which stops there are |
| JourneyLaws.ArrivalIsRecordedIff | internal/services/stop_visits.go:50-81 | an arrival is recorded exactly when the shipment's driver, or one who may stand in, reports the next point from within its fence; nothing else changes |
| JourneyLaws.ArrivalStands | internal/services/stop_visits.go:55-57 | the first report of an arrival stands |
| JourneyLaws.UnknownStopIsRefused | internal/services/stop_visits.go:204-228 | another journey's stop is nobody's to report from |
| JourneyLaws.StartIsRecordedIff | internal/services/stop_visits.go:84-139 | work begins exactly at a point arrived at, from within its fence, and for a driver who unloads with the receiver's code confirmed |
| JourneyLaws.StartStands | internal/services/stop_visits.go:91-94 | a second report of a start is no failure and changes nothing |
| JourneyLaws.StartTakesItsWalk | internal/services/stop_visits.go:124-137 | with the work the shipment walks exactly as far as role and fence let it, up to the status of that work, stamping what it passes |
| JourneyLaws.StopCheckIsRecordedIff | internal/services/stop_visits.go:179-198 | the cargo answer is recorded exactly on a started stop, from whom may report there |
| JourneyLaws.MoveIsMadeIff | internal/services/shipment_service.go:224-251 | a report moves the shipment exactly when an entitled party asks for a move of the table from within the fence, with the code confirmed for a driver about to unload |
| JourneyLaws.RoleOfCaller | internal/services/order_service.go:742-766 | the role a caller moves under: the token's own for five roles, else the side of the order the company is on |
| JourneyLaws.OrderFollowsLawfully | internal/services/shipment_service.go:527-558 | a step moves the order only along the order's table, from the status remembered, into transit or to completion, and reports it when the order may not follow |
| JourneyLaws.CargoCheckIsRecordedIff | internal/services/pod_service.go:345-382 | whose answer to the cargo check of each stage is recorded, at which status, on which column |
| JourneyLaws.AuditIsRecordedIff | internal/services/field_service.go:172-189 | the receiver's answer is recorded exactly while the shipment unloads |
| JourneyLaws.CrossingStampsFirstArrival | internal/services/shipment_service.go:722-763 | an entry stamps the arrival at its own end if none is stamped; a crossing does nothing else |
| JourneyLaws.OnlyItsOwnVisit | internal/services/stop_visits.go:50-198 | arrivals, starts, cargo answers and finishes are each recorded by their own call alone |
| JourneyLaws.OnlyItsOwnCheck | internal/services/pod_service.go:345-382 | the shipment's two cargo checks likewise; no call changes who the parties and the driver are |
| PodLaws.SubmissionIsTakenIff | internal/services/pod_service.go:67-172 | photos are taken exactly from an entitled party, for a stop at work with its cargo answered for and nothing approved yet; they replace what is in review for the stage alone |
| PodLaws.UnnamedIsTheFirstOpen | internal/services/pod_service.go:276-297 | photos that name no stop are for the first open one of the stage |
| PodLaws.LoadingPodsWereChecked | internal/services/pod_service.go:134-145 | after any calls by anybody somebody answered for the cargo of every loading POD on record |
| PodLaws.RejectionIsRecordedIff | internal/services/pod_service.go:191-217 | an accepted rejection, with a reason and by one who may decide, leaves that POD rejected and all else as it was; any other changes nothing |
| PodLaws.ApprovalIsRecordedIff | internal/services/pod_service.go:191-268 | an approval is recorded exactly for a POD in review, also when its walk is refused, and finishes the stop the POD names alone |
| PodLaws.DecisionsStandForever | internal/repository/pod.go:86-104 | over any calls by anybody a decided POD stays as it was decided, and every later review of it is refused and changes nothing |
| PodLaws.UnloadingStartCarriedTheCode | internal/services/stop_visits.go:95-105 | whatever call starts an unloading stop for a driver carried the receiver's code |
| PodLaws.OnlyTheCodeOpensUnloading | internal/services/shipment_service.go:240-249 | no clean call but a driver's with the receiver's code takes the shipment into `unloading` |
| PodLaws.NothingIsUnloadedWithoutTheCode | internal/services/stop_visits.go:95-105 | a clean run without a confirmed code never gets to `unloading`, and so never to `unloaded` |
| JourneyResults.ApprovalOutcome | internal/services/pod_service.go:191-268 | where an approval leaves the shipment, when it fails, and what it closes: exactly one stage's last stop moves anything |
| JourneySafety.SystemReach | internal/services/pod_service.go:249-266 | the system walks from `loading` to `toUnloading` and from `unloading` on, and nowhere else |
| JourneySafety.AcceptedSubmissionIsNext | internal/services/pod_service.go:86-123 | a submission that passes its gate is for a stop all of whose predecessors were visited, although no arrival may be recorded on it |
| JourneySafety.CleanRunsAreSafe | internal/services/pod_service.go:191-340 | the strengthened invariant (an open loading stop past `loaded` means unloading is closed and not in review) holds after every clean run |
| JourneyResults.UnloadedMeansEveryStopFinished | internal/services/pod_service.go:191-340 | in every clean run a shipment at or past `unloaded` has every stop finished, loading and unloading |
| JourneyResults.FinishedByExactlyOnePod | internal/repository/pod.go:23-104 | in every clean run a stop is finished exactly when one and only one approved POD names it, which is its pod_id; at most one POD a stage is in review |
| JourneyResults.VisitedIsAPrefix | internal/services/stop_visits.go:237-252 | in every clean run of a journey that starts with a load, visited stops form a prefix |
| JourneyOrder.UnloadingComesAfterItsLoads | internal/services/stop_visits.go:230-252 | in every clean run of any journey a visited unloading stop has every loading stop before it visited |
| JourneyLimits.LoadedMeansLoadingDoneBreaksIff | internal/services/pod_service.go:249-266 | exactly which clean call breaks "loaded means loading is done" |
| JourneyLimits.LastUnloadingApprovalFinishesIff | internal/services/pod_service.go:249-266 | approving the last unloading POD finishes shipment and order exactly when the shipment has reached `unloading`; otherwise the delivery is stranded |
| JourneyLimits.StrandedForever | internal/services/pod_service.go:138-142 | no clean continuation ever signs a stranded delivery off |
| JourneyCompletion.DoomedForever | internal/services/pod_service.go:138-150 | no clean continuation signs off a delivery that is cancelled or whose unloading, or loading, was closed too early |
| JourneyCompletion.LastLoadingApprovalDoomsIff | internal/services/pod_service.go:224-266 | approving the last loading POD loses the delivery exactly when the shipment has not got to `loading` |
| JourneyCompletion.LoadingEarlyDooms | internal/services/pod_service.go:224-266 | a clean run that loses a delivery so |
| JourneyCompletion.CanBeFinished | internal/services/pod_service.go:191-268 | a clean continuation, call by call, that finishes any delivery not lost |
| JourneyCompletion.CanBeFinishedIff | internal/services/pod_service.go:191-268 | some clean continuation finishes shipment and order exactly when the delivery is not lost |
| JourneyRuns.PrefixHoldsIff | internal/services/pod_service.go:86-123 | the prefix holds in all clean runs exactly of journeys that start with a load |
| JourneyCompletion.LoadedMeansLoadingDoneIff | internal/services/pod_service.go:302-340 | "loaded means loading is done" holds in all clean runs exactly of journeys of two points |
| Planner.ValidateSequence | internal/services/order_flow.go:141-172 | accepted exactly when it is a permutation of all points with each load before its own unload; a refusal names a real fault |
| Planner.PermutationIff | internal/services/order_flow.go:141-172 | the right length, in range and without repetition is the same as being a permutation of all points |
| Planner.VisitOrder | internal/services/order_flow.go:84-101 | the stored choice when valid, the default otherwise; valid either way |
| Planner.LoadComesBeforeItsUnload | internal/services/order_flow.go:132-172 | in a valid order every load stands before its own unload |
| Planner.StartsWithLoadIff | internal/services/order_flow.go:132-172 | every valid order starts with a load exactly when unloads are no more than loads |
| Planner.WrittenReadsBack | internal/services/order_flow.go:103-130 | a sequence written as the console writes it reads back as itself |
| Planner.StopsForOrder | internal/services/order_stops.go:35-89 | the rows are those of the visit order, cut at two hundred, nil without points |
| Planner.RowsReadBack | internal/services/order_stops.go:35-105 | with no list over two hundred, each row names its own point, numbered along the way, once, load before unload, and gives back the lists' warehouses |
| Planner.EveryPointHasItsRow | internal/services/order_stops.go:35-105 | up to two hundred points in all none is left out |
| Planner.RowsShareNumberIff | internal/services/order_stops.go:91-105 | the clamp makes two rows share kind and number exactly past position two hundred |
| Planner.AcceptedChoiceIsUsedIff | internal/services/order_flow.go:174-184 | a choice the edge accepts is the one used exactly when neither list fell back to a column |
| Planner.OrderRowsArePlanned | internal/services/order_stops.go:35-89 | an order's rows are those of a plan of its named points exactly when no blank column stands in for a list |
| RowLaws.EntryMeans | internal/services/order_flow.go:103-130 | both vocabularies are read, an index is cut off towards zero, and any other entry cannot be read |
| RowLaws.ChoiceIsReadWhole | internal/services/order_flow.go:103-130 | one entry that cannot be read makes the choice none; otherwise it is read entry by entry |
| RowLaws.ListNamesItsPoints | internal/services/order_stops.go:107-123 | a list of names is read as those names |
| RowLaws.BlanksArePassedOver | internal/services/order_stops.go:107-123 | a blank or foreign entry is passed over wherever it stands |
| RowLaws.RowsServeTheLists | internal/services/order_stops.go:35-105 | rows that describe an order serve exactly the warehouses of its loading list and of its unloading list, each its own kind, numbered by place |
| RowLaws.DefaultRows | internal/services/order_flow.go:73-95 | without a choice every load comes first, in its list's order, and then every unload in its own |
| RowLaws.ColumnsStandIn | internal/services/order_stops.go:35-60 | an order without lists is the journey between its two columns |
| RowLaws.ColumnsAcceptNoChoice | internal/services/order_flow.go:174-184 | the edge reads the lists alone: such an order accepts no choice |
| PlannedJourney.PlannedVisitsAreAPrefix | internal/services/stop_visits.go:230-252 | on any planned journey with no more unloads than loads, visited stops form a prefix in every clean run |
| PlannedJourney.OrderVisitsAreAPrefix | internal/services/stop_visits.go:230-252 | the same of any stored order whose rows make a journey |
| PlannedJourney.GoodsAreCollectedBeforeDelivery | internal/services/order_flow.go:132-140 | on every planned journey, whatever its visit order and however many points of either kind, a shipment's unloading point is never visited before its loading point |
| StopStore.OrderStops.Replace | internal/repository/order_stops.go:28-41 | an empty list does nothing; otherwise exactly the new rows remain, under new ids |
| StopStore.OrderStops.SyncStops | internal/services/order_stops.go:151-186 | the rows it leaves, when it changes them new and unvisited, and success exactly when the choice is valid and the rows match or no visit was made |
| StopStore.OrderStops.SetStopSequence | internal/services/order_flow.go:202-238 | an invalid choice changes nothing; a valid one is stored before the rows are rebuilt |
| StopStore.OrderStops.PatchDetail | internal/services/order_service.go:1167-1201 | each key put is stored under its own name, a removed one is gone, the others stay; rows are rebuilt only when a point list was touched, and a refusal is swallowed |
| StopStore.OrderStops.UpdateFields | internal/repository/order_stops.go:57-64 | one row's progress is recorded; an unknown id changes nothing |
| RowLaws.LoadingPatchIsServed | internal/services/order_service.go:1167-1201 | before any visit a patch of the loading points alone leaves exactly those warehouses as loads and the old list's as unloads, exactly when the stored choice still fits |
| RowLaws.UnloadingPatchIsServed | internal/services/order_service.go:1167-1201 | the same of the unloading points |
| RowLaws.BegunJourneyIsFrozen | internal/services/order_stops.go:169-215 | from the first arrival, start or finish on, no writes and reports change which rows there are or take back a record |
| RowLaws.PatchLeavesStepIff | internal/services/order_service.go:1187-1200 | exactly when a patch leaves order and rows apart |
| StopStore.VisitedJourneyIsFrozen | internal/services/order_stops.go:169-186 | after a first visit no sequence of writes and reports changes a row's identity or takes back a record |
| StopStore.SyncIsIdempotent | internal/services/order_stops.go:151-205 | a successful sync makes the rows match, and a second writes nothing |
| StopStore.ChoiceLeavesStepIff | internal/services/order_flow.go:226-237 | the one way a choice leaves order and rows apart |
| StopStore.ChoiceLeftBehind | internal/services/order_flow.go:226-237 | an order that keeps a refused choice |
| StopStore.RowsStayInVisitOrder | internal/repository/order_stops.go:44-54 | rows stay strictly ordered by seq and ids are never used twice, over any run |
| Agreements.AgreementTable.MaxVersion | internal/repository/agreement_version.go:79-85 | of versions 1 to n the highest is n |
| Agreements.AgreementTable.CreateRevision | internal/repository/agreement_version.go:65-114 | when it is refused, and that it adds version n+1, pending, with its terms and who asked, and changes no other |
| Agreements.AgreementTable.Approve | internal/repository/agreement_version.go:121-175 | the row it approves, the live ones it supersedes and the others it leaves: the approved version is the only live one |
| Agreements.AgreementTable.BuildRevision | internal/services/agreement_version_service.go:142-235 | term by term what is restated is taken and what is not is carried forward; refused exactly when the term is out of order, a renewal does not extend, or rates are missing or negative |
| Agreements.AgreementTable.CheckRevision | internal/services/agreement_version_service.go:52-98 | who may revise what: the transporter, a version that was in force; and the terms agreed |
| Agreements.AgreementTable.Revise | internal/services/agreement_version_service.go:52-134 | exactly when it succeeds, in the proposal's and the previous terms; the new version says the stated dates and rates and the previous ones where none are stated; a renewal's version is the only live one, an update leaves the live ones |
| Agreements.AgreementTable.Renew | internal/services/agreement_version_service.go:106-120 | a renewal is created pending and put in force, or nothing changes |
| Agreements.AgreementTable.Decide | internal/services/agreement_version_service.go:247-290 | a pending revision is approved or rejected by the transporter, never by who asked for it |
| Agreements.ApprovedRows | internal/repository/agreement_version.go:121-175 | the approval of the interleavings is the one Approve makes, row by row |
| Agreements.AgreementTable.Reject | internal/repository/agreement_version.go:178-205 | only a pending version is rejected, and no other row changes |
| Agreements.AgreementTable.ExpireAll | internal/services/billing_service.go:371-399 | with however stale a list, expiry can only take live versions away |
| AgreementRaces.EveryInterleavingIsSound | internal/repository/agreement_version.go:53-114 | in any interleaving of statements, aborts included, versions are exactly 1 to n and at most one is pending |
| AgreementRaces.InterleavingsAreSerial | internal/repository/agreement_version.go:116-175 | with nothing awaiting DecideAgreement, every interleaving commits what whole transactions would, one after the other, each at the step that commits that transaction |
| AgreementRaces.OneVersionIsLive | internal/repository/agreement_version.go:116-175 | exactly one version is live after any interleaving without the sweep, and never two with it |
| AgreementLimits.RevisionRuns | internal/repository/agreement_version.go:65-114 | undisturbed, the statements of a revision amount to the whole transaction |
| AgreementLimits.ApprovalRuns | internal/repository/agreement_version.go:121-175 | undisturbed, the statements of an approval retire every live version and commit the whole transaction |
| AgreementLimits.NeverTwoLiveIff | internal/services/billing_service.go:313-337 | a lineage never has two live versions, in any interleaving, exactly when its root was not `submitted` |
| AgreementLimits.SubmittedRootMakesTwo | internal/services/billing_service.go:313-337 | a run that leaves a submitted root and its revision both live |
| RevisionFates.RevisionCommitsIff | internal/repository/agreement_version.go:65-114 | supporting: a revision that is not cut off commits exactly when nothing is pending as it counts and its number is free as it inserts |
| RevisionFates.SecondWriterTakesNextIff | internal/repository/agreement_version.go:53-64 | with the first's version committed and no third writer, the second takes the next number exactly when that version was decided before it counted |
| RevisionFates.SecondOfTwoWriters | internal/repository/agreement_version.go:53-64 | the same from the first writer's commit on |
| RevisionFates.SecondMeetsPending | internal/repository/agreement_version.go:92-103 | a run in which the second writer is refused for the first's pending version |
| RevisionFates.SecondTakesTheNext | internal/repository/agreement_version.go:53-64 | a run in which the second writer takes the next number |
| RevisionFates.SecondMeetsTheIndex | internal/repository/agreement_version.go:105-112 | a run in which the later insert meets the unique index |
| Archive.WriteFile | internal/archive/parquet.go:96-138 | batches lose, repeat and reorder no row |
| Archive.ReadFile | internal/archive/parquet.go:189-231 | reading by buffers keeps exactly the wanted root's rows, in order |
| Archive.Archiver.ArchiveChunk | internal/archive/archive.go:186-313 | the vault after any number of its writes: files under the name of its day and run, then commits one by one |
| Archive.Archiver.RunOver | internal/archive/archive.go:135-160 | a run is its chunks, under one run id and each under the day it is written |
| Archive.Archiver.Restore | internal/archive/archive.go:337-404 | a restore that fails changes nothing; one that succeeds puts back what its files gave |
| ArchiveSafety.ChunkKeeps | internal/archive/archive.go:186-313 | stopped after any write and whichever commits fail, every aggregate is hot or in one unrestored entry whose files yield its rows |
| ArchiveSafety.RestoreIsExact | internal/archive/archive.go:337-404 | a restore succeeds exactly when the files have thawed and the insert goes through, and then puts back exactly the aggregate |
| ArchiveSafety.NothingIsEverLost | internal/archive/archive.go:186-404 | over any sequence of restores and of chunks with a day and run of their own, nothing is lost and nothing is in both places |
| ArchiveSafety.ChunkIsRecoverableIff | internal/archive/archive.go:187-229 | after a complete run a chunk's aggregates come back row for row exactly when no later chunk of the run was written on the same day; otherwise they are lost |
| ArchiveSafety.RunIsRecoverableIff | internal/archive/archive.go:187-229 | a complete run loses nothing exactly when each of its chunks had a day of its own |
| ArchiveSafety.OneDayRunIsRecoverableIff | internal/archive/archive.go:187-229 | within one day, exactly when it fitted one chunk |
| ArchiveSafety.LostStaysLost | internal/archive/archive.go:352-381 | no restore brings a lost aggregate back |
| ArchiveSafety.RestoredIsNeverArchivedAgain | internal/archive/archive.go:328-336 | an aggregate that came back stays hot through every later run |
| ArchiveSafety.ArchivingAgainIsRefused | internal/archive/archive.go:280-305 | an aggregate archived, restored and offered again: its files are written anew and its rows stay hot |
| ArchiveLaws.RestoreGoesThroughIff | internal/archive/archive.go:337-404 | out of any vault, sound or not: a restore goes through exactly when every file has thawed and agrees with the recorded checksum and counts, and puts back what its files hold |
| ArchiveLaws.ChunkFates | internal/archive/archive.go:186-313 | what a chunk leaves of each aggregate: archived with its entry, only deleted when an earlier run had catalogued it, or kept |
| ArchiveLaws.UnreadableChunkTakesNothing | internal/archive/archive.go:193-222 | a chunk with an aggregate whose root row is missing changes nothing |
| ArchiveLaws.CutTakesAll | internal/archive/archive.go:148-153 | the chunks are the candidates in order, none left out, none over the size |
| References.ReferencesStayClosed | internal/archive/entities.go:32-106 | no run takes a row that a remaining invoice line, order, child order or version names |
| References.LiveInvoiceStays | internal/archive/entities.go:32-47 | an invoice not paid or cancelled, or touched since every cutoff, is hot after any runs |
| References.LiveOrderStays | internal/archive/entities.go:51-79 | the same of an order that is not completed, cancelled or rejected |
| References.LiveAgreementStays | internal/archive/entities.go:84-106 | the same of an agreement submitted, pending or active |
| References.LiveInvoiceKeepsItsOwn | internal/archive/entities.go:51-106 | an unsettled invoice keeps its orders and their agreements hot |
| References.InvoiceLeavesIff | internal/archive/entities.go:32-47 | exactly which invoices one complete run takes |
| References.OrderLeavesIff | internal/archive/entities.go:51-79 | exactly which orders one complete run takes, their invoices leaving first |
| References.AgreementLeavesIff | internal/archive/entities.go:84-106 | exactly which agreements it takes, their orders leaving first |
| References.LineageLeavesInTime | internal/archive/entities.go:84-106 | a cold, unused lineage of n versions is gone after n complete runs |
| References.RootLeavesLast | internal/archive/entities.go:84-106 | in any runs the root is hot as long as any version is |
| History.OrderTable.Create | internal/repository/repository.go:166-183 | an order opens with one entry without a source, and no other order changes |
| History.OrderTable.ApplyStatus | internal/repository/repository.go:204-235 | whatever the change, it and its entry are stored, or, when the status has moved on, neither |
| History.OrderTable.Transition | internal/services/order_service.go:697-790 | which moves are made, for which caller, and in which order the others are refused: tenancy, table, authority |
| History.OnlyCarriersAccept | internal/services/order_service.go:770-790 | whatever role the token names, only the carrying company's people or an administrator accept, refuse or plan work |
| History.EveryInterleavingIsOnePath | internal/repository/repository.go:197-235 | however callers interleave, the history is one legal path ending in the stored status, only ever grows, and has one entry for each change that won |
| History.OnlyPlanningRecurs | internal/models/status.go:137-192 | only the planning states can be entered twice, and nothing follows a final state |
| TableLaws.OrderMovesByRole | internal/models/status.go:137-192 | the order moves each role may make, all of them and no others |
| TableLaws.ShipmentStepsByRole | internal/models/status.go:195-249 | the same of shipments |
| TableLaws.OrderVerdicts | internal/models/status.go:272-301 | which refusal a caller is given: unknown state, final state, another role's move, or no such move |
| TableLaws.OrderIsMovedIff | internal/services/order_service.go:697-790 | a caller moves an order exactly when their company is on it, their role may, and they are on the side the move asks for |
| TableLaws.ShipperAndCarrierAssign | internal/services/order_service.go:697-790 | shipper and carrier take an order from draft to assigned between them in three calls |
| TableLaws.NeitherAssignsAlone | internal/services/order_service.go:697-790 | none of the three could be made by the other one |
| TableLaws.BothSidesAgreed | internal/models/status.go:137-192 | the history of any order planned, driven or completed has the shipper's side submitting it and the carrier's side approving it |
| Billing.BillingDesk.CreateInvoice | internal/services/billing_service.go:420-511 | succeeds exactly for distinct, existing, finished orders of these two parties on no live invoice; each line carries its order's price, or nothing when it has none, and the subtotal is the sum of the prices |
| Billing.BillingDesk.TransitionInvoice | internal/services/billing_service.go:563-640 | which moves of an invoice are made, by whom, and how the others fail |
| Billing.AsManyRowsAsIds | internal/services/billing_service.go:425-431 | the length check refuses exactly repeated and unknown ids |
| Billing.NoOrderIsBilledTwice | internal/repository/repository.go:726-744 | over any run of whole calls an order is on at most one live invoice, once, and subtotals are the sums of their lines |
| Billing.MadeBillsItsOrders | internal/services/billing_service.go:486-503 | the invoice bills exactly the orders asked for |
| Billing.SameOrdersSamePrice | internal/services/billing_service.go:425-431 | in whatever order the rows come their prices add up to the same |
| Billing.MoveIsMadeIff | internal/services/billing_service.go:550-606 | which moves an invoice's life has; the biller alone issues and submits, the billed alone verifies and pays |
| Billing.StatusHasItsMove | internal/services/billing_service.go:563-640 | over any run the status an invoice has was given it by the right party |
| Billing.TaxesAreShares | internal/models/models.go:679-696 | each tax is its share of the prices to the nearest cent, and the total is the parts shown, one tax on and the other off |
| Billing.InvoiceTotalIsClose | internal/services/billing_service.go:486-505 | for any number of orders priced in whole cents and any percentages, the total is within 0.015 of what the orders' prices, the taxes on them and the adjustment come to, and within 0.01 with an adjustment in cents |
| BillingRaces.AlwaysBilledOnceIff | internal/services/billing_service.go:452-511 | over all interleavings of checks, inserts and moves: exactly when an order is ever on two live invoices |
| BillingRaces.BilledOnceIffNoOverlap | internal/services/billing_service.go:452-511 | with no cancellation, exactly when no two calls overlap that list a common order |
| BillingRaces.TwoCallersBillTwice | internal/services/billing_service.go:452-511 | a run of two callers that bills an order twice |
| Rounding.TotalIsClose | internal/models/models.go:683-696 | from a subtotal in whole cents and for any percentages, the total is within 0.01 of the exact one, or 0.015 with an arbitrary adjustment |
| Rounding.TotalIsStrictlyClose | internal/models/models.go:683-696 | with taxes that are not negative the cent is never reached |
| Rounding.BoundsAreTight | internal/models/models.go:683-696 | both bounds are attained |
| Geofence.Watcher.Tick | internal/services/geofence_watcher.go:158-270 | the watcher's memory and reports after a tick, with the ticks that see nothing |
| Geofence.Watcher.Forget | internal/services/geofence_watcher.go:275-283 | exactly the fences not kept are dropped |
| Geofence.ReportedIff | internal/services/geofence_watcher.go:236-262 | a crossing is recorded exactly when the fix is on the other side than the last recorded one and the report goes through |
| Geofence.MemoryIsFaithful | internal/services/geofence_watcher.go:158-294 | over any ticks the remembered side is that of the last recorded crossing since the fence was dropped |
| Geofence.CrossingsAlternate | internal/services/geofence_watcher.go:285-294 | with no drop in between, crossings go opposite ways, and the first after a drop is an entry |
| Geofence.FirstCrossingIsAnEntry | internal/services/geofence_watcher.go:285-294 | the first crossing ever recorded of a fence is an entry |
| Geofence.FailedCrossingIsRetried | internal/services/geofence_watcher.go:249-270 | however many ticks a report fails, nothing is recorded and the fence is not dropped; the crossing is recorded once, at the first tick that gets it through |
| Geofence.LostSightReportsAgain | internal/services/geofence_watcher.go:216-220 | a truck lost for one tick is reported as entering again |
| Geofence.BlindTickChangesNothing | internal/services/geofence_watcher.go:158-222 | a tick that could not see, wherever it falls in a run, changes nothing later |
| Geofence.OutOfSightIsDropped | internal/services/geofence_watcher.go:168-171 | a tick that sees keeps the fences it has a fix for and no others; with nothing active it drops them all |
| Geofence.TickRecordsIff | internal/services/geofence_watcher.go:224-268 | a tick records, of every fence, exactly the changes of side whose report goes through, whatever the other fences do |

## Left out

- Database reads and writes that fail in the middle of a journey call; the source carries on after some failed list reads, and the model has none. In the archive, failures and crashes are modelled.
- Journeys whose stop list is rebuilt while PODs exist: a rebuild clears the PODs' stop, and the clean runs do not rebuild.
- Administrators, superadministrators and the testing bypass in the clean runs: they step over the gates on purpose. The walk and the order's link to its shipment cover them.
- A manual order transition after assignment in the order's link to its shipment: the table lets a party complete an order in transit directly.
- Status codes the source does not know are one code, `SHIPMENT_UNKNOWN` or `OrderUnknown`.
- Handover codes: whether the receiver's code was confirmed is an arbitrary answer given with the call.
- Geofence distances: whether a position is inside a fence is an arbitrary answer given with the call or reading.
- Photos and notes of a POD: whether its photos are acceptable is an arbitrary answer given with the call.
- Archive.Encode: rows are opaque, so column types and the casts of values to and from files are not part of this model; checksums are equality of contents.
- Tables an aggregate has that the archiver does not list (order stops and PODs among them) are not part of this model.
- Archive.Archiver.ArchiveChunk: does not model the dry run nor the counters of the summary, and there is no concurrent writer of hot rows.
- Agreements.AgreementTable.Revise: does not model a company's own field requirements.
- Agreements.AgreementTable.Decide: does not model the note of a decision.
- Agreements.AgreementTable.BuildRevision: does not model lanes and minimum quantities of a rate, payment terms, currency, notes and other detail, which are carried or replaced without a check.
- Delivery.Delivery.Audit: does not model the page's token, the measured figures and the receiver's name.
- Delivery.Delivery.Crossed: does not model the inside-or-outside columns of the evidence, nor crossings at warehouses of neither end, which write nothing.
- AgreementRaces.Do: a waiting statement is one that changes nothing until the lock is free; deadlock detection is an abort at any point.
- Billing.BillingDesk.CreateInvoice: the order table's answer to a list of ids is a parameter; invoice numbers, due dates, and rounding of amounts as columns store them are not part of this model.
- Planner.Truncated: numbers outside the range of a machine integer are cut off as mathematical integers.
- PIC names and phones of stops; notifications; HTTP, gRPC and swagger plumbing; remote clients; toll, allowance and route arithmetic; permission maps, labels and ledgers: lookups or single branches that would only add easy members.
