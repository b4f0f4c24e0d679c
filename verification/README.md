# Outage management system: verified model

A Dafny model of the stateful core of an outage management system, with proofs about whole runs of it. It follows the
code of the repository branch by branch; paths below are relative to the repository.

What is modelled, one group of modules each:

* **The durable intake queue** (`IntakeQueue`, `Coalescing`, `QueueRuns`, `QueueMeaning`, `QueueLeases`, `QueueDrain`,
  `FeederGroups`, `QueueTable`, `QueueLoop`).
  Producers enqueue and coalesce events, workers claim heads under a lease, renew it, run items in transactions, fail, stall
  and die. `IntakeQueue` is one state machine whose step is one committed statement or the opening, commit or rollback of a
  processing transaction; a sequence of steps is one interleaving of all processes. `QueueTable` is the code itself, in
  place, proved to take only steps of that machine, so that everything proved of the machine's runs holds of the code.
* **Planned outages** (`SwitchingRules`, `SwitchingMachine`, `PlannedOutageTheorems`, `PlannedOutages`, `OutageRequests`): the switching plan,
  the work permits and the planned lifecycle under every sequence of planned-outage requests; beside them the one other
  route that writes the status, crew assignment (`Assignments`, `AssignmentExamples`), and the crew's job, which a route checks
  against the permit and then writes (`JobGate`, `JobGateExamples`). `SampleOutage` is the outage the examples share.
* **Offline confirmations** (`OfflineConfirmations`, `OfflineRuns`, `OfflineOrder`, `OfflineTheorems`, `OfflineStrays`,
  `OfflineExamples`): the phone's store and its resending for any number of planned outages, over a network that loses
  requests and replies or delivers them late; the steps the app offers, and what the servers record.
* **Crew jobs** (`JobWorkflow`): the status ladder under late, duplicate and reordered reports, undo and return.
* **Feeder KPIs** (`FeederKpi`, `FeederReadings`, `FeederKpiLoop`, `FeederKpiDays`): excursions over sampled, gappy series; each index by its
  meaning, the one-pass loop that computes them, and the aggregation of days, exact and rounded.
* **The network** (`NetworkGraph`, `NetworkWalk`, `SupplyTheory`, `SupplyTrace`, `WhatIf`): breadth-first walk, upstream trace
  and what-if on the device / terminal / node graph.
* **SCADA incidents** (`ScadaIncidents`, `ScadaRuns`, `ScadaTheorems`, `ScadaRestores`, `ScadaExamples`, `ScadaMeaning`): trips,
  recloses and batches as handlers, then every interleaving of their statements with the control room's requests and the
  crews' reports, and what coalescing does to them.
* **Complaints** (`ComplaintVerdicts`): what becomes of each queued complaint, and what its sender is answered.
* **The crew app** (`RouteProgress`, `RouteRequests`, `PageHistory`) and **the restart test** (`OpenLoops`, `RestartCheck`).

Processes that share a database are step machines; what one process changes in place is a class or a loop, proved against
the machine's step function.

## Where the code does less than is said of it

For each of these a lemma gives the exact condition under which the promise is kept, and an input that breaks it.

* An old finish is never applied again (`backend/src/selftest-jobs.js:248-257`): it is, after the control room reopens or
  returns a job (`OldFinishAppliedAgain`, `ReplayAfterControlRoomReopen`, `ReplayAfterReturn`).
* Days add up to weeks: a midnight between two samples of an excursion loses the time between midnight and the next sample
  (`SplitBetweenSamplesLoses`, `DurationsAddUpToTheLoss`, `DaysAggregateExactly`).
* A device with one terminal separates nothing: it does when it is itself a source (`OpenedSoleSourceExample`,
  `OneTerminalLosesSomething`, `VerdictIsRightExactly`).
* A refused confirmation was not recorded: after a lost reply and an expired login it was (`ExpiredLoginAfterLostReply`,
  `RefusedYetRecorded`).
* A batch of trips is the same as its trips: not when neither feeder nor substation is known (`BatchFaithfulExactly`, both
  ways).
* Repeats of a trip can be coalesced: trips with no known place, or with two, are not the same coalesced (`OverwritesExactly`,
  `RepeatedTripExactly`).
* Retried work completes: a reclose cut off after its tag was removed does not (`RetryRestoresNothing`,
  `InterruptedRecloseExactly`, `InterruptedReclose`).
* An incident is restored only once no tripped device remains open, and no device is left on a finished incident. Besides a
  decision of the control room there are two ways round it: a trip joins between the removal of the last tag and the restore (`TripDuringReclose`,
  `RestoredWithOpenTagExactly`), or a trip that selected the incident before commits on it after it was restored
  (`TripAcrossReclose`). At every later moment: `OpenTagSinceExactly`, `NoneForgottenExactly`.
* A restored incident stays finished: a crew's Work Complete (`backend/src/routes/api.js:1400-1402`), or any request that read
  the status before, makes it active again (`CompletionAfterReclose`, `StaleAssignment`, `CompletionTagsExactly`,
  `NothingLeftOpenExactly`).
* One active SCADA incident per feeder: not beside one revived so, and only within four hours (`CompletionBesideSecondTrip`,
  `SecondAfterFourHours`, `OneActivePerFeederExactly`, `SecondIncidentExactly`).
* A planned outage moves only through its plan and permits: assigning a crew writes back a status read earlier
  (`ConfirmationUndone`, `StatusLoggedExactly`), and a cancelled outage may so be revived, switched and cancelled again with
  supply off (`CancelledWithSupplyOff`, `StrandedExactly`). The safety rules hold all the same (`SafeWhateverIsWrittenBack`).
* Work starts only on a dead line: the permit is checked and the job written later, and the line may be switched back in
  between (`StartedOnALiveLine`, `StartedOnADeadLineExactly`, `StartedUnderItsPermitExactly`).
* Confirmations are recorded in the order the crew made them: within an outage always (`InOrderWithinAnOutage`); of several
  outages not one that was discarded while a request for it was under way (`RecordedBehind`, `DiscardExactly`,
  `OnlyStraysAreOvertaken`).
* 202 means queued: the complaint may have been stored between the two reads (`QueuedThoughStored`, `AnswersAreHonest`).
* Clearing the site clears the route: an answer still on its way brings it back (`LateRouteExample`, `RouteWithoutSite`).
* A route is asked for at most every ten seconds: at once again after the site was cleared (`RepeatAfterClearing`,
  `RepeatsAreApart`).
* A taken-away job is closed: Back opens it again (`BackReopensACancelledJob`, `ReopensExactly`).
* The restart check announces that every acknowledged complaint is stored under the qid it was given; it does not compare
  the qid of an answer marked as a duplicate (`WrongDuplicateExample`, `AcceptedKeepsItsPromise`), and a qid answered with
  202 may never be stored (`QueuedUnderAnotherQid`, `StoredUnderItsQidExactly`).

## Model

| member | source | states |
|---|---|---|
| `IntakeQueue.KeepCore` | backend/src/infra/intakeQueue.js:112-495 | every statement of every producer and worker keeps the queue's invariant: each id in one place, locks only under running transactions that still carry their claim, only heads claimed, oldest first per key; producers may race past each other to insert |
| `Coalescing.KeepInv` | backend/src/infra/intakeQueue.js:112-139 | besides, no step loses, reorders or mixes up an accepted event within its key, whatever was coalesced |
| `QueueRuns.ExactlyOnce` | backend/src/infra/intakeQueue.js:389-420 | over every interleaving each id handed out is queued, committed once or dead-lettered, never two of these, and the runs are distinct |
| `QueueRuns.CommitsOnlyItsOwn` | backend/src/selftest-lease.js:37-47 | a worker commits only rows that still carry its own claim and lock, never ran before, and are in nobody else's transaction |
| `QueueRuns.LockedUntilTransactionEnds` | backend/src/selftest-lease.js:117-160 | an item locked in a running transaction stays out of every other worker's reach, however many leases run out, until that transaction ends |
| `QueueRuns.LostClaimNeverCommits` | backend/src/infra/intakeQueue.js:393-400 | a worker that lost an item while it stalled never gets it back under the old claim and never commits it |
| `QueueRuns.KeysRunInOrder` | backend/src/selftest-queue.js:262-306 | per order key a younger item is claimed or leaves only once every older one has left, and committed runs are in enqueue order |
| `QueueRuns.AttemptsCountClaims` | backend/src/infra/intakeQueue.js:297-319 | the attempts a row counts are the claims made on it |
| `QueueRuns.DeadAfterExactlyMaxAttempts` | backend/src/selftest-queue.js:156-177 | a failing item is dead-lettered after exactly maxAttempts claims, a worker-killing one after more and without another run, and nothing runs on more |
| `QueueRuns.NotClaimedBefore` | backend/src/infra/intakeQueue.js:297-319 | until its time comes no worker claims an item again |
| `QueueRuns.FailureBacksOff` | backend/src/infra/intakeQueue.js:370-381 | after a failed attempt the item is released and waits out its back-off; no heartbeat shortens it |
| `QueueRuns.HeartbeatKeepsOthersOut` | backend/src/infra/intakeQueue.js:281-293 | a heartbeat keeps an item of a live claim out of other workers' reach for a whole lease |
| `QueueLeases.ClaimKeepsOthersOut` | backend/src/infra/intakeQueue.js:306-319 | a claim keeps each item it took out of every other worker's reach until a whole lease after it, whatever they do, unless its own worker gives it up |
| `QueueLeases.ClaimsAreApart` | backend/src/infra/intakeQueue.js:306-319 | two claims of one moment never get the same item |
| `QueueLeases.AbandonedIsBackExactly` | backend/src/infra/intakeQueue.js:306-319 | when its worker dies an item is claimable again exactly from one lease after the claim |
| `QueueLeases.FailedIsBackExactly` | backend/src/infra/intakeQueue.js:370-381 | after a failed attempt exactly from its back-off on: the base time, doubled per attempt after the first, up to the longest |
| `QueueLeases.HeartbeatRenewsExactly` | backend/src/infra/intakeQueue.js:281-293 | a heartbeat moves the lease of exactly the unlocked rows its claims still carry to a whole lease from now, and nothing else |
| `QueueLeases.DeadWorkersItemsComeBack` | backend/src/infra/intakeQueue.js:281-293 | whatever the others do, an item still carried by a dead worker's claim is claimable exactly from the end of the lease that worker left |
| `QueueLeases.ContentFixedOnceClaimed` | backend/src/infra/intakeQueue.js:116-127 | from its first claim on nothing is added to an item, so that what is run is what the claim read |
| `QueueLeases.OffMeansApart` | backend/src/infra/intakeQueue.js:112-139 | with coalescing switched off every item stands for one event |
| `QueueMeaning.RunsMeanTheirEvents` | backend/src/selftest-queue.js:189-220 | at every moment the handlers of a tag left it in the state, and linked the alarms, that processing every event behind their runs would have |
| `QueueMeaning.CoalescingPreservesMeaning` | backend/src/selftest-queue.js:189-220 | once every item of a tag has run, the result is that of its full log of accepted events: same final state, same alarms linked |
| `QueueMeaning.SeenMeansStoodFor` | backend/src/infra/intakeQueue.js:116-127 | running the newest event of each item leaves the state that running every event those items stand for would |
| `QueueMeaning.LinksConserved` | backend/src/infra/intakeQueue.js:116-127 | the alarm ids that end up linked are those of all events accepted under the tag |
| `ScadaMeaning.RepeatedTripExactly` | backend/src/realtime/scada.js:370-451 | the same trip again changes nothing exactly when its feeder or substation is known; otherwise it opens a second incident |
| `ScadaMeaning.OverwritesExactly` | backend/src/realtime/scada.js:471-480 | the trip and reclose handlers have the property coalescing relies on exactly when trips that can be coalesced have one known place |
| `ScadaMeaning.InterleavedIncidents` | backend/src/infra/intakeQueue.js:116-127 | then the runs of all devices, by any workers in any interleaving and each at its own time, leave the incident list as every single event behind them, handled in the same places, would |
| `ScadaMeaning.InterleavedEvents` | backend/src/infra/intakeQueue.js:116-127 | and of each device whose items have all run those events are the accepted ones, in arrival order |
| `ScadaMeaning.CoalescedIncidents` | backend/src/infra/intakeQueue.js:116-127 | for one device alone, and at one moment: its coalesced runs leave the incident list as its full log of events would |
| `QueueDrain.HeadRunsAtOnce` | backend/src/selftest-queue.js:156-177 | in every reachable state an available head with attempts left can be claimed, run and committed right away, whatever other keys do, touching no other row |
| `QueueDrain.LiveWorkerDrains` | backend/src/selftest-queue.js:156-177 | from every reachable state, with workers dead or stalled anywhere, the queue can be emptied, each item with attempts left as its handler decides |
| `QueueLoop.RoundLowersBudget` | backend/src/infra/intakeQueue.js:448-466 | any claim that got an item, whichever heads and groups it took and whatever others have locked, lowers the budget once dealt with, and each of its items went the way its handler decides on this attempt |
| `QueueLoop.BudgetNeverRises` | backend/src/infra/intakeQueue.js:297-319 | in every interleaving no statement but a producer's raises the budget, and each claim of an item with attempts left lowers it |
| `QueueLoop.Turn` | backend/src/infra/intakeQueue.js:468-485 | claim, deal with the claim, let it go: allowed steps that lower the budget, or nothing was due |
| `QueueLoop.Loop` | backend/src/infra/intakeQueue.js:468-495 | the worker's loop over claim and processClaimed ends with an empty queue, for every lane, grouping, failing batch and back-off and for handlers that answer differently on each attempt, by allowed steps only |
| `QueueLoop.EveryItemEnded` | backend/src/infra/intakeQueue.js:361-381 | and each item that was queued has left: unrun if it was out of attempts, failed if all its remaining attempts fail, and otherwise as the first of them that does not fail decides |
| `QueueTable.IntakeTable.Tail` | backend/src/infra/intakeQueue.js:117-118 | the newest row of an order key |
| `QueueTable.IntakeTable.Enqueue` | backend/src/infra/intakeQueue.js:112-139 | absorbed into the newest row of its order key, its payload and its events added, exactly if that row has the same state and was never claimed; else a new row under a new id, due at once; in every case the machine's step |
| `QueueTable.IntakeTable.ClaimHeads` | backend/src/infra/intakeQueue.js:297-319 | the claim takes exactly the oldest claimable heads up to its limit, leaves none out that would fit, gives each one a lease from now and one attempt more, changes nothing else of them, and is two steps the machine allows |
| `QueueTable.IntakeTable.ClaimGroups` | backend/src/infra/intakeQueue.js:320-348 | the main-lane claim picks by feeder group out of the oldest due heads, takes those not locked meanwhile under the same lease, and is two steps the machine allows |
| `FeederGroups.PicksRight` | backend/src/selftest-queue.js:262-306 | picks are distinct, within the limit and the group maximum, the oldest head first so that none is passed over for good, and an unfilled claim left nothing out that fits |
| `FeederGroups.WholeGroups` | backend/src/infra/intakeQueue.js:334-341 | what is ranked of a group are its oldest heads |
| `FeederGroups.PicksExactly` | backend/src/infra/intakeQueue.js:320-348 | a head is picked exactly if it is among the first of its group and the limit was not reached before it, groups coming in the order of their oldest heads and a group's heads by age |
| `QueueTable.IntakeTable.Heartbeat` | backend/src/infra/intakeQueue.js:283-293 | renews every row its claims still carry, skipping locked ones |
| `QueueTable.IntakeTable.DeadLetter` | backend/src/infra/intakeQueue.js:351-359 | buries the item only for the claim that holds it |
| `QueueTable.IntakeTable.Failed` | backend/src/infra/intakeQueue.js:370-381 | dead letter after the last attempt, else released until the back-off is over, and nothing at all under a lost claim |
| `QueueTable.IntakeTable.ProcessOne` | backend/src/infra/intakeQueue.js:389-420 | out of attempts: buried unrun; no longer ours: left alone; else run, rejected or failed |
| `QueueTable.OneIsSteps` | backend/src/infra/intakeQueue.js:389-420 | everything processOne does is a sequence of steps the machine allows |
| `QueueTable.IntakeTable.ProcessGroup` | backend/src/infra/intakeQueue.js:422-446 | a group runs in one transaction, or item by item if that fails: in both cases allowed steps that deal with exactly its items, each as its handler decides |
| `QueueTable.RunsAtOnce` | backend/src/infra/intakeQueue.js:422-446 | committing a group is committing its live items one after the other, in order |
| `QueueTable.IntakeTable.ProcessClaimed` | backend/src/infra/intakeQueue.js:448-466 | every item of a claim is dealt with exactly once, as its own handler decides, whatever the grouping and whichever groups fail, by steps the machine allows |
| `SwitchingRules.CheckDraftSteps` | backend/src/domain/plannedOutage.js:57-75 | an accepted plan has both phases' steps numbered without gap or repeat |
| `SwitchingMachine.SettleSettles` | backend/src/infra/repo.js:150-157 | six automatic moves always reach the end of the chain, from any state |
| `SwitchingMachine.KeepInv` | backend/src/infra/repo.js:121-159 | every planned-outage request keeps the invariant: prefix, safety, and what each status says of plan and permits |
| `PlannedOutageTheorems.NeverRestoredUnderAPermit` | backend/src/selftest-oms01.js:237-275 | in no reachable state is a restore step confirmed while a permit is requested or issued, and confirmed steps are a prefix of isolate then restore steps |
| `PlannedOutageTheorems.WorkOnlyOnADeadLine` | backend/src/domain/plannedOutage.js:369-381 | at the instant of the check, Work Started is let through only on a line fully isolated and not switched back |
| `JobGate.StartedOnADeadLineExactly` | backend/src/routes/plannedOutages.js:107-117 | with the check and the write of the job as two events and any requests between them: when Work Started lands the line is dead exactly if no restore step was confirmed since the check |
| `JobGate.StartedUnderItsPermitExactly` | backend/src/routes/plannedOutages.js:107-117 | when it lands the permit it was checked against is still issued exactly if it was not returned since, and then the outage is in progress on a dead line |
| `JobGate.LandsExactly` | backend/src/infra/repo.js:631-632 | it lands exactly if the job is still on the crew it was checked for |
| `JobGateExamples.StartedOnALiveLine` | backend/src/routes/plannedOutages.js:107-117 | a run from the start: the check, the permit returned on the crew's behalf, the breaker closed, and then Work Started on a live line |
| `PlannedOutageTheorems.RestoringRefusalNeverHappens` | backend/src/domain/plannedOutage.js:164-187 | the refusals for a restoration already begun never happen in any run |
| `PlannedOutageTheorems.NothingRestoredInProgress` | backend/src/domain/plannedOutage.js:109-151 | while work is in progress a permit is open, so no restore step can be confirmed |
| `PlannedOutageTheorems.StatusHistoryIsLegal` | backend/src/domain/lifecycle.js:20-29 | under every sequence of planned-outage requests every status change follows the planned lifecycle, and the safety log holds the whole chain |
| `PlannedOutageTheorems.EachStepRecordedOnce` | backend/src/infra/repo.js:1130-1170 | the safety log records each confirmed step exactly once, whatever was resent or refused |
| `PlannedOutageTheorems.ConfirmationStays` | backend/src/domain/plannedOutage.js:77-99 | a confirmed step is never edited, replaced or confirmed again |
| `PlannedOutageTheorems.ResendIsReplay` | backend/src/domain/plannedOutage.js:109-118 | a recorded confirmation resent at any later time by anyone is a replay and changes nothing |
| `PlannedOutageTheorems.SettledRun` | backend/src/infra/repo.js:150-157 | between requests nothing more is implied |
| `PlannedOutageTheorems.OperatorCanAlwaysFinish` | backend/src/selftest-oms01.js:358-372 | once supply is off the control room alone can always bring the outage to resolved |
| `Assignments.SafeWhateverIsWrittenBack` | backend/src/routes/api.js:433-464 | with crew assignments that read the status and write it back at any later time: still no restore step under an open permit, no permit issued on a line not dead, and steps confirmed in order |
| `Assignments.AssignmentsChangeNothing` | backend/src/routes/api.js:433-464 | if no assignment writes over another status than it read, the outage is exactly what the requests alone make of it |
| `Assignments.StatusLoggedExactly` | backend/src/routes/api.js:433-464 | the safety log explains the status at every moment of a run exactly if no assignment writes over another status than it read |
| `Assignments.StrandedExactly` | backend/src/routes/api.js:433-464 | an outage is cancelled with a step carried out exactly when an assignment that read it as cancelled writes that back after a step was confirmed |
| `Assignments.StrandedForGood` | backend/src/domain/plannedOutage.js:284-290 | and no request then changes its status or confirms a step |
| `AssignmentExamples.ConfirmationUndone` | backend/src/routes/api.js:433-464 | read at notified, written back after the first confirmation: notified again, unexplained by the log; cancelling is still refused |
| `AssignmentExamples.CancelledWithSupplyOff` | backend/src/routes/api.js:433-464 | two assignments beside a cancellation leave it cancelled with a breaker open |
| `PlannedOutages.PlannedOutage.ConfirmSwitchingStep` | backend/src/infra/repo.js:1130-1170 | confirmed, replayed or refused in the order of the checks; a client id used elsewhere is refused; rows, log and automatic moves end exactly where the machine's request ends |
| `PlannedOutages.PlannedOutage.AskForPermit` | backend/src/infra/repo.js:1237-1260 | a permit opened in requested state, replayed for its own request id, or refused; ends exactly where the machine's request ends |
| `PlannedOutages.PlannedOutage.IssuePermit` | backend/src/infra/repo.js:1262-1269 | a requested permit issued once isolation is complete, and the outage moved to work in progress with it; ends exactly where the machine's request ends |
| `PlannedOutages.PlannedOutage.RefuseThePermit` | backend/src/infra/repo.js:1270-1276 | a requested permit refused with a reason; ends exactly where the machine's request ends |
| `PlannedOutages.PlannedOutage.WithdrawThePermit` | backend/src/infra/repo.js:1277-1285 | a requested permit withdrawn by its crew, or replayed; ends exactly where the machine's request ends |
| `PlannedOutages.PlannedOutage.ReturnThePermit` | backend/src/infra/repo.js:1286-1298 | an issued permit returned under a full declaration (in plain fields: OutageRequests.PermitExactly), or replayed; the outage moves on to restoring when it was the last; ends exactly where the machine's request ends |
| `PlannedOutages.PlannedOutage.ReplaceDraftSteps` | backend/src/infra/repo.js:184-203 | the whole draft replaced by checked steps with fresh ids, nothing confirmed; ends exactly where the machine's request ends |
| `PlannedOutages.PlannedOutage.ApprovePlan` | backend/src/infra/repo.js:204-213 | a checked draft approved; ends exactly where the machine's request ends |
| `PlannedOutages.PlannedOutage.UnapprovePlan` | backend/src/infra/repo.js:214-222 | back to draft while nothing is confirmed; ends exactly where the machine's request ends |
| `PlannedOutages.PlannedOutage.MarkNotified` | backend/src/infra/repo.js:1068-1076 | notice sent, or skipped by an operator with a reason; ends exactly where the machine's request ends |
| `PlannedOutages.PlannedOutage.ReschedulePlannedOutage` | backend/src/infra/repo.js:1087-1105 | a new window before switching starts, and a notified outage back to scheduled; ends exactly where the machine's request ends |
| `PlannedOutages.PlannedOutage.CancelPlannedOutage` | backend/src/infra/repo.js:1107-1112 | cancelled before switching starts; ends exactly where the machine's request ends |
| `PlannedOutages.PlannedOutage.ClosePlannedOutage` | backend/src/infra/repo.js:1114-1124 | closed once resolved and its jobs are done, or forced with a reason; ends exactly where the machine's request ends |
| `PlannedOutages.PlannedOutage.ApplyAutomatic` | backend/src/infra/repo.js:150-156 | the automatic moves settle the outage in at most six turns |
| `PlannedOutages.PlannedOutage.MoveIncident` | backend/src/infra/repo.js:80-92 | one legal status move, logged |
| `OutageRequests.PermitExactly` | backend/src/domain/plannedOutage.js:164-229 | in plain fields, which requests change a permit and to what: returned exactly by its own crew, or by the control room with a note, declaring men withdrawn, earths removed and tools clear; issued exactly by the control room with points named, every isolation step confirmed and no restore step; refused; withdrawn; by everything else left alone |
| `OutageRequests.ReturnedUnderFullDeclaration` | backend/src/selftest-oms01.js:358-362 | over every run from the start, each returned permit was issued and was returned by a request whose declaration has all three set |
| `OutageRequests.PermitsExactly` | backend/src/domain/plannedOutage.js:164-178 | when a request opens a permit: the job's own crew, the line isolated or worked on, its own isolation steps confirmed, nothing restored, none open for the job |
| `OutageRequests.StepExactly` | backend/src/domain/plannedOutage.js:109-153 | when a request confirms a step, and what it records: an approved plan, its crew or the control room, its phase's turn, every step before it done, and a restore step only once isolation is complete and no permit is open; no other request changes a step but by replacing the draft |
| `OutageRequests.NumberedExactly` | backend/src/domain/plannedOutage.js:57-75 | the numbering test: each of 1 to n on exactly one step of the phase |
| `OutageRequests.DraftExactly` | backend/src/domain/plannedOutage.js:57-75 | which drafts are accepted |
| `OutageRequests.PlanExactly` | backend/src/domain/plannedOutage.js:77-100 | when a request approves, takes back or replaces the plan, and what it leaves |
| `OutageRequests.AllowedExactly` | backend/src/domain/plannedOutage.js:77-366 | the allowed requests are exactly these: confirmations, the four on permits, the three on the plan, notices, new windows of at most 72 hours from five minutes ago on, cancellations and closings, each under its own conditions |
| `OutageRequests.StatusExactly` | backend/src/domain/plannedOutage.js:265-366 | which status a request itself gives the outage |
| `OutageRequests.MoveExactly` | backend/src/domain/plannedOutage.js:386-419 | the next automatic move, read off the steps and permits alone |
| `OutageRequests.PlannedMovesExactly` | backend/src/domain/lifecycle.js:20-29 | the planned lifecycle, move by move |
| `OutageRequests.ConfirmRefusedTruly` | backend/src/domain/plannedOutage.js:109-153 | every refusal of a confirmation names something true of the plan it met |
| `OutageRequests.PermitRefusedTruly` | backend/src/domain/plannedOutage.js:164-229 | so does every refusal of a request about a permit |
| `OutageRequests.PlanRefusedTruly` | backend/src/domain/plannedOutage.js:57-100 | and about the plan |
| `OutageRequests.RefusedTruly` | backend/src/domain/plannedOutage.js:256-366 | and of any other request |
| `OutageRequests.ReplayExactly` | backend/src/domain/plannedOutage.js:109-118 | a request is answered as already done exactly if it is: the step confirmed, or the permit asked for or returned, under the same client id, or the permit withdrawn |
| `OutageRequests.JobStatusExactly` | backend/src/domain/plannedOutage.js:368-381 | which status a crew's job may take under which permit and outage |
| `OfflineOrder.InOrderWithinAnOutage` | src/lib/plannedOutage.js:28-38 | through any pattern of lost, late and repeated requests, lost replies, refusals, discards, kills and other people's work at any number of outages, the confirmations of one outage are recorded in the order the crew made them, because the app offers a step only while no other of its outage waits and the server's view allows it |
| `OfflineOrder.OnlyStraysAreOvertaken` | src/lib/plannedOutage.js:75-91 | of two confirmations recorded against the order they were made in, they are for two outages, and the one recorded late was discarded while a request for it was still under way |
| `OfflineOrder.InOrderExactly` | src/lib/plannedOutage.js:75-91 | so the log of all outages is in order exactly if no confirmation discarded so was recorded behind a later one of another outage |
| `OfflineOrder.OfferedApart` | backend/src/routes/plannedOutages.js:339-363 | of two steps of one outage that were ever offered, one is confirmed by now or its plan is gone |
| `OfflineStrays.DiscardExactly` | src/lib/plannedOutage.js:75-91 | discarding a refused confirmation that the server might still take lets it be recorded behind a later one exactly if a request for it is still under way; otherwise it is never recorded |
| `OfflineExamples.RecordedBehind` | src/lib/plannedOutage.js:75-91 | such a run from an empty phone and server: two outages announced, a step of each ticked, the first turned away while an earlier request for it is under way and discarded, the second recorded, then the first |
| `OfflineTheorems.RecordedOnce` | backend/src/domain/plannedOutage.js:109-118 | whatever is lost, late or repeated, every confirmation is recorded at most once, what the phone dropped as acknowledged is recorded, and nothing behind the phone's head is |
| `OfflineTheorems.RecordedAsMade` | backend/src/domain/plannedOutage.js:109-118 | an entry in an outage's log under the client id of one of the phone's confirmations is for the outage and the step it was made for |
| `OfflineTheorems.LeavesOnlyRecordedOrDiscarded` | src/lib/plannedOutage.js:75-91 | a confirmation leaves the phone only after the server recorded it or the crew discarded a refused one |
| `OfflineTheorems.RefusedHeadBlocks` | src/lib/plannedOutage.js:75-91 | a refused head blocks everything behind it, of whatever outage, until it is discarded |
| `OfflineTheorems.RefusedYetRecorded` | src/lib/plannedOutage.js:14-16 | a refused mark on a confirmation the server holds: exactly when it is turned away, by no safety rule, after an earlier reply was lost |
| `OfflineTheorems.ExpiredLoginAfterLostReply` | src/lib/plannedOutage.js:14-16 | it happens: a lost reply, then an expired login (401) |
| `OfflineRuns.ReplayIffLogged` | backend/src/domain/plannedOutage.js:109-118 | a confirmation is answered as a replay exactly when the server's log holds it |
| `OfflineRuns.SendDelivers` | src/lib/plannedOutage.js:75-91 | a send of the machine leaves servers and phone as a step of the flush does |
| `OfflineConfirmations.SafetyStore.Remove` | src/lib/safetyStore.js:71-80 | takes the confirmation with this client id off the phone, wherever it stands, and keeps the order of the rest; without one nothing changes |
| `OfflineConfirmations.SafetyStore.MarkRejected` | src/lib/safetyStore.js:71-80 | marks the confirmation with this client id as refused, one attempt more, and no other |
| `OfflineConfirmations.SafetyStore.MarkAttempt` | src/lib/safetyStore.js:71-80 | counts one attempt on the confirmation with this client id and no other |
| `OfflineConfirmations.Send` | src/lib/plannedOutage.js:75-91 | one confirmation over a wire that may lose the request or the reply, to the outage it is for, whose client ids are checked against all outages |
| `OfflineConfirmations.RefusedExactly` | src/lib/plannedOutage.js:12-16 | which answers mark a confirmation as refused: any but none at all, a failure of the server, 408 and 429, which only count as an attempt |
| `OfflineConfirmations.FlushConfirmations` | src/lib/plannedOutage.js:75-91 | one pass over the items of all outages, oldest first, stopping at a refused item, a refusal or no signal: the phone and the server states it leaves |
| `JobWorkflow.Converges` | backend/src/domain/jobWorkflow.js:38-48 | any delivery order with any duplicates ends where the newest report that arrived says, locked or not in between |
| `JobWorkflow.OrderDoesNotMatter` | backend/src/selftest-jobs.js:161-195 | two delivery orders with the same newest report agree |
| `JobWorkflow.ReplayChangesNothing` | backend/src/selftest-jobs.js:161-195 | replaying any part of what arrived changes no status, history row or completion time |
| `JobWorkflow.ReplayAfterCrewReopen` | backend/src/routes/api.js:1494-1520 | after the crew's own undo (open exactly as ReopenExactly says) no report made before it changes anything |
| `JobWorkflow.ReplayAfterControlRoomReopen` | backend/src/routes/api.js:1494-1520 | after an undo by the control room old reports, in any order and number, finish the job again exactly when one is a Work Complete not older than the crew's newest update, and otherwise change nothing |
| `JobWorkflow.ReplayAfterReturn` | backend/src/routes/api.js:1525-1551 | after a return for correction old reports, in any order and number, leave the job as returned exactly when all are older than the crew's newest update |
| `JobWorkflow.OldFinishAppliedAgain` | backend/src/selftest-jobs.js:248-257 | the input on which an old finish is applied again |
| `JobWorkflow.SkippedAreTheStepsBetween` | backend/src/domain/jobWorkflow.js:38-48 | a skipped step is applied and the note names exactly the steps in between, in ladder order |
| `JobWorkflow.CrewReports` | backend/src/domain/jobWorkflow.js:16-29 | a crew reports its acknowledgement and every step above the bottom of the ladder, and nothing else |
| `JobWorkflow.DeliverExactly` | backend/src/routes/api.js:1363-1402 | which reports are taken, in the job's own fields, and what each makes of it: status, history row, the server's time on completion, incident in progress or pending |
| `JobWorkflow.ReopenExactly` | backend/src/domain/jobWorkflow.js:59-64 | the undo changes a job exactly while it is complete, the server's time is before its completion plus the window, and its incident, if any, is pending; and what it leaves |
| `JobWorkflow.UndoneWithinTheWindow` | backend/src/domain/jobWorkflow.js:59-64 | a Work Complete delivered at one time can be undone at another exactly if less than the window lies between them |
| `JobWorkflow.LockedExactly` | backend/src/domain/jobWorkflow.js:66-70 | a job is locked exactly if it is complete and its undo is over, closed by its incident, or without a completion time |
| `JobWorkflow.ReturnExactly` | backend/src/routes/api.js:1525-1551 | what a return for correction changes, and when |
| `JobWorkflow.JobRow.UpdateJobIf` | backend/src/infra/repo.js:644-648 | lands only while the job is still on that crew at that status |
| `JobWorkflow.PatchStatus` | backend/src/routes/api.js:1363-1386 | when it writes, it wrote over the very row it had decided on, still on that crew, whatever others wrote meanwhile, and notes the steps in between; declined, reassigned or busy only as the rows it saw say, and then nothing of it is written; three tries at most |
| `FeederKpi.IncidentsAdd` | backend/src/domain/feederKpi.js:102-112 | incident counts add over any split of a period, an excursion across the boundary counting once |
| `FeederKpi.ExtremesCombine` | backend/src/domain/feederKpi.js:255-275 | maxima, minima, sags and imbalance of a period are those of its parts combined |
| `FeederKpi.DurationsAddUpToTheLoss` | backend/src/domain/feederKpi.js:121-250 | durations and stress add up to exactly the hold time the boundary cuts off, and nothing is cut off exactly when the split is clean |
| `FeederKpi.SplitBetweenSamplesLoses` | backend/src/domain/feederKpi.js:121-250 | the input on which durations of days do not add |
| `FeederKpi.FeederIsUnionOfPhases` | backend/src/selftest-feederkpi.js:55-63 | feeder-level duration is at least each phase's and at most their sum, incidents at most the sum |
| `FeederKpi.DeadSamplesDoNotCount` | backend/src/selftest-feederkpi.js:65-71 | what a feeder reads while dead changes no index |
| `FeederKpiLoop.TakeSample` | backend/src/domain/feederKpi.js:161-209 | one sample seen by every tracker and series |
| `FeederKpiLoop.ComputeFeederKpis` | backend/src/domain/feederKpi.js:121-250 | the one-pass loop computes every index by its meaning, before rounding |
| `FeederKpiLoop.PeriodIsItsParts` | backend/src/domain/feederKpi.js:255-275 | a period is its two parts combined, when the second starts from the first's last sample and the boundary is clean |
| `FeederKpiDays.DaysAggregateExactly` | backend/src/domain/feederKpi.js:255-275 | days aggregated one after the other are the whole period in every index exactly if no midnight between them cuts a hold short; the covered time alone tells, and what it lacks is exactly what the midnights cut off |
| `FeederKpiDays.CoveredIsDaysAndCutOff` | backend/src/domain/feederKpi.js:121-250 | the covered time of a period is that of its days and of what each midnight cut off, which is nothing exactly at a clean one |
| `FeederKpiDays.RoundedDays` | backend/src/domain/feederKpi.js:84 | with every day rounded to two decimals before: maxima, minima, sags and imbalance are those of the whole period rounded once, and a sum is off by at most half a hundredth a day and one more, with clean midnights |
| `FeederReadings.BreachExactly` | backend/src/domain/feederKpi.js:135-144 | which side of which limit each excursion measures, in percent of the feeder's nominal voltage or current; a reading at the limit is no excursion, and an interruption, all three voltages known and under a tenth of nominal, is none |
| `FeederReadings.FeederBreachExactly` | backend/src/domain/feederKpi.js:145-147 | the feeder is in excursion exactly if one of its phases is |
| `FeederReadings.IncidentsExactly` | backend/src/domain/feederKpi.js:102-112 | the incidents of a period are the number of its rows in excess whose sample before is missing, more than a gap older or not in excess |
| `FeederReadings.MinutesExactly` | backend/src/domain/feederKpi.js:161-177 | the duration of an excursion is the number of milliseconds of the period at which the newest sample, less than a gap old, is in excess; the covered time that at which there is such a sample |
| `FeederReadings.RowsExactly` | backend/src/domain/feederKpi.js:126 | the rows of a period are its samples, each as often as given |
| `FeederReadings.AboveExactly` | backend/src/domain/feederKpi.js:181-190 | stress is what a live reading has above the high limit, and nothing at or below it |
| `FeederReadings.SagVoltsExactly` | backend/src/domain/feederKpi.js:181-186 | a voltage sag is a residual voltage from a tenth of nominal up to the sag limit |
| `FeederReadings.SagAmpsExactly` | backend/src/domain/feederKpi.js:187-195 | a current sag is a fall by more than the drop limit from a current flowing at most a gap before, both samples live, and not to zero |
| `FeederReadings.ImbalanceExactly` | backend/src/domain/feederKpi.js:198-207 | imbalance is the largest phase current over the smallest, taken exactly where a live feeder carries current in all phases and a twentieth of nominal in one |
| `FeederReadings.PeakExactly` | backend/src/domain/feederKpi.js:181-190 | highest and lowest are the largest and smallest live readings of the rows, in percent of nominal |
| `FeederReadings.DeepestSagExactly` | backend/src/domain/feederKpi.js:187-195 | the sag of a period is the deepest of its rows, each seen after the row before it |
| `FeederReadings.WorstImbalanceExactly` | backend/src/domain/feederKpi.js:198-207 | the imbalance of a period is the worst of its rows |
| `FeederReadings.ReportExactly` | backend/src/domain/feederKpi.js:211-235 | which index of the report is which of these |
| `NetworkGraph.DepthIsShortest` | backend/src/domain/networkGraph.js:81-104 | the depth of a walked device is its true hop distance |
| `NetworkGraph.WalkEnds` | backend/src/domain/networkGraph.js:81-104 | once a hop adds nothing, nothing further is ever reached |
| `NetworkGraph.HopsSound` | backend/src/domain/networkGraph.js:29-38 | each row of a hop names a new neighbour through a node both touch |
| `NetworkGraph.HopsComplete` | backend/src/domain/networkGraph.js:29-38 | every neighbour has a row |
| `NetworkGraph.HopsOrdered` | backend/src/domain/networkGraph.js:29-38 | each device appears once |
| `NetworkGraph.HopsFirst` | backend/src/domain/networkGraph.js:29-38 | of several ways to a device its row names the one from the first frontier device, through the first node |
| `NetworkWalk.Walk` | backend/src/domain/networkGraph.js:81-104 | each reachable device once, at its shortest depth, outward hop by hop, and complete unless it says it was cut short, which it says exactly if at some hop there is a device to go on from and the hop or node limit is reached |
| `NetworkWalk.SmallIsNeverLimited` | backend/src/domain/networkGraph.js:81-104 | in a network of fewer devices than both limits no walk is ever cut short |
| `SupplyTheory.LossGrows` | backend/src/domain/supplyTrace.js:95-160 | opening more devices only ever loses more |
| `SupplyTheory.WalkIsTerminalSeparation` | backend/src/selftest-topology.js:105-112 | from source nodes, the walk that stops at open devices reaches exactly what is tied to the source with each open device's terminals separated |
| `SupplyTheory.LostMeansSeparated` | backend/src/selftest-topology.js:105-112 | lost supply is: supplied with everything closed, and not once these terminals are separated |
| `SupplyTheory.WalkFromDevices` | backend/src/domain/supplyTrace.js:95-160 | for sources of any kind, devices included: the walk reaches the sources themselves and exactly what is tied, with each open device's terminals separated, to a node that a closed source touches |
| `SupplyTheory.LostFromDevices` | backend/src/domain/supplyTrace.js:95-160 | and lost supply is: supplied so with everything closed, and not once these devices are open |
| `SupplyTheory.OneTerminalSeparatesNothing` | backend/src/selftest-topology.js:118-120 | opening a one-terminal device that is no source loses nothing |
| `SupplyTheory.OneTerminalLosesSomething` | backend/src/domain/supplyTrace.js:95-160 | it loses something exactly when it is a source whose neighbours the others do not all supply |
| `SupplyTheory.OpenedSoleSource` | backend/src/domain/supplyTrace.js:95-160 | opening the only source, of one terminal, cuts off all its neighbours |
| `SupplyTheory.OpenedSoleSourceExample` | backend/src/domain/supplyTrace.js:95-160 | such a graph |
| `SupplyTrace.TraceUpstream` | backend/src/domain/supplyTrace.js:47-85 | a path of alternating devices and shared nodes from the device to a nearest bus node, the first one of the device it ends at, none shorter existing; no path exactly when the component holds no bus node within the limits, and "cut short" exactly when a limit was met |
| `SupplyTrace.PathTo` | backend/src/domain/supplyTrace.js:62-73 | the path to the first row on a bus, which is the nearest |
| `WhatIf.SimulateOpen` | backend/src/domain/supplyTrace.js:95-160 | errors in the code's order, each exactly when it applies; the sources are those named, or those on the nearest bus node; the lost devices, each once, are exactly those supplied with all closed and not with these open, and the baseline their number; only a walk that meets a limit is cut short, and then the answer says so |
| `WhatIf.OriginsGoOn` | backend/src/domain/networkGraph.js:81-87 | the sources of a walk are always walked past, unless the caller says otherwise |
| `WhatIf.Sources` | backend/src/domain/supplyTrace.js:103-127 | all devices on each named node, else the named device, together and nothing else; refused exactly if some name stands for nothing; without names the devices on a bus node nearest to the first device, and none exactly if no bus is connected or, said so, a limit was met before one |
| `WhatIf.NamedRight` | backend/src/domain/supplyTrace.js:108-113 | what one mRID stands for, and when it is unknown |
| `WhatIf.LostFrom` | backend/src/domain/supplyTrace.js:129-136 | baseline minus what is still live |
| `WhatIf.IsEffective` | backend/src/domain/supplyTrace.js:139-158 | whether opening the device alone is worth reporting |
| `WhatIf.VerdictIsRightExactly` | backend/src/domain/supplyTrace.js:139-158 | the per-device verdict is right except for a one-terminal device named as a source that a neighbour depends on |
| `WhatIf.UnreachedLosesNothing` | backend/src/domain/supplyTrace.js:148-150 | a device not reached from the source loses nothing |
| `RouteProgress.ClampMinimises` | src/components/CrewMap.js:89 | the clamped t minimises the parabola over [0, 1] |
| `RouteProgress.FootIsNearest` | src/components/CrewMap.js:85-90 | no point of the segment is nearer in scaled squared distance than the clamped foot |
| `RouteProgress.NearestSegment` | src/components/CrewMap.js:81-93 | the earliest segment with the least off, and that off |
| `RouteProgress.RoadLeft` | src/components/CrewMap.js:94-95 | the length from the point through every vertex after its segment |
| `RouteProgress.ProgressOnRoute` | src/components/CrewMap.js:78-98 | off is the least over the segments, left is the summed length of the line ahead, whose tail is the vertices after that segment |
| `RouteProgress.NearestOfTheRoute` | src/components/CrewMap.js:69-93 | when projection and distance share one factor, no point of the whole route is nearer |
| `RouteRequests.RouteState.RunEffect` | src/components/CrewMap.js:338-359 | the effect's branches, in place |
| `RouteRequests.RouteState.Answered` | src/components/CrewMap.js:353-356 | an answer is taken only if no newer request was made |
| `RouteRequests.RouteState.Failed` | src/components/CrewMap.js:357 | a failure changes nothing on screen |
| `RouteRequests.RouteIsForTheSite` | src/components/CrewMap.js:333-359 | after every run of the effect with a site selected, a route held answers a request with that site's key |
| `RouteRequests.NeverReplacedByOlder` | src/components/CrewMap.js:351-356 | a late answer never replaces one from a newer request |
| `RouteRequests.AskedExactly` | src/components/CrewMap.js:346-350 | a route is asked for exactly when the place is known and the site's key is new, or the crew is off a held route and more than ten seconds have gone by since it was asked for |
| `RouteRequests.RepeatsAreApart` | src/components/CrewMap.js:346-350 | of any two requests for one key, however far apart in the run, the second comes within 10 s only if the site was cleared or another key asked for in between |
| `RouteRequests.RepeatAfterClearing` | src/components/CrewMap.js:340-350 | it happens: asked, cleared, and asked again two milliseconds after the first time |
| `RouteRequests.RouteWithoutSite` | src/components/CrewMap.js:340-344 | from the moment the site is deselected and until one is selected again, a route is held exactly if the last request's answer arrives and the effect does not run after it |
| `RouteRequests.LateRouteExample` | src/components/CrewMap.js:340-356 | such a run: selected, deselected, and then its route arrives |
| `ScadaIncidents.IncidentTable.TripTx` | backend/src/realtime/scada.js:370-451 | the locked check-and-create for one trip |
| `ScadaIncidents.IncidentTable.TripBatch` | backend/src/realtime/scada.js:320-367 | a group of trips of one feeder in one transaction |
| `ScadaIncidents.IncidentTable.RemoveTripTag` | backend/src/infra/repo.js:361-365 | the tag off every active incident, and those it left with none |
| `ScadaIncidents.IncidentTable.RestoreFromScada` | backend/src/realtime/scada.js:236-256 | resolved, and closed at once exactly if at most five minutes passed since it was opened |
| `ScadaIncidents.IncidentTable.Reclose` | backend/src/realtime/scada.js:220-265 | both, with nothing in between: the tag removed everywhere, then what has none left restored (in plain fields: ScadaIncidents.RecloseExactly) |
| `ScadaIncidents.RecloseExactly` | backend/src/realtime/scada.js:220-265 | what a reclose makes of each incident: untouched if finished or not carrying the device; else the device off it; and if it was the last, on a fault, closed if at most five minutes passed since it was opened and resolved if more |
| `ScadaIncidents.TripExactly` | backend/src/infra/repo.js:459-476 | which incident a trip takes of those it may join: one of its own feeder before any other, then the most recently opened; and it opens one exactly if it may join none |
| `ScadaIncidents.BatchExactly` | backend/src/realtime/scada.js:320-367 | a batch leaves all its devices open on the incident its first trip takes or opens, and changes no other |
| `ScadaIncidents.BatchFaithfulExactly` | backend/src/realtime/scada.js:320-367 | a batch gives what one by one gives exactly when its scope is known or it holds one trip |
| `ScadaIncidents.RetryRestoresNothing` | backend/src/realtime/scada.js:220-265 | a reclose cut off after the tag was removed is not completed by a retry |
| `ScadaIncidents.InterruptedRecloseExactly` | backend/src/realtime/scada.js:220-265 | RetryRestoresNothing for one incident: after an interruption and any retry it is restored exactly if it had been reached |
| `ScadaIncidents.SecondIncidentExactly` | backend/src/infra/repo.js:459-476 | a trip opens an incident beside an active SCADA incident of its feeder exactly when there is one and the search of its scope, active and of the last four hours, finds none to join |
| `ScadaTheorems.NothingLeftOpenExactly` | backend/src/selftest.js:350-373 | in every interleaving of the statements of trips, recloses, staff and crews, an active incident that had a tripped device has one open or is about to be restored, exactly if no status write makes such an incident active again after it was finished and no reclose dies before restoring it |
| `ScadaTheorems.NothingLeftOpen` | backend/src/selftest.js:350-373 | so it holds of the active incidents if every status write finds its incident still active and no reclose dies; what is open on finished ones is ScadaRestores.NoneForgottenExactly |
| `ScadaTheorems.CompletionTagsExactly` | backend/src/routes/api.js:1400-1402 | StepTagged for a crew's Work Complete, in terms a caller can see: it keeps that exactly unless the incident is resolved, closed or cancelled when it arrives, had a tripped device, has none open and no restore is under way |
| `ScadaTheorems.StepTagged` | backend/src/realtime/scada.js:220-265 | and so for every single event |
| `ScadaTheorems.OneActivePerFeederExactly` | backend/src/selftest-loadfixes.js:246-251 | in every interleaving two active SCADA incidents of a feeder were opened more than four hours apart, exactly if no write revives a finished one beside another and no trip opens one beside another |
| `ScadaTheorems.OneActiveIncidentPerFeeder` | backend/src/selftest-loadfixes.js:246-251 | so it holds if every status write finds its incident still active: trips alone never break it |
| `ScadaTheorems.OpensApart` | backend/src/realtime/scada.js:370-451 | a trip that looked under its scope's lock opens no incident beside another of the last four hours |
| `ScadaTheorems.CompletionDoublesExactly` | backend/src/routes/api.js:1400-1402 | a crew's Work Complete breaks it exactly if the incident is resolved, closed or cancelled when it arrives and another stands active on its feeder within four hours |
| `ScadaTheorems.StepApart` | backend/src/realtime/scada.js:370-451 | and so for every single event |
| `ScadaRestores.RestoresItsLastTagExactly` | backend/src/selftest.js:350-373 | a reclose goes on to restore exactly the active fault incidents on which its tag was the last one open |
| `ScadaRestores.OpenTagSinceExactly` | backend/src/realtime/scada.js:220-265 | at any moment after a reclose took an incident's last tag, before the restore or long after it, the incident holds an open tag exactly if a trip joined it since whose device has not reclosed from it |
| `ScadaRestores.RestoredWithOpenTagExactly` | backend/src/realtime/scada.js:220-265 | in particular when the restore lands |
| `ScadaRestores.NoneForgottenExactly` | backend/src/infra/repo.js:353-365 | in every interleaving each device still open stands on an active incident, exactly if no restore, closing or status write of the run finishes an incident with a device open and no trip commits on one finished since it selected it |
| `ScadaRestores.StepForgotten` | backend/src/infra/repo.js:353-365 | and so for every single event |
| `ScadaRestores.RunTag` | backend/src/infra/repo.js:353-365 | over every run a tag is open exactly if it was and was not taken, or a trip joined with it since |
| `ScadaRestores.UndisturbedReclose` | backend/src/realtime/scada.js:220-265 | with nothing in between the statements do what the reclose is meant to do at once |
| `ScadaRestores.RestoreExactly` | backend/src/realtime/scada.js:236-256 | statement by statement: a restore resolves its incident, and the reclose goes on to close it exactly if it was opened at most five minutes before |
| `ScadaRuns.FaultMovesExactly` | backend/src/domain/lifecycle.js:6-13 | the fault lifecycle, move by move |
| `ScadaRuns.TripWaitsExactly` | backend/src/realtime/scada.js:370-451 | a trip waits exactly while another is under way on its feeder or, where one names no feeder, in its substation |
| `ScadaRuns.NothingElseWaits` | backend/src/realtime/scada.js:220-265 | and nothing else is ever kept from its next statement |
| `ScadaExamples.CompletionAfterReclose` | backend/src/routes/api.js:1400-1402 | tripped, dispatched, reclosed, then Work Complete: pending, with no device open and nothing to restore it |
| `ScadaExamples.CompletionBesideSecondTrip` | backend/src/routes/api.js:1400-1402 | with a second trip a minute after the reclose: two active incidents of one feeder a minute apart |
| `ScadaExamples.StaleAssignment` | backend/src/routes/api.js:433-464 | an assignment that read the incident before the reclose and writes after it revives it too |
| `ScadaExamples.InterruptedReclose` | backend/src/realtime/scada.js:220-265 | a reclose that dies after taking the tag |
| `ScadaExamples.TripDuringReclose` | backend/src/realtime/scada.js:220-265 | a trip that joins between tag and restore: closed with its device open |
| `ScadaExamples.TripAcrossReclose` | backend/src/realtime/scada.js:370-451 | a trip that selects before the reclose and commits after it: its device is left on a closed incident |
| `ScadaExamples.SecondAfterFourHours` | backend/src/infra/repo.js:459-476 | a trip 241 minutes after the first opens a second active incident |
| `ScadaExamples.SustainedReclose` | backend/src/selftest.js:396-402 | a device that recloses after half an hour: the incident stays resolved and is not closed |
| `ComplaintVerdicts.Intake.ComplaintTx` | backend/src/realtime/complaintIntake.js:75-165 | the transaction of one complaint: duplicate by external id, by own item, rejected for its qid, or stored and counted |
| `ComplaintVerdicts.Intake.ProcessOne` | backend/src/realtime/intakeWorker.js:11-26 | complaint, duplicate verdict and deletion in one transaction; a rejection leaves the item to the dead letter |
| `ComplaintVerdicts.KeepInv` | backend/src/realtime/complaintIntake.js:75-165 | every event keeps tables, verdicts and places true |
| `ComplaintVerdicts.AnythingMayArrive` | backend/src/realtime/complaintIntake.js:75-165 | nothing is kept from arriving in these runs: any complaint, by any way, in any order, at any place |
| `ComplaintVerdicts.EveryItemIsAccountedFor` | backend/src/selftest-verdicts.js:129-139 | after every run each enqueued item is queued, stored, a recorded duplicate or dead; exactly one of them, and the counts add up, if no item is run again after it left |
| `ComplaintVerdicts.OneOwner` | backend/src/selftest-verdicts.js:58-75 | no qid, external id or item ever owns two rows, even with reused qids and items run again |
| `ComplaintVerdicts.RowsStay` | backend/src/selftest-verdicts.js:58-85 | a stored complaint is never changed or removed |
| `ComplaintVerdicts.VerdictsAreTrue` | backend/src/realtime/complaintIntake.js:86-100 | each duplicate names a stored complaint of the same external id or its own; each refusal names the other holder of its qid |
| `ComplaintVerdicts.CustomersAreComplaints` | backend/src/realtime/complaintIntake.js:124-151 | an incident's customers are its starting count plus one per complaint stored for it |
| `ComplaintVerdicts.RedeliveryIsADuplicate` | backend/src/selftest-verdicts.js:83-96 | an item run again after it stored its complaint stores nothing, and that is on record |
| `ComplaintVerdicts.AnswersAreHonest` | backend/src/realtime/intakeWorker.js:64-70 | with anything between the two reads: 202 means the item was in the queue when its complaint was looked for, and it still is unless it was stored or found a duplicate since; 409 that it is dead, and nothing is stored for it unless it is run again |
| `ComplaintVerdicts.QueuedThoughStored` | backend/src/realtime/intakeWorker.js:64-70 | stored between the reads: 202 "queued" for a stored complaint |
| `ComplaintVerdicts.AnswersNameOwnComplaint` | backend/src/realtime/intakeWorker.js:50-74 | 200 and 201 name a complaint with the submission's external id, or its own item's |
| `ComplaintVerdicts.CreatedByItselfExactly` | backend/src/realtime/intakeWorker.js:72-73 | 201 is for a row of this very item, except exactly when the same qid and external id were stored before |
| `ComplaintVerdicts.StoredUnderItsQidExactly` | backend/src/realtime/complaintIntake.js:86-100 | a waiting complaint gets stored under the qid it was answered exactly if, when it is run, neither its external id nor its qid is stored already |
| `ComplaintVerdicts.QueuedUnderAnotherQid` | backend/src/realtime/intakeWorker.js:50-74 | an example: a qid answered 202 that is never stored |
| `OpenLoops.OpenLoop.Tick` | backend/src/selftest-restarts.js:144-149 | the inner loop of a tick sends what fits under the cap and counts the rest as not sent, at once |
| `OpenLoops.OpenLoop.Send` | backend/src/selftest-restarts.js:147-148 | one request, counted in all three counters |
| `OpenLoops.OpenLoop.Record` | backend/src/selftest-restarts.js:148 | one answer recorded, and the counters lowered |
| `OpenLoops.CapHolds` | backend/src/selftest-restarts.js:133-148 | in every interleaving of all loops the shared count is the sum of theirs and never exceeds the cap |
| `OpenLoops.PeakIsTheHighest` | backend/src/selftest-restarts.js:147 | the peak reported is the most requests ever in flight |
| `OpenLoops.ReturnsWithEveryAnswer` | backend/src/selftest-restarts.js:140-155 | due = sent + not sent, no key twice, and at return exactly one recorded answer per key sent |
| `OpenLoops.StopsAfterItsAnswers` | backend/src/selftest-restarts.js:143-153 | after sending stops nothing is sent, and a loop returns once its open requests are answered |
| `OpenLoops.UnsentOnlyAtTheCap` | backend/src/selftest-restarts.js:145-149 | requests go unsent exactly when more are due than fit, which leaves the cap reached |
| `OpenLoops.FirstTick` | backend/src/selftest-restarts.js:145-149 | from the start on a tick sends the first keys due, in order, as many as the cap lets through |
| `OpenLoops.OpenIsCounted` | backend/src/selftest-restarts.js:147-148 | the counters never fall short of the open requests |
| `RestartCheck.Group` | backend/src/selftest-restarts.js:210 | the stored qids by complaint |
| `RestartCheck.CountTwice` | backend/src/selftest-restarts.js:212 | zero exactly if no complaint is stored twice |
| `RestartCheck.SharedQids` | backend/src/selftest-restarts.js:219-223 | zero exactly if no qid was answered for two complaints |
| `RestartCheck.LostAndWrong` | backend/src/selftest-restarts.js:211-226 | zero exactly if every acknowledged complaint is stored and, where stored once and not a duplicate, under the qid answered |
| `RestartCheck.Accept` | backend/src/selftest-restarts.js:208-229 | accepts exactly if nothing is queued or dead, every acknowledged complaint is stored once and under its answered qid, none twice, and no qid is shared |
| `RestartCheck.DistinctBySize` | backend/src/selftest-restarts.js:227 | counting distinct qids finds any repeat |
| `RestartCheck.AcceptedKeepsItsPromise` | backend/src/selftest-restarts.js:228-229 | the announced promise holds of an accepted run exactly if the qids of answers marked as duplicates match too |
| `RestartCheck.WrongDuplicateExample` | backend/src/selftest-restarts.js:218-229 | an accepted run that breaks the promise |
| `PageHistory.History.Open` | src/NativeApp.jsx:299-307 | drops what lies ahead and shows the new page |
| `PageHistory.History.Back` | src/NativeApp.jsx:309-319 | one page back |
| `PageHistory.History.Forward` | src/NativeApp.jsx:321-331 | one page forward |
| `PageHistory.History.SetJobs` | src/NativeApp.jsx:604-636 | a new job list, and the forced close of an open job it takes away |
| `PageHistory.ListsExactly` | src/NativeApp.jsx:604-636 | which job list the app holds after any event, and whether it is the server's |
| `PageHistory.ClosedExactly` | src/NativeApp.jsx:604-636 | a refresh closes the open job exactly if its list is the server's and lacks the job, has it cancelled, or has it with another crew |
| `PageHistory.RefinesTrail` | src/NativeApp.jsx:295-331 | the two stacks are a list of pages with a cursor, and every handler does the list's operation |
| `PageHistory.TrailIsEverything` | src/NativeApp.jsx:295-297 | list and cursor give both stacks and the page back |
| `PageHistory.ThereAndBack` | src/NativeApp.jsx:309-331 | k Backs and k Forwards return to the same page and stacks, and to the same state exactly if the open job was the page's |
| `PageHistory.OpenJobIsThePages` | src/NativeApp.jsx:604-636 | after every run an open job is the current page's, also after a forced close |
| `PageHistory.PagesJobIsOpenExactly` | src/NativeApp.jsx:299-331 | the page's job is not open exactly when the last move came to it while it was not on the list |
| `PageHistory.BackReopensACancelledJob` | src/NativeApp.jsx:309-319 | such a run |
| `PageHistory.PressesShowAnotherPage` | src/NativeApp.jsx:299-303 | neighbouring pages differ exactly as long as no job is closed beside the same tab without a job |

## Left out

- Row order of a concurrent enqueue: ids are handed out and rows become visible in one step; an id that commits late behind
  a higher one is not modelled.
- QueueTable.IntakeTable.ClaimGroups: the feeder of a payload is a given number, and the machine itself lets a claim take any
  set of available heads.
- QueueTable.IntakeTable.ProcessOne: runs without other processes' statements in between; those interleavings are the
  machine's, for which the guarantees are proved. A handler is its verdict.
- QueueDrain.LiveWorkerDrains: says that the queue can be emptied; that the worker's loop does so is QueueLoop.Loop.
- QueueDrain.HeadRunsAtOnce: says what the machine allows, not what a claim picks.
- QueueLoop.Loop: one worker, no other process's statement in between, and other transactions ended; a handler that kills
  its process, and with it the rest of its claim, is left out here. What claims do among other workers is RoundLowersBudget
  and BudgetNeverRises, and what dead workers leave behind LiveWorkerDrains.
- QueueLeases.AbandonedIsBackExactly: nobody else takes a step in between; with the others at work it is
  DeadWorkersItemsComeBack, one way round a row that is locked just then.
- Queue lanes, pool sizes, polling and notices between processes.
- FeederKpiLoop.ComputeFeederKpis: exact reals before rounding, without FLIF_AVG and the maxima, minima and stress of the
  feeder-level series that are sums over phases.
- FeederKpiLoop.PeriodIsItsParts: the parts are combined unrounded; what rounding them changes is FeederKpiDays.RoundedDays.
- Trigonometry: the east-west factor and the distance between two points are given functions.
- RouteProgress.NearestOfTheRoute: for one shared factor only, since the projection and the distance use the cosine of
  different latitudes.
- Wall clocks: time is a number that an event carries; performance limits are not modelled.
- Free text: a text is blank, too long or given.
- Site distance checks, ownership of sites, severity, prediction, notes and alarms of incidents; how a complaint's category and
  place choose its incident (`ComplaintVerdicts` takes the choice as given).
- Planned outages' creation, delays, crew reports and photos; the same switching rules applied to fault incidents.
- JobWorkflow.PatchStatus: the job's status, its history row and the incident's status are one write; the incident's, as the
  statement of its own it is, belongs to ScadaRuns.
- ScadaMeaning.InterleavedIncidents: an absorbed event is given to the handler at the time its item ran, not at the time it
  arrived; that the order of different devices' events then is the order of their runs is part of the statement.
- ScadaMeaning.CoalescedIncidents: one device alone at one moment; all of them together are InterleavedIncidents.
- Assignments.StatusLoggedExactly: a request is one step; a write-back that lands inside a request's transaction is taken as
  before or after it. Of an assignment only the incident's status is modelled.
- OfflineRuns: a view of an outage is loaded in one step, and crew assignment's status writes (Assignments) are not among the
  requests; a crew that is given another phone is not modelled.
- OfflineStrays.DiscardExactly: for a confirmation that the server's rules would still take; one they refuse for good is never
  recorded.
- JobGate.StartedOnADeadLineExactly: for the planned-outage requests; crew assignment's status writes (Assignments) are not
  among them.
- ScadaIncidents.RecloseExactly: whole minutes; the limit of five is the code's default, which the environment may change.
- ScadaRuns: requests other than assignment may write any status the lifecycle allows from the one they read; notes,
  severities and alarms are left out.
- Canonical feeder and substation keys are given; the order SQL leaves open between rows equal under its ORDER BY.
- ComplaintVerdicts.Intake.ComplaintTx: transactions are serial; the advisory locks and retries that make them so are not
  modelled. Sent complaints are compared by one content value.
- OpenLoops: the cap is a natural number; the retries inside one request are part of its being in flight.
- React's deferred state updates: each handler of the app runs to its end.
- Which crew a rebalance picks, work orders, the importer, the schema migration, map forwarding, roles and encryption.
