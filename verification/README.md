# Leitstand in Dafny

A model of the mission logic of Leitstand, a backend that sends missions to mobile robots, with proofs of
what it promises. Each module follows one part of the backend:

- **The run protocol.** A run is one execution of a mission on one robot. Four writers race on it: the
  reply to the dispatch, the operator (cancel, close, pause, resume), the robot's reports, and the sweep
  when a robot reconnects. `Lifecycle` is the transition table, `Runs` the store with its compare-and-set
  and transition log, `RunSteps` each writer's step on one run, `RunServices` the services as they update
  the stores, `RunWorld` the transition system of all of them, and `RunInvariants` and `RunTheorems` what
  holds in every reachable world. `RunStart` is the start around the call to the robot, `Commands` what an
  operator's command sends and records, `Confluence` and `LateRows` the reply that comes late,
  `Confirmations` what confirms a pause or resume, `Reconciliation` and `Reconnects` the reconnect.
- **What a run shows.** `RunFacts` is its errors and times, `StageState` the projection of stage rows,
  `StageMerge` how live rows come from frames in any order, `EndedStages` what an ended run says of each
  stage, `RobotStatus` the two ways a robot's status is computed.
- **Mission definitions.** `Mission` is the tree of stages, `MissionRows` its flattening and rebuilding,
  `StageTable` the rows with their cascade, `MissionAuthoring` how a request gets its ids,
  `MissionPlanning` how its coverage stages are planned outside and again under the lock, and
  `MissionLibrary` any run of edits, on trees and on rows at once.
- **Around them.** `EventBus` is the bounded, latching bus; `CoveragePath`, `Boundary`, `BoundarySides` and
  `Ways` the coverage planner's segments and geometry; `MissionWire` the dispatch message and its
  inverse; `ToolLedger` the approvals of tool calls.

`dafny verify dfyconfig.toml` checks everything. Code that updates stores, fields or accumulators is
modelled as classes and methods whose contracts equate the new state with a function of the old one; the
theorems are about those functions. Lemmas switch automatic induction off, so each proof is the one written.

Conventions of the model:

- The clock, replies of robots, whether a robot is offline, freshly drawn ids and what the planner returns
  are parameters, arbitrary unless a contract says otherwise. A step reads the clock once.
- A step of a service is atomic: the row lock, the transaction, the partial unique index, the unique key
  and the cascade behave as declared. An operator's step carries what it read (`Seen`), which may be stale.
- A run's log and stage rows are fields of the run, as the foreign keys make them; stage rows are a map by
  stage id.
- Distances are real and kept squared, which orders them the same.

Where the code and its own comments differ the model follows the code and says exactly when the comment
holds. Closing a run while its robot is offline is said to be followed by a cancel when the robot returns
(`run_service.py:391-396`): that is so if and only if the run's record is still there and the robot names
it, `ClosedRunIsStopped`, and `ClosedUnclaimedIsNotTold` is a case where it is not. A cancel deferred
while offline is said to be sent by the reconnect (`run_service.py:351-355`): that is so if and only if
the sweep does not spare the run, `DeferredCancelIsCarriedOutUnlessSpared`, and
`ClaimedDeferredCancelIsNotSent` is a case where it does. A second cancel before the dispatch reply can
end the run while the dispatch is still out; an acceptance then tells the robot nothing,
`SecondCancelIsLost`, and `AcceptedAfterCancelsToldIff` says exactly when. A request is said to be
confirmed only by later reports (`run_service.py:543-545`): that is so if and only if the robot's counter
never stood higher than at the last report, `ConfirmationIsNewestIff`, and `OlderReportConfirms` is a
case where an older one does. A PAUSED report is ignored while a run is PENDING, so an acceptance
recorded after leading PAUSED reports loses them, `LatePausesAreLost`; `StatusAgreesExactly` and
`LateRowsAgreeIff` say when that shows, and `FinishedStageEndsSkipped` is a case where it shows for good.
The wire's inverse passes no provenance to cleanup stages, so nested coverage never comes back,
`NestedCoverageIsRefused`. An older twin of a tool call can be settled when a newer proposal comes
between a decision's lookup and its write, `SplitDecisionSettlesOlderTwin`, and only then,
`OlderTwinSettledIffStraddled`.

## Model

| member | source | states |
|---|---|---|
| RunTheorems.EveryLogIsAPath | leitstand_backend/adapters/outbound/persistence/postgres/mission_run_repository_adapter.py:106-156 | In every reachable world a run's log is a chain of allowed rows from PENDING to its status (the DISPATCH_UNCONFIRMED note at PENDING apart), no row leaves a terminal status, and each confirmation of a pause or resume is a report strictly newer than the request right before it; operator steps may act on stale reads |
| RunTheorems.WaitingRunShowsItsRequest | leitstand_backend/application/mission_state_service.py:76-85 | While a run is PAUSING or RESUMING the newest log row is the operator's stamped request for exactly that |
| RunTheorems.StaleReadIsSafeIffNewer | leitstand_backend/application/mission_state_service.py:113-150 | What the row lock is for: a report judged against an older read of a run in the same waiting state passes the compare-and-set, and keeps the log in order if and only if it is newer than the request now pending |
| RunTheorems.StaleReadConfirmsTooEarly | leitstand_backend/application/mission_state_service.py:139-150 | The concrete PAUSING, RESUMING, PAUSING history in which an unlocked report 7 would confirm the pause requested at report 9 |
| RunTheorems.EveryEndedRunIsComplete | leitstand_backend/application/run_state_view.py:112-131 | In every reachable world a PENDING run has no stage rows, an ended run has one final row per top-level stage at its plan index, and no row is outside the plan |
| RunTheorems.RunsOnlyMoveForward | leitstand_backend/adapters/outbound/persistence/postgres/mission_run_repository_adapter.py:106-156 | Whatever follows, a run keeps its identity and frozen plan, its log is only added to, a cancel is never withdrawn, a run never becomes PENDING again, and an ended run keeps its status, log, errors and rows until deleted (only `dispatched_at` may still be set) |
| RunTheorems.GoneStaysGone | leitstand_backend/adapters/outbound/persistence/postgres/mission_run_repository_adapter.py:362-368 | A run id, once used and deleted, names no run in any later world |
| RunTheorems.CancelRequestStands | leitstand_backend/domain/model/mission/run_lifecycle.py:82-172 | A run whose log holds a cancel request is CANCELLING or terminal |
| RunTheorems.SettleAnswersCancel | leitstand_backend/application/run_service.py:199-299 | Settling a reply over a pending cancel ends the run CANCELLED on a refusal, and sends the cancel again for every other outcome |
| RunTheorems.NoCancelIsLost | leitstand_backend/application/run_service.py:199-299 | If a run is CANCELLING when the reply is settled, then over every history before and after, a refusal ends it CANCELLED, any other outcome sends the cancel to its robot right after the reply, and it stays CANCELLING until it ends |
| RunTheorems.RecordedCancelToldIff | leitstand_backend/application/run_service.py:199-299 | A run with a cancel on record is CANCELLING or over, and the reply sends the cancel again if and only if it is still CANCELLING and the robot did not refuse; one already over keeps its status and its robot is told nothing, even on an acceptance |
| RunTheorems.CancelEndsAtOnceIff | leitstand_backend/application/run_service.py:357-389 | A recorded cancel ends a live run at once if and only if the robot, being online, answers NOT_EXECUTING_RUN and the run was not PENDING; otherwise the run is CANCELLING |
| RunTheorems.AcceptedAfterCancelsToldIff | leitstand_backend/application/run_service.py:199-222 | Of any cancels asked before a PENDING run is accepted, the acceptance sends one on if and only if none after the first was answered NOT_EXECUTING_RUN; otherwise the run is CANCELLED and its robot is told nothing |
| RunTheorems.SecondCancelIsLost | leitstand_backend/application/run_service.py:362-374 | The concrete loss: two cancels answered NOT_EXECUTING_RUN before the reply, then an acceptance, leave a CANCELLED, dispatched run and send nothing |
| RunTheorems.OneActiveRunPerRobot | leitstand_backend/adapters/outbound/persistence/postgres/mission_run_repository_adapter.py:54-91 | In every reachable world no two active runs share a robot, though only the insert checks it |
| RunTheorems.MissionsRunOnceAtATime | leitstand_backend/application/run_service.py:121-186 | Unless a start allows it, a mission never has two active runs, over any history |
| RunWorld.NextKeepsOk | leitstand_backend/application/run_service.py:121-536 | Every event of every writer keeps the world invariant: logs, rows, and one active run per robot |
| RunWorld.OnRunFollows | leitstand_backend/application/run_service.py:188-536 | Each protocol step keeps one run's log and rows in order and only moves it forward |
| RunWorld.RecordAfterEnd | leitstand_backend/application/mission_state_service.py:101-200 | A report of a run that is over changes nothing |
| RunInvariants.LogOkMeans | leitstand_backend/adapters/outbound/persistence/postgres/mission_run_repository_adapter.py:106-156 | The row-by-row invariant the steps keep is the chain property, the ordering of confirmations and the stamping of requests |
| RunInvariants.WriteKeepsLog | leitstand_backend/adapters/outbound/persistence/postgres/mission_run_repository_adapter.py:106-156 | A compare-and-set that follows the table, stamped where it must be, extends a well-formed log to one |
| RunInvariants.SettleKeepsRows | leitstand_backend/application/run_state_view.py:112-131 | Closing out a run leaves exactly the resolved plan as its rows |
| RunInvariants.SettleKeepsOk | leitstand_backend/application/run_service.py:188-299 | The dispatch reply keeps a run's invariant for every outcome and every state the run may have moved to |
| RunInvariants.CancelKeepsOk | leitstand_backend/application/run_service.py:317-389 | The operator's cancel keeps the invariant for every reply, the immediate close on NOT_EXECUTING_RUN included |
| RunInvariants.CloseKeepsOk | leitstand_backend/application/run_service.py:391-421 | The operator's close keeps the invariant |
| RunInvariants.SteerKeepsOk | leitstand_backend/application/run_service.py:471-505 | A pause or resume keeps the invariant for every reply |
| RunInvariants.RecordKeepsOk | leitstand_backend/application/mission_state_service.py:101-200 | A report keeps the invariant, whatever state the run is in |
| RunInvariants.SweepKeepsOk | leitstand_backend/application/run_reconciliation.py:48-109 | The sweep of one run keeps the invariant |
| Lifecycle.SubTablesAreDisjoint | leitstand_backend/domain/model/mission/run_lifecycle.py:82-172 | No two sub-tables define the same pair, so merging them is independent of order |
| Lifecycle.TerminalIffNoExit | leitstand_backend/domain/model/mission/run_lifecycle.py:66-172 | The terminal states are exactly those without a transition; every other state can be ended by a report, by the operator and by the sweep |
| Lifecycle.CancellingOnlyEnds | leitstand_backend/domain/model/mission/run_lifecycle.py:82-172 | CANCELLING leads only to itself or an end |
| Lifecycle.RequestsAreHeld | leitstand_backend/domain/model/mission/run_lifecycle.py:90-127 | PAUSING, RESUMING and CANCELLING are entered by their request alone, and a pending pause or resume is left only by its confirmation, another request or an end |
| Lifecycle.ReportTable | leitstand_backend/domain/model/mission/run_lifecycle.py:114-172 | Where each report takes a run from each state, in closed form |
| Lifecycle.RepeatedReportSettles | leitstand_backend/domain/model/mission/run_lifecycle.py:245-260 | A repeated report moves a run at most once |
| Runs.RunStore.Create | leitstand_backend/adapters/outbound/persistence/postgres/mission_run_repository_adapter.py:54-91 | Inserts a run unless its robot already holds an active one |
| Runs.RunStore.UpdateStatus | leitstand_backend/adapters/outbound/persistence/postgres/mission_run_repository_adapter.py:106-156 | The compare-and-set: applies only to a live run in the expected state, sets the timestamps and appends one log row, or changes nothing |
| Runs.RunStore.SetAcknowledged | leitstand_backend/adapters/outbound/persistence/postgres/mission_run_repository_adapter.py:158-177 | Notes the receipt on the newest transition only |
| Runs.RunStore.MarkDispatchedAt | leitstand_backend/adapters/outbound/persistence/postgres/mission_run_repository_adapter.py:201-206 | Sets `dispatched_at` once |
| Runs.RunStore.TouchLastReport | leitstand_backend/adapters/outbound/persistence/postgres/mission_run_repository_adapter.py:219-224 | Overwrites the last report unconditionally |
| Runs.RunStore.UpsertStageRuns | leitstand_backend/adapters/outbound/persistence/postgres/mission_run_repository_adapter.py:284-336 | Versioned upsert: a record replaces its row if its counter is larger, and lands where there is none |
| Runs.RunStore.OverwriteStageRuns | leitstand_backend/adapters/outbound/persistence/postgres/mission_run_repository_adapter.py:288-336 | Unversioned upsert: the given rows replace, others stay |
| Runs.RunStore.ListActive | leitstand_backend/adapters/outbound/persistence/postgres/mission_run_repository_adapter.py:264-266 | Returns every active run once, in any order |
| Runs.RunStore.ListActiveByRobot | leitstand_backend/adapters/outbound/persistence/postgres/mission_run_repository_adapter.py:248-254 | Returns the robot's active runs once each, in any order |
| RunServices.RunService.Prepare | leitstand_backend/application/run_service.py:121-186 | Refuses in the order the checks are made, otherwise records a PENDING run; the state changes only on success |
| RunServices.RunService.Settle | leitstand_backend/application/run_service.py:188-299 | Performs exactly the reply step on the stored run and the wire |
| RunServices.RunService.Target | leitstand_backend/application/run_service.py:507-534 | Finds the run a mission-addressed command means, or the exact error |
| RunServices.RunService.Cancel | leitstand_backend/application/run_service.py:317-389 | Performs exactly the cancel step on the target, or fails without effect |
| RunServices.RunService.CloseTarget | leitstand_backend/application/run_service.py:391-421 | Performs exactly the close step |
| RunServices.RunService.SteerTarget | leitstand_backend/application/run_service.py:471-505 | Performs exactly the pause or resume step |
| RunServices.RunService.Delete | leitstand_backend/application/run_service.py:446-464 | Removes a run only once it is over |
| RunServices.MissionStateService.Record | leitstand_backend/application/mission_state_service.py:101-200 | Performs exactly the report step; an unknown run or another robot's report is dropped |
| RunServices.SettleStageState | leitstand_backend/application/run_state_view.py:112-131 | Overwrites the run's rows with the projection of the stored rows under the arriving ones |
| RunServices.RanIsNext | leitstand_backend/application/run_service.py:188-536 | A service call that performed a step on one run is that event of the transition system |
| RunServices.StartsIff | leitstand_backend/application/run_service.py:131-149 | A start goes ahead if and only if the mission is known and not archived, the robot it names (else the mission's own) is free, online and fit, and the mission has no live run or allows one beside it; a refusal names a reason that holds |
| RunServices.PreparedIsNext | leitstand_backend/application/run_service.py:121-186 | A start that is not refused is the event that adds one PENDING run for that robot with the mission's plan, created now, and sends nothing |
| RunServices.DeletedIsNext | leitstand_backend/application/run_service.py:446-464 | What a delete call answers and leaves is the step of its event; if it succeeds the run was over, and over any later history its id names no run again |
| Reconciliation.ReconnectIsAfter | leitstand_backend/application/run_reconciliation.py:32-128 | A whole reconnect, the sweep loop and the stop for a claim, is a run of protocol events, so what holds in every reachable world holds after it |
| Commands.CancelSendsIff | leitstand_backend/application/run_service.py:317-389 | A cancel goes to the run's robot, once and in its mode, if and only if it is recorded (the run is live and as it was read) and the robot is online; the request is noted as received exactly when the robot applied it; the only error is INVALID_TRANSITION, exactly for a run read as over |
| Commands.CloseEndsIff | leitstand_backend/application/run_service.py:391-421 | Closing ends a run as CANCELLED if and only if it is live and its robot offline, each other case has its own error, and nothing is ever sent |
| Commands.SteerSendsIff | leitstand_backend/application/run_service.py:471-505 | One order goes out, a pause for a pause and a resume for a resume, if and only if the status read allows it and the robot is online; the run changes only if the robot also applied it, by that one stamped request; silence, refusal, offline and a forbidden status leave it alone, each with its own error |
| Commands.EveryRequestWasSent | leitstand_backend/application/run_service.py:317-505 | In every reachable world each pause, each resume and each received cancel in a run's log has an order of its own that was sent to the run's robot |
| RunFacts.ReportSetsErrors | leitstand_backend/application/mission_state_service.py:161-178 | A report that fails the run leaves the errors it had followed by the report's; any other that moves it leaves none; one that moves nothing leaves them |
| RunFacts.ErrorsTellTheirCause | leitstand_backend/application/run_service.py:188-536 | In every reachable world a run's errors follow from its log: what was noted while it lives, and how it ended |
| RunFacts.WarningStandsIff | leitstand_backend/application/mission_state_service.py:161-168 | A live run carries the dispatch warning if and only if its dispatch went unconfirmed and no report has moved it since, and never another error; a RUNNING, PAUSED or SUCCEEDED run has none |
| RunFacts.FailedRunHoldsReport | leitstand_backend/application/mission_state_service.py:161-168 | A run a report failed holds the warning if it still stood, then exactly the report's errors |
| RunFacts.TimesTellStatus | leitstand_backend/adapters/outbound/persistence/postgres/mission_run_repository_adapter.py:106-156 | In every reachable world a run has an end time exactly if it ended and no dispatch or start time while PENDING, and the next event sets exactly the times it is the time of |
| RunStart.RunStartOrchestrator.Start | leitstand_backend/infrastructure/deps.py:424-473 | A start is refused without effect, or is exactly the two transactions around the call with the other writers' events between them, either of which may fail and be rolled back, and tells the caller accordingly |
| RunStart.RunStartOrchestrator.RecordReply | leitstand_backend/infrastructure/deps.py:447-473 | The second transaction settles the reply and tells the caller; if it fails its writes are undone, its commands are not |
| RunStart.UnrecordedReplyLosesOnlyItself | leitstand_backend/infrastructure/deps.py:447-464 | If the second transaction fails, every run is as the other writers left it and the world invariant holds; a run nobody moved is PENDING and the robot's RUNNING report takes it up |
| RunStart.UnconfirmedStartIsReported | leitstand_backend/infrastructure/deps.py:465-473 | Whatever runs while the call is out: a start the robot did not accept, of a run still there, is reported as failed if and only if only the backend moved the run or the run failed |
| RunStart.UndisturbedStart | leitstand_backend/infrastructure/deps.py:424-473 | With nobody else acting: accepted means DISPATCHED at the reply time, declined means REJECTED with a complete stage view and a reported failure, anything else leaves the run PENDING with the warning and reports the failure |
| RunStart.BackendAloneNeverDrives | leitstand_backend/infrastructure/deps.py:440-473 | A run only the backend moved, and never accepted, is PENDING, REJECTED or FAILED |
| Confirmations.ConfirmationIsNewestIff | leitstand_backend/application/run_service.py:543-545 | Over every history before a pause or resume, only reports newer than all recorded before it can confirm it, if and only if the one recorded last had the highest counter of them |
| Confirmations.StampIsLastNoted | leitstand_backend/application/run_service.py:543-545 | The counter a request is stamped with is that of the report recorded last, over every history |
| Confirmations.OlderReportConfirms | leitstand_backend/application/run_service.py:543-545 | The concrete case: after reports 9 and 5, report 6 confirms a pause |
| Confluence.LateAcceptanceIsConfluent | leitstand_backend/application/run_service.py:199-222 | If the first report is not PAUSED, recording the acceptance after any number of reports ends in the same run (rows, errors, timestamps) as recording it first, with `dispatched_at` set |
| Confluence.LatePausesAreLost | leitstand_backend/application/run_service.py:199-222 | In every case the late acceptance loses exactly the PAUSED reports that led and came before it |
| Confluence.StatusAgreesExactly | leitstand_backend/domain/model/mission/run_lifecycle.py:114-127 | The final status differs if and only if the acceptance comes after all reports and all of them were PAUSED |
| LateRows.LateRowsAgreeIff | leitstand_backend/application/mission_state_service.py:173-200 | The stage rows agree with those of an early acceptance if and only if, while the run lasts, later frames say at least as new of every stage the lost PAUSED frames named, and, once a report ended it, that report names the stage, or frames before it say at least as new, or what was lost comes to nothing in the final view |
| LateRows.EndRowsAgreeIff | leitstand_backend/domain/model/mission/stage_state_record.py:83-128 | Losing leading frames leaves the same rows of an ended run if and only if, for every stage, the ending frame names it, later frames say at least as new of it, or the lost ones said nothing the projection keeps |
| LateRows.RecordAllRows | leitstand_backend/application/mission_state_service.py:173-200 | After any reports an accepted run's rows are the merge of the frames up to the first that ends it, closed out by that one |
| LateRows.FinishedStageEndsSkipped | leitstand_backend/application/mission_state_service.py:183-200 | The concrete loss: a stage a PAUSED report said is finished ends SKIPPED after a late acceptance and FINISHED after an early one |
| StageMerge.LosingFramesIff | leitstand_backend/adapters/outbound/persistence/postgres/mission_run_repository_adapter.py:292-336 | Losing leading frames leaves the same merged rows if and only if later frames say at least as new of every stage they named |
| Reconciliation.ReconcileRobotRuns | leitstand_backend/application/run_reconciliation.py:32-109 | The loop over the listed runs is the sweep, in some order of the listing, followed by the stop for a closed claim |
| Reconciliation.SweepGuarantees | leitstand_backend/application/run_reconciliation.py:48-109 | The sweep ends exactly the listed runs it does not spare, returns exactly those, sent each a cancel and nothing else, and leaves every other run untouched |
| Reconciliation.DeferredCancelIsCarriedOutUnlessSpared | leitstand_backend/application/run_reconciliation.py:48-109 | A cancel recorded while the robot was offline and still open after any history is carried out by the whole reconnect (robot told, run closed as CANCELLED) if and only if the sweep does not spare the run; a robot naming it in its canonical spelling is not told again |
| Reconciliation.ClaimedDeferredCancelIsNotSent | leitstand_backend/application/run_service.py:351-355 | The concrete failing case: a robot that returns naming the run is sent nothing, and the run stays CANCELLING |
| Reconnects.ReconnectLeavesIff | leitstand_backend/application/run_reconciliation.py:48-109 | A listed run is given up on (FAILED, or CANCELLED if that was asked, with the sweep's error and a cancel sent) unless it was created since, is PENDING and under ten seconds old, or is the one claimed, or without a claim was reported since |
| Reconnects.UnclaimedSurvivesIffHeard | leitstand_backend/application/run_reconciliation.py:62-67 | Over every history: without a claim an older executing run survives if and only if its last report was taken in since; with a clock that does not go back, if and only if any was |
| Reconnects.ReconnectTellsIff | leitstand_backend/application/run_reconciliation.py:48-128 | Of any run the robot is told something if and only if it is its own and was given up on, or is over and named |
| Reconciliation.StopAClosedClaim | leitstand_backend/application/run_reconciliation.py:112-128 | Sends an IMMEDIATE cancel exactly for a claimed run that is over and is this robot's |
| Reconciliation.ClosedRunIsStopped | leitstand_backend/application/run_service.py:391-421 | A run closed while its robot was away is stopped when the robot returns, with an IMMEDIATE cancel, if and only if its record is still there and the robot names it, whatever happened in between |
| Reconciliation.ClosedUnclaimedIsNotTold | leitstand_backend/application/run_service.py:391-421 | The concrete failing case: a robot that returns without saying what it holds is told nothing of the run closed meanwhile |
| Reconciliation.ToldIff | leitstand_backend/application/run_reconciliation.py:48-128 | On a reconnect a robot is told of one of its runs if and only if the sweep ends it, or the robot names it and it is over |
| Reconciliation.EndedRunToldIff | leitstand_backend/application/run_reconciliation.py:112-128 | A run that is over is told of if and only if its robot names it, and then with an IMMEDIATE cancel |
| Reconciliation.OtherSpellingIsNotAClaim | leitstand_backend/application/run_reconciliation.py:52-60 | A live run claimed in another spelling of its id is closed like any other and then stopped at once |
| StageState.ComputeLiveRecords | leitstand_backend/application/mission_state_service.py:41-74 | The loops yield the frame's records of stages the plan knows, each at its plan place |
| StageState.FinalStageStatuses | leitstand_backend/domain/model/mission/stage_state_record.py:83-128 | The loop yields the resolved rows of the plan |
| StageState.FinalRowsResolve | leitstand_backend/domain/model/mission/stage_state_record.py:83-128 | The projection holds exactly one projected row per top-level stage and exactly the reported cleanup rows, unchanged |
| StageState.FinalRowsComplete | leitstand_backend/domain/model/mission/stage_state_record.py:46-128 | Every top-level stage ends with a final status at its plan index, and no row leaves the plan |
| StageState.FinalRowsStable | leitstand_backend/domain/model/mission/stage_state_record.py:83-128 | Projecting a projected view again changes only the projection's own timestamp |
| StageState.ProjectionIsFinal | leitstand_backend/domain/model/mission/stage_state_record.py:46-62 | Every projected status is final, projecting is idempotent, and a succeeded run has no failed stage |
| StageState.AttributeErrors | leitstand_backend/domain/model/mission/stage_state_record.py:131-163 | Each stage gets exactly the errors that belong to it, in order |
| StageState.AttributionIsUnique | leitstand_backend/domain/model/mission/stage_state_record.py:131-163 | No error is attributed to two stages |
| StageState.AttributedIff | leitstand_backend/domain/model/mission/stage_state_record.py:131-163 | An error belongs to the run's stage its first stage reference names; if that is none of the run's, to the one failed stage if exactly one failed |
| EndedStages.EveryEndedStage | leitstand_backend/domain/model/mission/stage_state_record.py:46-128 | Over every history: each top-level stage of an ended run has its row at its place, judged by the last the robot said of it and how the run ended (under way: CANCELLED, FINISHED or FAILED with the run; never begun: SKIPPED unless it SUCCEEDED; ended: kept), all else as it was said |
| EndedStages.CancelledShowsFailedOnlyIfSaid | leitstand_backend/domain/model/mission/stage_state_record.py:46-62 | A CANCELLED run shows a FAILED stage only where its robot reported that stage FAILED |
| StageMerge.LastWriterWins | leitstand_backend/adapters/outbound/persistence/postgres/mission_run_repository_adapter.py:292-336 | After any frames each row is the record of a frame no other frame naming the stage has a higher counter than |
| StageMerge.StaleFrameChangesNothing | leitstand_backend/adapters/outbound/persistence/postgres/mission_run_repository_adapter.py:292-336 | A frame no newer than the rows of the stages it names changes no row |
| StageMerge.MergeIgnoresOrder | leitstand_backend/adapters/outbound/persistence/postgres/mission_run_repository_adapter.py:292-336 | The same frames in any order, each any number of times, leave the same rows |
| StageMerge.LiveRowsAreMerged | leitstand_backend/application/mission_state_service.py:183-200 | While a run lasts its rows are the merge of the frames recorded for it, whatever its other writers do in between |
| StageMerge.LiveRowsIgnoreOrder | leitstand_backend/application/mission_state_service.py:183-200 | Two histories of the whole protocol that brought a run the same frames show the same live rows |
| RobotStatus.StatusPathsAlwaysAgree | leitstand_backend/application/fleet_view_service.py:38-51 | In every reachable world the status shown by the fleet view equals the pushed one for every robot, for every order of the listing |
| RobotStatus.StatusPathsAgree | leitstand_backend/application/robot_status_service.py:31-42 | The two paths agree unless the robot has a PENDING run next to an executing one |
| RobotStatus.StatusPathsDisagree | leitstand_backend/application/fleet_view_service.py:38-41 | With both, some order of the listing shows an online, uncharged robot idle on one path and active on the other |
| RobotStatus.ShownAs | leitstand_backend/domain/model/robot/robot_status.py:18-35 | A robot shows OFFLINE exactly if it is offline, else CHARGING exactly if it charges, else ACTIVE exactly if it has a live run past PENDING |
| RobotStatus.ShowStatus | leitstand_backend/application/fleet_view_service.py:38-51 | Keeping one run per robot from the listing gives the pushed status wherever a robot holds at most one active run |
| Mission.DistinctIdsIffListed | leitstand_backend/domain/model/mission/mission.py:92-99 | Ids are distinct at every depth if and only if the flat list of them has no duplicate |
| Mission.ReplaceStage | leitstand_backend/domain/model/mission/mission.py:102-120 | The loop returns the tree with the named stage swapped, and whether it was there |
| Mission.FoundIffPresent | leitstand_backend/domain/model/mission/mission.py:102-120 | The stage is reported found if and only if its id occurs at some depth |
| Mission.ReplacedIds | leitstand_backend/domain/model/mission/mission.py:102-120 | Replacing a stage removes the ids under the old one and adds those of the new one, nothing else |
| Mission.ReplacedDistinct | leitstand_backend/domain/model/mission/mission.py:102-120 | The result has distinct ids if and only if the replacement's own ids are distinct and clash with none that stay |
| MissionRows.SiteIsFirstLocal | leitstand_backend/adapters/outbound/persistence/postgres/mission_repository_adapter.py:169-179 | A stage row's site is that of its first site-local waypoint, and none exactly if it has none |
| MissionRows.Flatten | leitstand_backend/adapters/outbound/persistence/postgres/mission_repository_adapter.py:181-200 | The recursive append yields the rows of the tree, parents before their cleanup |
| MissionRows.Nest | leitstand_backend/adapters/outbound/persistence/postgres/mission_repository_adapter.py:203-221 | Grouping by parent in a loop and rebuilding gives the tree of the rows |
| MissionRows.NestedOfFlattened | leitstand_backend/adapters/outbound/persistence/postgres/mission_repository_adapter.py:181-221 | For every tree with distinct ids, rebuilding from any permutation of its rows terminates and returns the tree, empty cleanup lists made absent |
| MissionRows.PathExtends | leitstand_backend/adapters/outbound/persistence/postgres/mission_repository_adapter.py:203-221 | Why rebuilding from parent references ends: by the primary key the path of ancestors never repeats an id |
| StageTable.StageStore.ReplaceStages | leitstand_backend/adapters/outbound/persistence/postgres/mission_repository_adapter.py:81-102 | Deletes the dropped ids with their cascade, then upserts the tree's rows |
| StageTable.StageStore.GetStages | leitstand_backend/adapters/outbound/persistence/postgres/mission_repository_adapter.py:104-119 | Reads back the tree of the mission's rows |
| StageTable.SaveIsExact | leitstand_backend/adapters/outbound/persistence/postgres/mission_repository_adapter.py:81-102 | After a save the mission's rows are exactly the tree's, whatever was stored and whatever the cascade took |
| StageTable.SaveThenGet | leitstand_backend/adapters/outbound/persistence/postgres/mission_repository_adapter.py:81-119 | Reading after saving returns the saved tree, however the rows are listed |
| StageTable.SaveIsLocal | leitstand_backend/adapters/outbound/persistence/postgres/mission_repository_adapter.py:81-102 | A save leaves every other mission's rows alone |
| StageTable.CascadeLeavesNoDangling | leitstand_backend/adapters/outbound/persistence/postgres/models.py:124-148 | The cascade leaves no row without its parent |
| StageTable.StoresMeansConsistent | leitstand_backend/adapters/outbound/persistence/postgres/models.py:124-148 | Tables that store trees with partitioned ids satisfy the foreign key within the mission and the unique (parent, sequence) |
| StageTable.SaveRefinesUpdate | leitstand_backend/adapters/outbound/persistence/postgres/mission_repository_adapter.py:31-55 | Saving refines updating one mission's tree in a map of trees |
| MissionAuthoring.Authoring.Build | leitstand_backend/application/mission_management_service.py:436-493 | The nested builder with its shared set of seen ids computes the placement function |
| MissionAuthoring.Authoring.BuildOne | leitstand_backend/application/mission_management_service.py:455-490 | One input: claims its id, builds its cleanup, resolves its coverage and carries a stage whole |
| MissionAuthoring.WithIdsDistinct | leitstand_backend/application/mission_management_service.py:436-493 | With fresh minted ids every accepted request has distinct ids at all depths, each the mission's own or minted |
| MissionAuthoring.WithIdsAccepts | leitstand_backend/application/mission_management_service.py:436-493 | A request is accepted if and only if no id is named twice (carried children included), each is the mission's, and each coverage input has a source; the result has the request's shape and order, a carried stage identical; a refusal gives a reason that holds |
| MissionPlanning.ComputePlans | leitstand_backend/application/mission_management_service.py:302-332 | Checks the ids in one walk, then plans each changed coverage input, keyed by its position |
| MissionPlanning.ReplanChangedMeanwhile | leitstand_backend/application/mission_management_service.py:334-350 | Under the lock, plans an input that was skipped against a stage edited meanwhile |
| MissionPlanning.CheckedIff | leitstand_backend/application/mission_management_service.py:302-332 | The check before planning passes if and only if no id is named twice and each one a coverage input names is the mission's coverage stage; a refusal gives the one that fails |
| MissionPlanning.PlannedIffChanged | leitstand_backend/application/mission_management_service.py:302-332 | The planner is asked for exactly the inputs to be planned whose stored stage would not be reproduced, and what it says is kept for each |
| MissionPlanning.PositionsAreDistinct | leitstand_backend/application/mission_management_service.py:414-423 | No two inputs share a position, so a plan is read back by the input it was made for |
| MissionPlanning.ResolvableByPosition | leitstand_backend/application/mission_management_service.py:414-493 | The builder and the walk agree on every input's position |
| MissionPlanning.ReplannedRequest | leitstand_backend/application/mission_management_service.py:119-179 | However the mission, the fields and the robots changed between planning and the lock: each planned input has a plan of this request or a stored stage reproduced as things are now, earlier plans are kept, and only a carried stage can be missing |
| MissionPlanning.PlannedRequestAccepted | leitstand_backend/application/mission_management_service.py:119-179 | If the mission did not change meanwhile, a planned and replanned request is refused only for its ids; if nothing else changed either, replanning adds no plan |
| MissionLibrary.SavedIds | leitstand_backend/application/mission_management_service.py:89-222 | What any edit saves has distinct ids, each the mission's own or never used before |
| MissionLibrary.EditsNeedTheirMission | leitstand_backend/application/mission_management_service.py:89-222 | Creating a mission that is there, or editing one that is not, changes nothing |
| MissionLibrary.ApplyRefines | leitstand_backend/application/mission_management_service.py:89-222 | Each edit on the rows refines the edit on the trees |
| MissionLibrary.RunKeepsIdsApart | leitstand_backend/application/mission_management_service.py:89-222 | Over any run of create, update, generated create, re-plan and delete with fresh ids, stage ids stay distinct within each mission and disjoint across missions, and the rows store exactly those trees |
| MissionLibrary.EveryMissionReadsBack | leitstand_backend/adapters/outbound/persistence/postgres/mission_repository_adapter.py:31-119 | From an empty database, after any run of edits, every mission reads back as last saved and the schema's constraints hold |
| EventBus.EventBus.Subscribe | leitstand_backend/infrastructure/event_bus.py:40-53 | The loop that stops at a full queue leaves the snapshot as the new queue |
| EventBus.EventBus.Unsubscribe | leitstand_backend/infrastructure/event_bus.py:55-61 | Only the named subscription of that prefix stops receiving |
| EventBus.EventBus.Publish | leitstand_backend/infrastructure/event_bus.py:63-77 | Latches if asked and schedules one enqueue for every matching subscriber, no other |
| EventBus.EventBus.Unlatch | leitstand_backend/infrastructure/event_bus.py:79-83 | Forgets exactly the latched topics under the prefix |
| EventBus.EventBus.Enqueue | leitstand_backend/infrastructure/event_bus.py:89-109 | Runs the oldest scheduled enqueue: append, evict the oldest for a latched item, or drop |
| EventBus.MatchesByParts | leitstand_backend/infrastructure/event_bus.py:112-117 | A topic is under a prefix if and only if its path begins with the prefix's whole segments |
| EventBus.PostedIsPublished | leitstand_backend/infrastructure/event_bus.py:55-77 | Until it unsubscribes a subscriber is posted exactly what is published under its prefix, in order; afterwards nothing |
| EventBus.SnapshotIs | leitstand_backend/infrastructure/event_bus.py:40-53 | A new subscriber starts with the latched values under its prefix in the order they were latched, all of them or the first its queue holds |
| EventBus.LatchHoldsNewest | leitstand_backend/infrastructure/event_bus.py:63-87 | A topic holds the value last published with the latch on, unless unlatched since |
| EventBus.LatchKeepsPlace | leitstand_backend/infrastructure/event_bus.py:63-69 | A topic latched again keeps its place among the latched ones |
| EventBus.QueuesStayBounded | leitstand_backend/infrastructure/event_bus.py:40-109 | No queue ever exceeds its bound |
| EventBus.DeliveredInOrder | leitstand_backend/infrastructure/event_bus.py:63-109 | For every interleaving, what a consumer takes and still finds queued is a subsequence of its queue, then what was scheduled, then later matching publishes |
| EventBus.SubscriberSeesInOrder | leitstand_backend/infrastructure/event_bus.py:40-77 | A new subscriber sees a subsequence of its snapshot followed by later matching publishes, in order |
| EventBus.EachLatchedEvictsAtMostOne | leitstand_backend/infrastructure/event_bus.py:89-109 | For every interleaving, the consumer sees its queued items first and in order, all but at most as many as latched postings were enqueued |
| EventBus.DiscreteNeverEvicts | leitstand_backend/infrastructure/event_bus.py:89-109 | While nothing latched comes, nothing queued is evicted |
| EventBus.FreshestGetsThrough | leitstand_backend/infrastructure/event_bus.py:89-109 | A latched posting, once enqueued, was taken or is still queued, unless a later latched one may have evicted it |
| EventBus.NewestLatchedIsLast | leitstand_backend/infrastructure/event_bus.py:89-109 | When everything is enqueued and the newest posting is latched, it is the last the consumer sees |
| CoveragePath.Segments | coverage-planner/app.py:269-298 | The loops compute the split, every slice within bounds, or the error |
| CoveragePath.GroupRuns | coverage-planner/app.py:282-286 | Grouping consecutive states yields maximal runs |
| CoveragePath.RunsAreMaximal | coverage-planner/app.py:282-286 | The runs are of one section each, neighbours differ, and together they are the states |
| CoveragePath.MaximalRunsAreUnique | coverage-planner/app.py:282-286 | There is no other such split |
| CoveragePath.SplitIff | coverage-planner/app.py:263-288 | A path is split if and only if it has states and each is tagged a swath or a turn |
| CoveragePath.SwathsAreTagged | coverage-planner/app.py:263-286 | A segment is a swath if and only if all the states of its run are tagged swath, and a turn if and only if all are tagged turn |
| CoveragePath.SegmentsFollowRuns | coverage-planner/app.py:288-298 | One segment per run, of its kind and length, each starting with exactly the waypoint the one before ended on |
| CoveragePath.SegmentsJoinToRoute | coverage-planner/app.py:288-298 | Joining the segments with each repeat dropped gives the whole route |
| CoveragePath.SegmentsAreRunsIff | coverage-planner/app.py:274-298 | Each segment holds exactly its own run's waypoints if and only if the planner repeated every junction |
| Boundary.DistanceIsToNearestPoint | coverage-planner/app.py:377-388 | The clamped projection is the nearest point of the segment, degenerate segments included |
| Boundary.ComputeInside | coverage-planner/app.py:367-374 | The toggling loop computes the parity of crossings |
| Boundary.MaxExcursion | coverage-planner/app.py:344-358 | The nested loops compute the excursion, or fail on a ring without vertices |
| Boundary.ExcursionIsGreatestDistance | coverage-planner/app.py:344-388 | The excursion is the greatest, over the points outside, of the distance to the nearest boundary point; it fails if and only if there are points and no vertices |
| Boundary.RewritingChangesNothing | coverage-planner/app.py:361-388 | Start vertex, direction and a repeated closing point change neither the inside nor the excursion |
| Boundary.WritingsOfOneRingAgree | coverage-planner/app.py:361-388 | The same for any sequence of such rewritings |
| Boundary.BesideIsOutside | coverage-planner/app.py:367-374 | A point left of, right of, below or above every vertex is never inside, whatever the ring |
| Boundary.RingStraddlesEvenly | coverage-planner/app.py:367-374 | A ring crosses any level an even number of times |
| Boundary.InsideRectangleIff | coverage-planner/app.py:367-374 | For an upright rectangle the crossing test is the half-open range test |
| Ways.WaySwapsSidesIff | coverage-planner/app.py:367-374 | For a ring of any shape and any way of segments that cut the edges they meet: its ends are on different sides if and only if the way cuts an odd number of edges |
| Ways.AnyWayOutTells | coverage-planner/app.py:367-374 | The crossing test does not depend on its ray: a point is inside if and only if any such way to a point beside the ring cuts an odd number of edges |
| Ways.SegmentKeepsSide | coverage-planner/app.py:367-374 | Two points joined by a segment that meets no point of the boundary are both inside or both outside |
| MissionWire.RoundTripIff | leitstand_backend/adapters/outbound/messaging/zenoh/mission/mission_mappers.py:63-115 | Decoding an encoded run returns its id and plan, empty cleanup lists made absent, if and only if no coverage stage is below top level, each top-level one's own provenance is supplied, and the payloads are ones the models allow |
| MissionWire.StagesSaid | leitstand_backend/adapters/outbound/messaging/zenoh/mission/mission_mappers.py:63-116 | Each stage goes out in its place as what it is: its canonical id, its kind, its cleanup count, and its waypoints or segments with frame, coordinates and kind unchanged |
| MissionWire.WaypointDecodesIff | leitstand_backend/adapters/outbound/messaging/zenoh/mission/mission_mappers.py:158-176 | A waypoint is refused if and only if its degrees are out of range, its site is not an id, or it states no frame |
| MissionWire.NestedCoverageIsRefused | leitstand_backend/adapters/outbound/messaging/zenoh/mission/mission_mappers.py:179-184 | Whatever provenance is supplied, a plan with coverage below top level is refused |
| MissionWire.MismatchIsRefused | leitstand_backend/adapters/outbound/messaging/zenoh/mission/mission_mappers.py:179-219 | A kind that does not match its payload, at any depth, is refused |
| MissionWire.AcceptedRunReencodes | leitstand_backend/adapters/outbound/messaging/zenoh/mission/mission_mappers.py:158-232 | An accepted message re-encodes to itself with its ids in canonical spelling, so it says nothing it was not decoded to |
| MissionWire.StagesReturnIff | leitstand_backend/adapters/outbound/messaging/zenoh/mission/mission_mappers.py:80-232 | The round trip of a list of stages under any supplied provenance |
| ToolLedger.ToolCallStore.ListByProviderId | leitstand_backend/adapters/outbound/persistence/postgres/tool_call_repository_adapter.py:50-62 | Lists exactly the user's calls under the provider's id, newest first |
| ToolLedger.ToolCallStore.SettleToolCall | leitstand_backend/adapters/outbound/persistence/postgres/tool_call_repository_adapter.py:64-112 | Moves a call out of awaiting and appends its decision, or changes nothing |
| ToolLedger.ToolCallStore.RecordToolCallOutcome | leitstand_backend/adapters/outbound/persistence/postgres/tool_call_repository_adapter.py:114-164 | Closes an approved call and appends a failure's audit, or changes nothing |
| ToolLedger.RecordDecision | leitstand_backend/application/tool_call_approval_service.py:54-88 | Settles the newest proposal under the key if it still waits, and returns it; otherwise nothing |
| ToolLedger.AuditMatchesLedger | leitstand_backend/adapters/outbound/persistence/postgres/tool_call_repository_adapter.py:64-164 | Over every run, racing decisions included, each call's audit is exactly what its status calls for: one decision once settled, one failure once failed |
| ToolLedger.CallsOnlyMoveForward | leitstand_backend/adapters/outbound/persistence/postgres/tool_call_repository_adapter.py:64-164 | A decision is made once and kept, an outcome comes once and only to an approved call, and no audit row is withdrawn |
| ToolLedger.DecisionSettlesNewest | leitstand_backend/application/tool_call_approval_service.py:66-88 | A decision changes a call if and only if it is the newest twin and still waits; an approval leaves it APPROVED and a denial DENIED, signed with who and when |
| ToolLedger.OutcomeClosesApproved | leitstand_backend/adapters/outbound/persistence/postgres/tool_call_repository_adapter.py:114-164 | An outcome changes exactly the call it is of, and only if that was approved: succeeded or failed, with its result or error |
| ToolLedger.OlderTwinSettledIffStraddled | leitstand_backend/application/tool_call_approval_service.py:66-88 | Over whole runs, once a newer twin was proposed an older one left waiting is settled if and only if some decision looked it up before the newer proposal and is written after it |
| ToolLedger.OlderTwinSettledIff | leitstand_backend/adapters/outbound/persistence/postgres/tool_call_repository_adapter.py:79-98 | From any state with a newer twin, a waiting older one is settled if and only if a decision that had looked it up is written |
| ToolLedger.OlderTwinIsNeverSettled | leitstand_backend/application/tool_call_approval_service.py:66-88 | When every decision is one step, an older twin left waiting is never settled once a newer one exists |
| ToolLedger.LookUp | leitstand_backend/application/tool_call_approval_service.py:66-82 | The lookup half of a decision finds the newest proposal under the key, if it still waits |
| ToolLedger.SplitDecisionSettlesOlderTwin | leitstand_backend/application/tool_call_approval_service.py:71-88 | The race between lookup and write in which an older twin is settled |
| ToolLedger.DecisionIsOnce | leitstand_backend/application/tool_call_approval_service.py:54-88 | A second decision on a key changes nothing until it is proposed again, an approve after a deny included |
| ToolLedger.DecisionsAreScoped | leitstand_backend/application/tool_call_approval_service.py:21-24 | A decision never touches another user's calls |

## Left out

- HTTP, WebSocket, Zenoh sessions, settings, migrations and the language-model wiring: input and output only.
- Published events, audit entries of runs and missions, notes, free-text reasons (`detail`), `at` and `updated_at` columns: nothing modelled depends on them.
- The order of the stage rows inside a returned view, and the waiting view of a run that has not started: rows are a map here.
- Site anchors, factsheet, field boundary and site checks before a start: one flag, `fits`, stands for their verdict.
- The checks on a mission's shape (one frame per stage, known sites, one site) and `referenced_site_ids`: each only refuses a request.
- Archiving a mission that has runs instead of deleting it, restoring it, and assigning or unassigning its default robot: single-field updates.
- The mission row's foreign key to sites and its `kind` column: carried by the stage's own constructor.
- RunWorld.After: the failure inside a step that the online handler logs and then commits is not an event.
- MissionLibrary.RunKeepsIdsApart: a re-planned stage comes without cleanup stages, as the planner returns it, so re-planning drops the stored ones.
- MissionAuthoring.WithIdsAccepts: the ids inside an authoring error are left out; only which error it is stays.
- MissionPlanning.ComputePlans: what the planner computes and when two plans count as unchanged are parameters.
- EventBus.EventBus.Publish: a subscriber whose loop is closed is not modelled; its postings would be dropped.
- CoveragePath.Segments: the change of coordinates and of heading is the waypoint a state already carries.
- Boundary.MaxExcursion: floating-point rounding and the square root are not modelled.
- MissionWire.RoundTripIff: the text of an id is only its spelling (canonical, other, not an id), and protobuf bytes are datatypes with explicit presence.
- ToolLedger.RecordDecision: arguments, results and errors are opaque texts compared for equality.
- The fields of robots, the weather service, and the geometry of planning itself: other programs.
