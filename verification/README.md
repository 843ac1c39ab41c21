# Operational safety of the Zeler data operations, modelled in Dafny

This project models the control logic with which the Zeler platform's operators run risky
maintenance: a budgeted history pilot, the replay and archive of a dead-letter queue, the
DEVOLUCIONES quota runs and their freshness markers, the acceptance of timing campaigns, the
TERM-only pause of containers, and the guard that watches a running pilot. Each of these is a
protocol whose point is that something can never happen: a budget overspent, a message published
twice, a message lost, a marker published too early, a container started out of turn. The proofs
are about every run of the protocol, with failures, crashes and cancellations at every step where
the model lets them happen.

Check everything with `dafny verify dfyconfig.toml`.

## The modules

| file | models |
|---|---|
| `Prelude.dfy` | options, results, minimum and maximum |
| `PilotPlan.dfy` | the pilot's budget document, its daily maintenance record, and preparation |
| `PilotControl.dfy` | receipts, activation, the checks on caps, extending the deadline once or twice |
| `PilotResume.dfy` | running on after a pause, by the five ways in which receipts lead to the plan |
| `PilotTerms.dfy` | on which terms the plan is charged, prepared, activated, resumed and extended, in plain fields and numbers |
| `PilotRun.dfy` | the compare-and-swap that writes an action, charges, and whole runs |
| `ReplayLedger.dfy` | the hash-chained ledger, the replay gate, rollback |
| `ReplayProtocol.dfy` | the documented replay order with crashes and reloads |
| `ReplayProcesses.dfy` | several processes in that order over one ledger |
| `DlqClassification.dfy` | the fail-closed classes of dead-lettered messages |
| `ArchiveDecision.dfy` | when a message may be archived, and the coverage that allows it |
| `ArchiveScan.dfy` | the hold-and-release scan of the queue |
| `QuotaWindows.dfy` | ten-day windows and counting over them |
| `QuotaRun.dfy` | an authorised quota run, window by window, up to its marker |
| `FreshnessMarker.dfy` | the range a marker claims, merged request by request |
| `CompleteCounts.dfy` | database filters, presence guards, complete against persisted counts |
| `NearestRank.dfy` | the nearest-rank 95th percentile |
| `CampaignState.dfy` | the durable campaign record and the gate that reads it |
| `TimingCampaign.dfy` | evaluating a list of runs, and its agreement with the record |
| `PauseProtocol.dfy` | write-ahead journal, TERM, recovery, guard |
| `ShutdownLog.dfy` | timestamps of section 5.6 of RFC 3339 and the shutdown scan |
| `MonitorGuard.dfy` | the pilot monitor's check, and chains of checks |
| `SnapshotRuntime.dfy` | the snapshot run and its report on every way out |
| `SnapshotCoordinator.dfy` | the snapshot's state machine and its records |

## How it is modelled

Objects that the code updates in place are classes with the same fields, and their methods are
proved against functions or predicates about those fields: the campaign store, the ledger, the
brokers, the quota run, the marker store, the plan store, the snapshot coordinator and the pause
operator. Pure checks are functions. Digests are function parameters; where a property needs it,
a lemma demands that distinct contents have distinct digests. Time is an integer, and a clock is
an input of every call that reads it. What other processes, disks, brokers and containers do is an
input too: fault sets by call number, a document written by somebody else, or an arbitrary answer.

## Main results

- `PilotRun.RunsStayWithinGrants` and `PreparedRunsInNumbers`: no interleaving of control actions and
  charges spends more than one preparation grants. `PilotRun.NothingChargedWhilePaused`: from a pause
  to the next activation or resume nothing is charged.
- `PilotTerms.PreparesOnTerms`, `ActivatesOnTerms`, `ResumesOnTerms`, `ExtendsOnTerms` and
  `ExtendsAgainOnTerms`: exactly when each action passes, for each of the five routes of receipts.
- `PilotPlan.PreparingAgainOnlyPauses` and `PreparedCapsAreLargest`: preparation is idempotent over
  time and takes no more than it must. `PilotControl.ActivatesIff` and
  `PilotResume.ResumesABoundPlan` say which plan can run.
- `PilotResume.ExtensionIsHonoured` and `SecondExtensionIsHonoured`: the receipt of an extension lets
  the resume it is written for succeed, until exactly the approved deadline.
- `PilotRun.PlanStore.ControlPilot`: writing by compare-and-swap loses no other write, and an action
  whose checks pass fails only by interference.
- `ReplayProtocol.NoUnreconciledRepublish` with `ReconcilingInFlightRepublishes`: when no message is
  published twice without a reconciliation, and that the condition cannot be spared.
- `ReplayProcesses.CarefulProcessesSeparate` with `OverlookingRepublishes`: the same for any number of
  processes over one ledger.
- `ReplayLedger.SameHeadSameHistory` and `RollbackRun`: the hash chain commits to the history, and a
  rollback accounts for every item.
- `ArchiveScan.RunArchive`: nothing is removed unrecorded or unauthorised, the queue keeps its order, and
  when it raises.
- `SnapshotRuntime.RunSnapshot` and `SnapshotCoordinator.Coordinator.Run`: what was drawn is handed
  back before the close, and which queues, limits and faults lead to success.
- `QuotaRun.QuotaRun.Advance`, `WindowProofsSuffice` and `QuotaWindows.OneTiling`: windows complete in
  order and apart, and a marker means that proved windows tile its range.
- `FreshnessMarker.MarkerStore.Write` and `EveryOrderClaimsAllIff`: a claim is the union of what was
  merged, and when the order of the requests matters to it.
- `CompleteCounts.GuardsNarrowIff`, `CompleteIff` and `CompleteWithinPersisted`.
- `CampaignState.RunsKeepInv`, `LatestAreOnFile`, `LoadsUnlessOverflow` and `GateIff`, and
  `TimingCampaign.EvaluationMatchesRecord`: two implementations of acceptance agree.
- `PauseProtocol.Operator.Pause`, `Resume` and `Guard`, and `ShutdownLog.ApiShutdownComplete`.
- `MonitorGuard.PassesIff`, `ChainIsNoWorse` and `DebtLastsTwoChecks`.

The other rows below support these; some of them, such as `DlqClassification.ReplayFailsClosed`,
`PilotResume.ResumesOnlyReadyPlans` and `PilotControl.ExtensionStaysToday`, state what one check
demands.

## What the proofs found

These are properties one would expect that do not hold, each with the exact case.

- A record for a displaced run-ID campaign that already has 20 durations writes a file that no
  longer loads, and nothing can repair it afterwards (`CampaignState.LoadsUnlessOverflow`,
  `CampaignState.UnreadableIsForever`, `TimingCampaign.DisplacedCampaignBreaksTheFile`).
- An accepted campaign loses its acceptance when any other campaign fills its window, whether that
  one passes or fails (`CampaignState.AcceptanceIsLostIff`).
- A success event does not block a replay for ever, as its documentation says: a later
  reconciliation lifts it (`ReplayLedger.HasBlockingReplayLedgerEvent`).
- Asking the replay gate without a fingerprint overlooks a blocked message exactly when the last
  replay event of any message is a reconciliation (`ReplayLedger.GateOverlooksIff`,
  `ReplayLedger.GateProtectsAllIff`; `ReplayLedger.GateWithoutFingerprintOverlooks` is such a ledger).
- The separation of two publishes needs that nobody declares a message unpublished between its
  reservation and its publish. From every state where somebody does, the documented steps can lead to
  two publishes with nothing between them (`ReplayProtocol.ReconcilingInFlightRepublishes`).
- The ledger calls its reservation a blocker across processes, but it only blocks those that load it
  afterwards, because an append is checked against the memory of its process. Two processes that loaded
  before either reserved can both publish (`ReplayProcesses.TwoLoadersOverlook`,
  `ReplayProcesses.OverlookingRepublishes`). The disk always blocks such a message
  (`ReplayProcesses.ContendedIsBlocked`), so reading it again before reserving, with nobody in between,
  is enough (`ReplayProcesses.ReadingAgainIsCareful`).
- A re-read stamp from the future hides a good earlier stamp, because only the latest one is
  compared (`ArchiveDecision.RereadArchivesIff`; `ArchiveDecision.FutureStampHides` is such a message).
- A cancellation while an archive run releases its held messages leaves without closing the channel and
  without asking for the other releases (`ArchiveScan.RunArchive`).
- The coordinator is documented to go through ABORTING and CLOSED to FAILED on a handled failure. It
  does close the channel, but never passes the stage CLOSED then, and ABORTING only for a drain that
  aborts or a close that fails (`SnapshotCoordinator.FollowedEnds`).
- A marker request that does not touch the claimed range is dropped, so the same requests can claim
  less in another order. Every order claims everything exactly when, from each request, the requests
  it touches span all of them (`FreshnessMarker.EveryOrderClaimsAllIff`), and every order merges every
  request exactly when any two of them touch (`FreshnessMarker.EveryOrderMergesIff`);
  `FreshnessMarker.OrderOfRequestsMatters` is a failing order.
- A presence guard on a field that carries a plain value widens the filter
  (`CompleteCounts.GuardsNarrowIff`); on a map of operators it never does, `$exists` and `$ne`
  included. None of the complete counts guards such a field, so there the guards only narrow
  (`CompleteCounts.CompleteIsPersisted`).
- A plan whose caps are the prepared ones can only resume if every source had spent nothing before
  its preparation or is capped at nothing, because the receipt's remaining amounts are compared with
  absolute caps (`PilotControl.ResumesOnlyTheFreshPilot`).
- A cancellation during the nacks that follow a failed snapshot leaves without a report and without
  closing: exactly when the drawing breaks off, by a draw that raises or an unreadable message, and the
  cancellation reaches one of the nacks of what was drawn (`SnapshotRuntime.RunSnapshot`).
- The verdict and the outcome on one line of a snapshot report are taken in different orders, and
  speak of one message on every line exactly when the messages were drawn in ascending tag order
  (`SnapshotRuntime.LinesMatchIffAscending`; `SnapshotRuntime.DescendingTagsCross` is a pair that is
  not). A broker that numbers the deliveries of one channel in order, as RabbitMQ does, draws them in
  that order, and a run draws on one channel; nothing in the run checks it.

One difference is only between two pieces of code and cannot be met: a range longer than ten days by
less than a day would be cut into windows by the quota run but kept whole by the reconciliation. The
reconciliation's dates only give whole days, and those it cuts the same way (`QuotaWindows.DateRange`,
`QuotaWindows.ChunkRanges`).

## Model

| member | source | states |
|---|---|---|
| PilotPlan.PrepareTightens | infra/operations/zelerdata_history_pilot.py:116-176 | a successful preparation leaves every budget, limit, allowance and the deadline within one grant of what was spent |
| PilotPlan.PrepareRaisesNothing | infra/operations/zelerdata_history_pilot.py:116-187 | preparing raises no cap, moves no counter and never moves an existing deadline back |
| PilotPlan.PreparedCapsAreLargest | infra/operations/zelerdata_history_pilot.py:144-176 | among caps within one grant that raise nothing, the prepared ones are the largest |
| PilotPlan.FreshPlansGetTheWholeGrant | infra/operations/zelerdata_history_pilot.py:116-176 | a plan never prepared and with nothing spent is granted in full at any time of day |
| PilotPlan.PreparingAgainOnlyPauses | infra/operations/zelerdata_history_pilot.py:116-187 | preparation is idempotent over time: within the window, and whatever was spent, preparing again changes only the state |
| PilotPlan.LeftAloneIsTight | infra/operations/zelerdata_history_pilot.py:254-267 | only a plan whose caps are already within one grant is left alone by a preparation |
| PilotPlan.CapsTightenMaintenance | infra/operations/zelerdata_history_pilot.py:91-113 | the daily allowance is within its grant of what the execution day spent, with a pending rollover counted as nothing spent |
| PilotControl.ActivatesIff | infra/operations/zelerdata_history_pilot.py:214-268 | a tight plan activates exactly when the pinned receipt is that of its own preparation and window, limit and lease allow it |
| PilotControl.ActivatesOnlyTight | infra/operations/zelerdata_history_pilot.py:254-267 | relaxed limits and a wider scope cannot be activated, whatever the receipt says |
| PilotControl.ActivatesThePreparedPlan | infra/operations/zelerdata_history_pilot.py:223-247 | the activated plan is the very plan the receipt's preparation resulted in |
| PilotResume.ResumesABoundPlan | infra/operations/zelerdata_history_pilot.py:296-412 | by every route a resumed plan is named whole by the latest pause, or by the extension since it, and then the pause names the plan that was extended; its deadline is today |
| PilotResume.ResumesOnlyReadyPlans | infra/operations/zelerdata_history_pilot.py:370-459 | by every route only a paused, eligible, unleased plan inside its window resumes, with caps within what the preparation left and the grants |
| PilotResume.RepausedIsBound | infra/operations/zelerdata_history_pilot.py:655-758 | after a pause of an extended plan that ran on, the pause names the plan and the end is on the execution day |
| PilotResume.ChainedIsBound | infra/operations/zelerdata_history_pilot.py:1037-1090 | after two extensions, the second one's receipt names the plan and the pause names the same plan with the first one's deadline |
| PilotResume.ChainRepausedIsBound | infra/operations/zelerdata_history_pilot.py:985-1036 | after a pause of a plan extended twice, the pause names the plan and the end is on the execution day |
| PilotControl.ResumesOnlyTheFreshPilot | infra/operations/zelerdata_history_pilot.py:414-435 | once caps are prepared, the attempts check passes exactly when every source started from nothing or is capped at nothing |
| PilotControl.PreparedCreditWithinGrants | infra/operations/zelerdata_history_pilot.py:190-211 | every preparation can state its credit, and the credit is within the grants |
| PilotControl.ExtensionStaysToday | infra/operations/zelerdata_history_pilot.py:540-607 | a first extension moves the deadline forward, at most two hours past its authorisation, within the execution day |
| PilotResume.ExtensionIsHonoured | infra/operations/zelerdata_history_pilot.py:593-652 | until the approved deadline the receipt an extension leaves leads a resume to exactly that deadline, and the extended plan does run again |
| PilotControl.ExtensionCanBeParent | infra/operations/zelerdata_history_pilot.py:821-880 | the receipt of a first extension can carry a second one after any later pause on the same day |
| PilotResume.SecondExtensionIsHonoured | infra/operations/zelerdata_history_pilot.py:945-1090 | the same for the receipt of a second extension, every check of the chain and of the resume included |
| PilotControl.ChainStaysToday | infra/operations/zelerdata_history_pilot.py:883-962 | a second extension moves the deadline forward, at most five hours past its authorisation, within the execution day |
| PilotControl.ChainHasTwoLinks | infra/operations/zelerdata_history_pilot.py:821-962 | after a second extension its parent can never carry another one |
| PilotRun.PlanStore.constructor | infra/operations/zelerdata_history_pilot.py:1118-1122 | the store holds the one plan document |
| PilotRun.PlanStore.CompareAndSwap | infra/operations/zelerdata_history_pilot.py:1207-1215 | the document is replaced only if the whole of it is what was read |
| PilotRun.PlanStore.ControlPilot | infra/operations/zelerdata_history_pilot.py:1117-1237 | an action writes exactly its patch onto the plan it decided about and loses no other write; a pause leaves the plan as it was but paused; an action succeeds exactly when its checks pass and, if it applies, nobody interferes; its receipt says what was applied and read back |
| PilotRun.DecidedPlan | infra/operations/zelerdata_history_pilot.py:1123-1203 | what each action makes of the plan: paused by a preparation or a pause, active by an activation or a resume of a paused plan, and a later deadline today by an extension |
| PilotRun.PauseDecidesIff | infra/operations/zelerdata_history_pilot.py:1142-1145 | a pause needs no receipt, window, lease or caps: it passes for every plan of the identity and execution |
| PilotRun.OnlyStartsStart | infra/operations/zelerdata_history_pilot.py:1117-1237 | only an activation or a resume sets a paused plan running, and a paused plan cannot be charged |
| PilotRun.NothingChargedWhilePaused | infra/operations/zelerdata_history_pilot.py:1117-1237 | from a pause to the next activation or resume nothing is charged, whatever else happens |
| PilotRun.DecidedCanState | infra/operations/zelerdata_history_pilot.py:1205-1237 | whatever an action decides, its receipt can state the credit, so nothing is left to fail after the write but interference |
| PilotRun.DecidedPatch | infra/operations/zelerdata_history_pilot.py:1123-1203 | an action changes caps only by preparing and the deadline only forward within the day |
| PilotRun.InitialChargeKeeps | modules/sheets/src/zeler_sheets/history_onboarding.py:251-291 | an initial charge keeps every cap within one grant |
| PilotRun.RolloverKeeps | modules/sheets/src/zeler_sheets/history_onboarding.py:362-376 | the daily rollover keeps every cap within one grant |
| PilotRun.MaintenanceChargeKeeps | modules/sheets/src/zeler_sheets/history_onboarding.py:377-412 | a maintenance charge keeps every cap within one grant |
| PilotRun.NextKeeps | infra/operations/zelerdata_history_pilot.py:1117-1237 | no control action, charge or outside touch raises a cap, widens the scope or moves the execution day |
| PilotRun.RunsStayWithinGrants | infra/operations/zelerdata_history_pilot.py:116-176 | over every run of actions and charges the counters record every charge, no cap rises, and no count exceeds its grant |
| PilotRun.PreparedRunsStayWithinGrants | infra/operations/zelerdata_history_pilot.py:116-187 | after any preparation, over every run: no cap rises, no count exceeds its grant, full withdrawals are never charged, and the deadline stays on the execution day |
| PilotRun.PreparedRunsInNumbers | infra/operations/zelerdata_history_pilot.py:116-187 | the same in numbers: 800, 150, 250, 300 and 500 attempts of the five sources, 2000 in total, 2500 with maintenance, 500 of maintenance and 300 of a source |
| PilotRun.ChargesSplitBySource | modules/sheets/src/zeler_sheets/history_onboarding.py:251-412 | all charges of a run are charges of the five initial sources |
| PilotRun.PreparedPlanActivates | infra/operations/zelerdata_history_pilot.py:214-268 | a prepared plan nobody changed activates at any later instant of its window |
| PilotTerms.InitialChargeIff | modules/sheets/src/zeler_sheets/history_onboarding.py:239-291 | an initial attempt is charged exactly to an active, eligible plan in its window and limit, with budget left for its source and in total, and counts once each |
| PilotTerms.MaintenanceChargeIff | modules/sheets/src/zeler_sheets/history_onboarding.py:377-412 | a maintenance attempt is charged exactly on the day of the counters and within both daily allowances, and counts once each |
| PilotTerms.RolloverIff | modules/sheets/src/zeler_sheets/history_onboarding.py:362-376 | the daily counters are zeroed exactly when they are not of this day |
| PilotTerms.RunsIff | core/src/zeler_platform_core/history_onboarding.py:284-306 | the deadline, the day and the limit of attempts that every charge and action obeys, and the lease |
| PilotTerms.PreparesOnTerms | infra/operations/zelerdata_history_pilot.py:116-142 | a plan is prepared exactly for its own execution, eligible, today, before its deadline, with a scope of known sources that has one of the five, and readable counters |
| PilotTerms.PreparedInNumbers | infra/operations/zelerdata_history_pilot.py:143-176 | the caps written, in numbers: each the lesser of the old one and what is spent plus its grant, and a deadline of 90 minutes, to midnight, or the old one |
| PilotTerms.ActivatesOnTerms | infra/operations/zelerdata_history_pilot.py:213-268 | a tight plan is activated exactly on the pinned preparation that names it, paused, eligible, today, in its window and limit, and unleased |
| PilotTerms.ResumeCapsIff | infra/operations/zelerdata_history_pilot.py:401-443 | the caps of a plan that runs on fit what its preparation left, in numbers and for each source |
| PilotTerms.CreditIff | infra/operations/zelerdata_history_pilot.py:747-816 | no credit was regained since the extension, and a paused readback in between counted no more |
| PilotTerms.ParentIff | infra/operations/zelerdata_history_pilot.py:819-880 | when a first extension can carry a second one: its receipts, its digests, the order of its times, and its caps |
| PilotTerms.PausedFirstIff | infra/operations/zelerdata_history_pilot.py:495-527 | the plan was paused when a second extension was authorised, or an earlier pause of it is the bound witness under five hours |
| PilotTerms.LeadsIff | infra/operations/zelerdata_history_pilot.py:325-395 | which receipts lead to the plan by each of the five routes, and until when it may run |
| PilotTerms.ResumesOnTerms | infra/operations/zelerdata_history_pilot.py:294-399 | a plan is resumed, by whatever route, exactly on genuine receipts of its execution that lead to it, today, before the end of the route, and with caps that fit |
| PilotTerms.ExtendsOnTerms | infra/operations/zelerdata_history_pilot.py:530-593 | a paused plan is extended exactly by a genuine authority that names its receipts, forward, at most two hours past the authorisation and today |
| PilotTerms.ExtensionStates | infra/operations/zelerdata_history_pilot.py:583-594 | what a first extension writes and states is taken from its authority and the receipts it rests on |
| PilotTerms.ExtendsAgainOnTerms | infra/operations/zelerdata_history_pilot.py:883-962 | a plan is extended a second time exactly on a parent and an authority that hold, at most five hours past the authorisation and today |
| ReplayLedger.AppendOnlyLedger.constructor | infra/operations/sheets_dlq_reconcile.py:547-554 | a new process remembers what the disk holds |
| ReplayLedger.AppendOnlyLedger.Append | infra/operations/sheets_dlq_reconcile.py:555-573 | an event is refused without a write, or persisted before it is remembered; an unconfirmed write is not remembered |
| ReplayLedger.AppendKeepsChain | infra/operations/sheets_dlq_reconcile.py:495-573 | accepted events keep the hash chain unbroken and the numbers rising |
| ReplayLedger.ChainRises | infra/operations/sheets_dlq_reconcile.py:555-568 | sequence numbers rise strictly over the whole ledger |
| ReplayLedger.SameHeadSameHistory | infra/operations/sheets_dlq_reconcile.py:489-537 | two unbroken chains with the same last hash agree on everything hashed |
| ReplayLedger.HasBlockingReplayLedgerEvent | infra/operations/sheets_dlq_reconcile.py:580-600 | history blocks exactly when the last relevant event is a reservation or a success |
| ReplayLedger.BlockedIffUnreconciled | infra/operations/sheets_dlq_reconcile.py:580-600 | history blocks a message exactly while a reservation or success of it has no reconciliation after it |
| ReplayLedger.BlockedWithoutFingerprintIff | infra/operations/sheets_dlq_reconcile.py:580-600 | without a fingerprint, history blocks exactly when there is a replay event and the last one is not a reconciliation |
| ReplayLedger.GateOverlooksIff | infra/operations/sheets_dlq_reconcile.py:436-459 | a blocked message is overlooked without a fingerprint exactly when the last replay event of any message is a reconciliation |
| ReplayLedger.GateProtectsAllIff | infra/operations/sheets_dlq_reconcile.py:436-459 | asking without a fingerprint protects every message exactly when none is blocked or the last replay event is not a reconciliation |
| ReplayLedger.GateWithoutFingerprintOverlooks | infra/operations/sheets_dlq_reconcile.py:436-459 | a ledger that is overlooked, as the exact condition says |
| ReplayLedger.AppendNext | infra/operations/sheets_dlq_reconcile.py:729-748 | the next rollback event is chained to whatever the ledger ends in, exactly when the numbering continues and the write holds |
| ReplayLedger.QuarantineRemaining | infra/operations/sheets_dlq_reconcile.py:719-748 | the loop leaves one event per quarantined item, in order; it stops only for the adapter, the disk or the numbering |
| ReplayLedger.RollbackRun | infra/operations/sheets_dlq_reconcile.py:696-768 | a rollback succeeds exactly when adapter, writes and numbering hold; then it adds quarantined + 1 events and accounts for every item; a failure keeps what came before it |
| ReplayLedger.RollbackContents | infra/operations/sheets_dlq_reconcile.py:729-760 | what a rollback writes of each quarantined item and at its end |
| ReplayProtocol.NextKeepsInv | infra/operations/sheets_dlq_reconcile.py:436-670 | every step keeps: an unreconciled publish is blocked in memory and on disk |
| ReplayProtocol.NoUnreconciledRepublish | infra/operations/sheets_dlq_reconcile.py:436-670 | over every run with crashes and reloads in which none is reconciled in flight, two publishes of a fingerprint have a durable reconciliation between them |
| ReplayProtocol.PublishedWasAuthorised | infra/operations/sheets_dlq_reconcile.py:421-459 | over every run, nothing is published but a replay candidate that passed the gate with no scoped key, no prior success and nothing unreconciled |
| ReplayProtocol.FullOrderSucceeds | infra/operations/sheets_dlq_reconcile.py:421-670 | undisturbed, the documented order publishes once and leaves its reservation and its success on disk |
| ReplayProtocol.SuccessWasConfirmed | infra/operations/sheets_dlq_reconcile.py:634-670 | over every run, a success is recorded only of a message that was published and then confirmed |
| ReplayProtocol.ReconcilingInFlightRepublishes | infra/operations/sheets_dlq_reconcile.py:580-600 | from every state, a reconciliation between a reservation and its publish can be followed by two unseparated publishes |
| ReplayProcesses.CarefulProcessesSeparate | infra/operations/sheets_dlq_reconcile.py:540-670 | over every interleaving of any number of processes, with crashes and reloads, two publishes of a fingerprint have a durable reconciliation between them, as long as no process reserves a message unaware that it is contended and none reconciles a reserved one |
| ReplayProcesses.ContendedIsBlocked | infra/operations/sheets_dlq_reconcile.py:580-600 | a message that may be published, or that another process has reserved, is always blocked on disk |
| ReplayProcesses.ReadingAgainIsCareful | infra/operations/sheets_dlq_reconcile.py:540-670 | reading the disk again before each reservation is enough for any number of processes, as long as none reconciles a reserved message |
| ReplayProcesses.OverlookingRepublishes | infra/operations/sheets_dlq_reconcile.py:555-567 | from every state, such an unaware reservation can be followed by publishes alone that break the separation |
| ReplayProcesses.TwoLoadersOverlook | infra/operations/sheets_dlq_reconcile.py:547-567 | two processes that loaded the ledger before either reserved both pass the gate, and the second one reserves unaware |
| ReplayProcesses.AloneIsCareful | infra/operations/sheets_dlq_reconcile.py:436-670 | one process alone never reserves unaware |
| DlqClassification.ReplayFailsClosed | infra/operations/sheets_dlq_reconcile.py:82-205 | worse evidence never makes a message replayable, adverse evidence forbids it, and no class is both replayed and quarantined |
| DlqClassification.ClassifiesIff | infra/operations/sheets_dlq_reconcile.py:82-205 | a message may be replayed exactly with no adverse evidence and all four prerequisites; it is closed exactly on evidence that it was applied or is terminal |
| ArchiveDecision.ArchiveIsStable | infra/operations/sheets_dlq_archive.py:177-201 | time passing and coverage growing never turn an archive verdict back |
| ArchiveDecision.ArchivesIff | infra/operations/sheets_dlq_archive.py:177-201 | a message is archived exactly for a re-read a quarter of an hour after it and not in the future, for coverage that reaches it, or for its age, and the reason given is the first of these |
| ArchiveDecision.RereadAt | infra/operations/sheets_dlq_archive.py:160-174 | the latest readable stamp of a document, or none |
| ArchiveDecision.RereadArchivesIff | infra/operations/sheets_dlq_archive.py:160-190 | a re-read authorises exactly when a stamp is in the window and none is in the future |
| ArchiveDecision.FutureStampHides | infra/operations/sheets_dlq_archive.py:160-201 | a line read in the window archives its message alone, but not beside a line from the future, until that time comes |
| ArchiveDecision.ReconciledCoverages | infra/operations/sheets_dlq_archive_runtime.py:372-396 | the coverage holds, per seller and model, the latest edge of an eligible row, and nothing else |
| ArchiveDecision.CoverageIgnoresOrder | infra/operations/sheets_dlq_archive_runtime.py:372-396 | coverage depends on which rows there are, not on their order |
| ArchiveDecision.MoreRowsGrow | infra/operations/sheets_dlq_archive_runtime.py:372-396 | more rows only grow the coverage |
| ArchiveScan.Broker.GetOne | infra/operations/sheets_dlq_archive_runtime.py:161-165 | a draw takes the head of the queue |
| ArchiveScan.Broker.NackRequeue | infra/operations/sheets_dlq_archive_runtime.py:211-220 | a requeue returns a message to the head of the queue |
| ArchiveScan.StoreAndAck | infra/operations/sheets_dlq_archive_runtime.py:195-208 | the record is stored before its message is acknowledged |
| ArchiveScan.ScanOne | infra/operations/sheets_dlq_archive_runtime.py:166-208 | one message is counted, decided and held or removed as evidence, policy and faults dictate |
| ArchiveScan.Scan | infra/operations/sheets_dlq_archive_runtime.py:160-208 | the scan's fates, held messages, totals and queue belong together after every message, and how far it goes and how it ends is what policy, limit and faults dictate |
| ArchiveScan.ScanRaisesIff | infra/operations/sheets_dlq_archive_runtime.py:160-208 | a scan raises exactly when one of its turns does and all those before it go on |
| ArchiveScan.Release | infra/operations/sheets_dlq_archive_runtime.py:209-220 | releasing in reverse puts the held messages back in their original order; a cancellation ends it |
| ArchiveScan.RunArchive | infra/operations/sheets_dlq_archive_runtime.py:129-237 | on every exit each acknowledged message was stored first and was authorised by a re-read, coverage or age, and the queue is the held messages in order before the rest; it raises exactly when the scan or the close does or the release is cancelled, and only that leaves the channel open; a report has scanned = archived + retained, counts its reasons and says why it stopped |
| ArchiveScan.OnlyAuthorisedLeave | infra/operations/sheets_dlq_archive_runtime.py:176-208 | whatever a scan archives may leave the queue by the plain conditions on coverage, time and age, and never in a dry run |
| ArchiveScan.DryRunRestoresQueue | infra/operations/sheets_dlq_archive_runtime.py:142-143 | a dry run that releases everything leaves the queue as it found it, exactly when no evidence read was cancelled |
| QuotaWindows.TilingTiles | core/src/zeler_platform_core/devoluciones_runs.py:96-103 | the windows lie end to end from start to end, none empty, only the last one short |
| QuotaWindows.OneTiling | core/src/zeler_platform_core/devoluciones_runs.py:96-103 | there is only one such way to lay the windows |
| QuotaWindows.PartitionWindows | core/src/zeler_platform_core/devoluciones_runs.py:96-103 | the loop lays exactly that tiling |
| QuotaWindows.DateRange | infra/operations/zelerdata_read_model_reconcile.py:1178-1190 | the dates of a reconciliation give the whole days from the first to the last, and nothing when out of order |
| QuotaWindows.ChunkRanges | infra/operations/zelerdata_read_model_reconcile.py:1193-1224 | for whole days the reconciliation's chunks are the same tiling; otherwise they differ exactly between ten and eleven days |
| QuotaWindows.ReachesIff | infra/operations/zelerdata_read_model_reconcile.py:1688-1706 | a number of windows reaches the end exactly when the tiling has no more |
| QuotaWindows.WindowCountsAdd | infra/operations/zelerdata_read_model_reconcile.py:1528-1568 | claim counts over the windows add up to the count over the range they cover |
| QuotaWindows.CountsAre | infra/operations/zelerdata_read_model_reconcile.py:1528-1568 | the counts are how many claims were created in a range, and how many of them are complete |
| QuotaRun.QuotaRun.constructor | core/src/zeler_platform_core/devoluciones_runs.py:144-180 | a run is created authorised, at window zero, with nothing stored |
| QuotaRun.QuotaRun.NextWindow | infra/operations/zelerdata_read_model_reconcile.py:1747-1772 | the first window that is not completed is the next index, with its bounds |
| QuotaRun.QuotaRun.ContiguousWindows | infra/operations/zelerdata_read_model_reconcile.py:1684-1706 | the stored windows are accepted exactly when all are proved and they reach the end |
| QuotaRun.QuotaRun.RunWindow | infra/operations/zelerdata_read_model_reconcile.py:1424-1525 | a window completes exactly when both writes hold and its proof is complete; a bad proof fails the run |
| QuotaRun.CompleteProofIff | infra/operations/zelerdata_read_model_reconcile.py:1773-1786 | a proof is complete exactly if every expected claim is persisted and complete, none is missing, and its fingerprints are there |
| QuotaRun.QuotaRun.Finalize | infra/operations/zelerdata_read_model_reconcile.py:1571-1658 | the marker of the exact range appears exactly when the windows cover it and the readback confirms it |
| QuotaRun.QuotaRun.Advance | infra/operations/devoluciones_quota_advance.py:43-105 | an advancement progresses only if authorised, leased, in progress, before the expiry and after the wait, at both readings of the clock, and then completes at most the next window; a marker means that the proved windows are the tiling of its range; a run fails exactly for a proof that shows too little; otherwise nothing changes |
| QuotaRun.CompletionsSpaced | infra/operations/zelerdata_read_model_reconcile.py:1503-1514 | any two completions are ten minutes apart per window between them |
| QuotaRun.WindowProofsSuffice | infra/operations/zelerdata_read_model_reconcile.py:1528-1568 | if no window's claims changed, the final proof follows from the window proofs |
| QuotaRun.ProvedWindowsTile | infra/operations/zelerdata_read_model_reconcile.py:1684-1706 | proved windows that reach the end are the ten-day tiling of the range, and any further ones are empty |
| FreshnessMarker.MarkerStore.Write | infra/operations/zelerdata_read_model_reconcile.py:2342-2380 | the claim stays exactly the union of what was merged, and is what the requests made claim; a request that does not touch it changes nothing |
| FreshnessMarker.CoverageIff | infra/operations/zelerdata_read_model_reconcile.py:2694-2708 | which fields of a marker bound its range, each with its fallback |
| FreshnessMarker.CanMergeIff | infra/operations/zelerdata_read_model_reconcile.py:2346-2357 | a request merges where no range can be read, and otherwise if that is in order and they overlap or meet |
| FreshnessMarker.MergedIsUnion | infra/operations/zelerdata_read_model_reconcile.py:2671-2692 | ranges that overlap or meet merge into exactly their union |
| FreshnessMarker.ApartIsMoreThanUnion | infra/operations/zelerdata_read_model_reconcile.py:2684-2692 | merging ranges that do neither would claim an instant that no request covered |
| FreshnessMarker.EveryOrderMergesIff | infra/operations/zelerdata_read_model_reconcile.py:2346-2357 | every order of the requests merges every one exactly when any two of them overlap or meet |
| FreshnessMarker.EveryOrderClaimsAllIff | infra/operations/zelerdata_read_model_reconcile.py:2346-2357 | every order of the requests claims all of them exactly when, from each one, those it touches span all |
| FreshnessMarker.OrderOfRequestsMatters | infra/operations/zelerdata_read_model_reconcile.py:2346-2357 | three requests that claim less in another order |
| CompleteCounts.WithPresentFields | infra/operations/zelerdata_read_model_reconcile.py:2992-3003 | the loop guards exactly the named fields, keeping their existing operators |
| CompleteCounts.GuardsNarrowIff | infra/operations/zelerdata_read_model_reconcile.py:2992-3003 | guards only narrow exactly when no guarded field carries a plain value |
| CompleteCounts.CompleteIsPersisted | infra/operations/zelerdata_read_model_reconcile.py:2711-2725 | for every read model and request, a complete document matches the persisted filter |
| CompleteCounts.PersistedIff | infra/operations/zelerdata_read_model_reconcile.py:2963-2990 | the persisted filter of a model matches exactly the seller's documents in its window and with its references |
| CompleteCounts.CompleteIff | infra/operations/zelerdata_read_model_reconcile.py:2711-2960 | a document counts as complete exactly if it is persisted and has the fields, the answer or the productive return that its model asks for |
| CompleteCounts.GuardedIff | infra/operations/zelerdata_read_model_reconcile.py:2992-3003 | guards that the filter does not override ask for present, non-null fields and nothing else |
| CompleteCounts.CountsAre | infra/operations/zelerdata_read_model_reconcile.py:2711-2725 | the counts are numbers of documents |
| CompleteCounts.CompleteWithinPersisted | infra/operations/zelerdata_read_model_reconcile.py:2711-2725 | the complete count never exceeds the persisted count |
| NearestRank.P95BelowIffEnoughBelow | infra/operations/zelerdata_campaign_state.py:74-79 | the percentile is below a limit exactly when ceil(0.95 n) durations are |
| NearestRank.P95IgnoresOrder | infra/operations/zelerdata_campaign_state.py:74-79 | the percentile does not depend on the order |
| NearestRank.TwentyRunsAllowOneSlow | infra/operations/zelerdata_campaign_state.py:74-79 | for twenty runs: below the limit exactly when at most one reaches it |
| CampaignState.CampaignStateStore.Record | infra/operations/zelerdata_campaign_state.py:94-164 | the in-place edits compute exactly the specified function, error cases included |
| CampaignState.AddedIsOnFile | infra/operations/zelerdata_campaign_state.py:136-160 | an added run is on file with the latest before it, and these durations decide: twenty accept the campaign below a percentile of 150 and disqualify it otherwise |
| CampaignState.LatestAreOnFile | infra/operations/zelerdata_campaign_state.py:136-160 | over every run of records a campaign without run IDs has on file the last twenty durations added to it, and one with run IDs all of them |
| CampaignState.VersionTwoIff | infra/operations/zelerdata_campaign_state.py:128-135 | the file is of version two exactly from the first run ID that is added |
| CampaignState.LoadsIff | infra/operations/zelerdata_campaign_state.py:166-207 | which documents can be read, whoever wrote them |
| CampaignState.RecordKeepsInv | infra/operations/zelerdata_campaign_state.py:94-164 | one record keeps the document's invariant, and disqualifications only grow |
| CampaignState.RunsKeepInv | infra/operations/zelerdata_campaign_state.py:94-164 | every document reachable from empty keeps it: accepted is not disqualified, has 20 durations and p95 below 150 |
| CampaignState.LoadsUnlessOverflow | infra/operations/zelerdata_campaign_state.py:138-207 | after a record the file can be read exactly when no full displaced campaign got a new run ID |
| CampaignState.UnreadableIsForever | infra/operations/zelerdata_campaign_state.py:166-207 | an unreadable file never changes again |
| CampaignState.RecordingTwiceIsRecordingOnce | infra/operations/zelerdata_campaign_state.py:94-164 | replaying a sample with a run ID, or a failure, changes nothing |
| CampaignState.AcceptanceIsLostIff | infra/operations/zelerdata_campaign_state.py:104-164 | acceptance is lost exactly by the campaign's own failure or by another campaign filling its window |
| CampaignState.GateIff | infra/operations/zelerdata_campaign_state.py:230-270 | on a reachable readable document the gate passes exactly for the accepted ID, its fingerprints and no run of 180 s |
| CampaignState.GateDemands | infra/operations/zelerdata_campaign_state.py:230-270 | what the gate demands of any document, and what it answers |
| TimingCampaign.TrailingBlockIsMaximal | infra/operations/zelerdata_read_model_reconcile.py:450-506 | the block judged is the longest suffix of one campaign ID |
| TimingCampaign.Scan | infra/operations/zelerdata_read_model_reconcile.py:450-488 | the resetting loop computes the state of the trailing block alone, with the reason of its first fault |
| TimingCampaign.EvaluateTimingCampaign | infra/operations/zelerdata_read_model_reconcile.py:450-506 | the verdict is the one the trailing block deserves |
| TimingCampaign.AcceptedIffAcceptable | infra/operations/zelerdata_read_model_reconcile.py:489-506 | acceptance means 20 or more runs of one campaign and one fingerprint pair, each a success under 180 seconds and at most 208 attempts, and at most one of the last 20 at 150 seconds or more |
| TimingCampaign.EvaluationMatchesRecord | infra/operations/zelerdata_read_model_reconcile.py:450-506 | for one campaign of at most 20 runs the evaluation agrees with recording the runs one by one |
| TimingCampaign.DisplacedCampaignBreaksTheFile | infra/operations/zelerdata_campaign_state.py:138-207 | clean evidence alone leads to a file that cannot be read |
| PauseProtocol.DisciplinedAfter | infra/operations/zelerdata_history_pause.py:110-181 | an allowed event keeps the discipline of the log: TERM right after its journal, which right follows an inspection of the recorded generation, and a start right after one that saw it stopped |
| PauseProtocol.VerifiesIff | infra/operations/zelerdata_history_pause.py:71-81 | the check accepts exactly the recorded container, unharmed, and in its recorded generation where that is asked, and its error says what differs |
| PauseProtocol.Operator.Resume | infra/operations/zelerdata_history_pause.py:156-181 | a start directly follows an inspection that saw the marked, unresumed target stopped with the recorded start time and restart count, and is followed by one that saw it running and by the journal; polling ends; a failure is explained by the last event |
| PauseProtocol.Operator.Deliver | infra/operations/zelerdata_history_pause.py:119-126 | the target is checked and marked on disk before TERM, seen after it, and an API's child gets TERM exactly if it still runs |
| PauseProtocol.Operator.AwaitStop | infra/operations/zelerdata_history_pause.py:127-147 | a stop is only recorded after a graceful exit with the recorded start time and restart count; waiting ends in time |
| PauseProtocol.Operator.Settle | infra/operations/zelerdata_history_pause.py:148-154 | success means every inspection for the settling time saw it stopped in that generation |
| PauseProtocol.Operator.Pause | infra/operations/zelerdata_history_pause.py:110-154 | success means marked and stopped on disk after a graceful exit, and stopped ever since |
| PauseProtocol.Operator.ResumeAll | infra/operations/zelerdata_history_pause.py:399-404 | the recovery loop ends, and true means that every marked target was resumed |
| PauseProtocol.Operator.Guard | infra/operations/zelerdata_history_pause.py:380-404 | the guard returns true only if every marked target was resumed, in memory and on disk, and before its time only if there was one; it gives up only when its time is up |
| PauseProtocol.Operator.PauseAction | infra/operations/zelerdata_history_pause.py:478-487 | success means that the journal on disk has every target marked and stopped and each was seen to exit gracefully and to settle for three seconds; a failure is explained, and every target was then tried once from the last one on |
| PauseProtocol.Operator.ResumeAction | infra/operations/zelerdata_history_pause.py:488-496 | the operator's recovery ends, and true means that every marked target was resumed, in memory and on disk |
| ShutdownLog.RenderedIsParsed | infra/operations/zelerdata_history_pause.py:184-204 | every stamp is read back from its text |
| ShutdownLog.ParsedIsRendered | infra/operations/zelerdata_history_pause.py:184-204 | no other text is read |
| ShutdownLog.ObservedIff | infra/operations/zelerdata_history_pause.py:184-204 | the texts that name an instant are the timestamps of a calendar date, a time of day and a zone within a day |
| ShutdownLog.FractionIsExact | infra/operations/zelerdata_history_pause.py:203-204 | no digit of the fraction is lost |
| ShutdownLog.DecimalIsRead | infra/operations/zelerdata_history_pause.py:203-204 | the digits of a number are read back as that number |
| ShutdownLog.OrderIsKept | infra/operations/zelerdata_history_pause.py:184-204 | instants keep the written order of stamps, in both directions |
| ShutdownLog.ZoneShifts | infra/operations/zelerdata_history_pause.py:196-204 | a zone shifts the instant by exactly its offset |
| ShutdownLog.EastIsEarlier | infra/operations/zelerdata_history_pause.py:196-204 | the same local time is earlier by the offset to the east and later by it to the west |
| ShutdownLog.MonthTable | infra/operations/zelerdata_history_pause.py:196-204 | the days before each month, leap years included |
| ShutdownLog.EpochIsZero | infra/operations/zelerdata_history_pause.py:196-204 | instants count nanoseconds from the start of 1970 |
| ShutdownLog.OrderAcrossZones | infra/operations/zelerdata_history_pause.py:196-204 | across zones instants compare as the seconds of UTC and then the fractions do |
| ShutdownLog.ApiShutdownComplete | infra/operations/zelerdata_history_pause.py:207-226 | true exactly when some finish line of the process is no earlier than the latest shutdown line before it, both since the start |
| MonitorGuard.PassingIsNoWorse | infra/operations/zelerdata_pilot_monitor_guard.py:292-380 | one passing check has balanced books and nothing worse than the snapshot before |
| MonitorGuard.PassesIff | infra/operations/zelerdata_pilot_monitor_guard.py:292-540 | a check passes exactly in time, steady, with spending that only rose, books that balance within the limits, a debt of three or briefly four, a head that only advanced and sources none of which got worse |
| MonitorGuard.JudgedIff | infra/operations/zelerdata_pilot_monitor_guard.py:486-540 | when a source is accepted and which label it gets |
| MonitorGuard.ChainIsNoWorse | infra/operations/zelerdata_pilot_monitor_guard.py:292-540 | over any chain spend only grows, failure counts never rise, and an error record is the first one or cleared |
| MonitorGuard.DebtIsDated | infra/operations/zelerdata_pilot_monitor_guard.py:335-368 | the gap is three or four, and the debt is dated exactly while it is four, under ten seconds ago |
| MonitorGuard.DebtDatesBack | infra/operations/zelerdata_pilot_monitor_guard.py:344-368 | a second check at a gap of four dates the debt to the first one, less than ten seconds before |
| MonitorGuard.DebtLastsTwoChecks | infra/operations/zelerdata_pilot_monitor_guard.py:335-368 | with a moving clock the gap is four on at most two checks in a row |
| SnapshotRuntime.UniversalNack | infra/operations/sheets_dlq_snapshot_runtime.py:176-191 | one nack attempt per delivery in ascending tag order, going on after failures; a cancellation leaves a first part of them |
| SnapshotRuntime.AttemptIff | infra/operations/sheets_dlq_snapshot_runtime.py:176-183 | a failed send is known as such, and any other failure of a nack is an unknown outcome |
| SnapshotRuntime.ByTagFixesAscending | infra/operations/sheets_dlq_snapshot_runtime.py:189 | the sort changes nothing exactly when the tags ascend |
| SnapshotRuntime.ByTagKeeps | infra/operations/sheets_dlq_snapshot_runtime.py:189 | the sort loses and adds no delivery |
| SnapshotRuntime.LineAt | infra/operations/sheets_dlq_snapshot_runtime.py:218-227 | each result has its own line with the verdict at its position, and none reads past the verdicts |
| SnapshotRuntime.DrawAll | infra/operations/sheets_dlq_snapshot_runtime.py:261-268 | the messages drawn are the head of the queue, as many and ended as the limit, the faults and the first unreadable message dictate, each with its verdict but an unreadable last one |
| SnapshotRuntime.SettlesIff | infra/operations/sheets_dlq_snapshot_runtime.py:261-268 | drawing goes to the limit or the end of the queue exactly when no draw goes wrong and every message in reach is readable |
| SnapshotRuntime.ReportFailure | infra/operations/sheets_dlq_snapshot_runtime.py:298-309 | after a failure everything drawn is nacked before the close, unless cancelled meanwhile, and then nothing is closed; the report has a line for every message and one of unknown outcome |
| SnapshotRuntime.ReportCancelled | infra/operations/sheets_dlq_snapshot_runtime.py:270-288 | after a cancellation everything drawn is nacked, again if need be, before the close, and the lines report these nacks |
| SnapshotRuntime.RunSnapshot | infra/operations/sheets_dlq_snapshot_runtime.py:231-320 | what a run draws, does and reports is fixed by the queue, the limit, lock, preflight and faults: each drawn message is nacked before the close, but for a cancellation in the nacks of the failure path, which leaves without report and close; exit code zero exactly when lock, preflight, draws, messages, nacks and close are all clean |
| SnapshotRuntime.RunEnds | infra/operations/sheets_dlq_snapshot_runtime.py:186-320 | a run whose log and report are as its course dictates exits zero exactly when it met nothing wrong, and an orderly one reports its nacks in turn |
| SnapshotRuntime.ExitCodes | infra/operations/sheets_dlq_snapshot_runtime.py:166-174 | the exit codes: seven for a failed close, five for a refusal, six for a failure or a cancellation, and otherwise zero |
| SnapshotRuntime.LinesMatchIffAscending | infra/operations/sheets_dlq_snapshot_runtime.py:186-228 | on every line of an orderly report the verdict is on the message whose nack gave the outcome, exactly when the messages were drawn in ascending tag order |
| SnapshotRuntime.DescendingTagsCross | infra/operations/sheets_dlq_snapshot_runtime.py:186-228 | two messages drawn in descending tag order have each other's outcomes |
| SnapshotCoordinator.Coordinator.Acquire | infra/operations/sheets_dlq_snapshot_adapter.py:205-222 | acquires the head of the queue up to both bounds or its end, exactly when no draw on the way goes wrong |
| SnapshotCoordinator.Coordinator.Drain | infra/operations/sheets_dlq_snapshot_adapter.py:224-261 | nacks in ascending tag order up to the first one that goes wrong, records their outcomes and closes on an abort |
| SnapshotCoordinator.DrainsIff | infra/operations/sheets_dlq_snapshot_adapter.py:224-261 | a drain makes all its nacks exactly when all of them are clean and none is cancelled |
| SnapshotCoordinator.AnswersIff | infra/operations/sheets_dlq_snapshot_adapter.py:273-320 | a run between preflight and close succeeds exactly when no draw, nack or close on the way goes wrong, and then nacks all it drew |
| SnapshotCoordinator.FollowedEnds | infra/operations/sheets_dlq_snapshot_adapter.py:188-320 | a clean run goes through every stage once, from the lock to COMPLETE, and a failed one ends FAILED without ever being closed as a stage |
| SnapshotCoordinator.Coordinator.Run | infra/operations/sheets_dlq_snapshot_adapter.py:273-320 | COMPLETE exactly when lock, preflight, draws, nacks and close are clean, and then the log is the draws, one nack each in tag order and the close, and every stage was passed in order; every other end after the lock is FAILED and closed, with no nack after the first bad one |
| SnapshotCoordinator.EmitSnapshot | infra/operations/sheets_dlq_snapshot_adapter.py:415-460 | a report is emitted exactly for a clean run over readable messages, and pairs each message with the outcome of its own nack |

## Left out

- MongoDB, RabbitMQ, Docker, files, HTTP and argument parsing: their results are inputs, fault sets or arbitrary answers.
- SHA-256, JSON and BSON: digests are function parameters; an unreadable or oversized receipt and one with the wrong pin are the same error here, and the 64-digit form of a pin is not checked.
- Error codes: an operation fails for the modelled reason; where the source reports the first of several bad values inside one loop or comparison, the model may name another of them.
- PilotPlan.Prepare: a counter missing from the document is read as zero, and a missing attempt limit as unlimited, as the source does; other ill-typed values are negative integers here.
- PilotRun.RunsStayWithinGrants: charges are those of the acquisition workers' two charge paths; other writers of the plan may only touch eligibility, the lease and the sent counter.
- NearestRank.P95BelowIffEnoughBelow: the rank is exact; the source multiplies by a floating 0.95, which agrees for the window of 20 that both callers use.
- ReplayProtocol.NoUnreconciledRepublish: steps follow the documented order, in one process; a reconciliation in flight is excluded, which `ReconcilingInFlightRepublishes` shows to be needed. `ReplayProcesses` has several processes.
- ReplayProcesses.CarefulProcessesSeparate: a store that refuses a second event with the same ID shows as a write that is lost.
- ArchiveScan.RunArchive: counts by event type and month, which are the same counter over other keys, and the record's fields; messages still unacknowledged at the close come back to the queue, at a place that is the broker's choice.
- ArchiveDecision.RereadArchivesIff: finding the document to re-read is an input.
- QuotaRun.QuotaRun.Advance: the lease makes advancements exclusive, so guarded writes are single steps; expiry of the lease shows as a write that raises. The certificate published in active coverage mode is left out.
- CompleteCounts.GuardsNarrowIff: paths are independent of each other, an operator map is not empty, and document-by-document completeness is an input.
- PauseProtocol.Operator.PauseAction: how long each recovery polled is in the contract of `Resume` only.
- PauseProtocol.Operator.Guard: reading the journal always succeeds, and the operator lock is not modelled; other processes may write the journal until the last read.
- ShutdownLog.ParsedIsRendered: only ASCII digits are digits; log messages are already recognised as one of three kinds.
- MonitorGuard.Classify: the additive mode only; scope, binding, cap, lease, cursor and checkpoint comparisons are one flag of the snapshot, and stop reasons may come in another order.
- SnapshotRuntime.RunSnapshot: a cancellation that arrives while the broker is being closed, and one inside the shielded clean-up.
- Report rendering, sanitising, exit-code tables, environment checks, preflight, readiness, decommissioning, seeding and rollout gates: one-branch facts.
