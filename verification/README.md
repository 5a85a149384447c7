# Verified models of the Brasaland services

Dafny models of six components of the repository, with proofs of what they guarantee over whole runs.
`dafny verify dfyconfig.toml` checks everything.

| files | component |
|---|---|
| `RfpLifecycle`, `RfpArbitration`, `RfpThread`, `RfpProtocol`, `RfpDatabase` | RFP approval: status machine, arbitration rules, department threads, the three tasks and the two decision calls; `RfpDatabase` is the stored state as a class |
| `RfpInvariant`, `RfpTaskProofs`, `RfpDecisionProofs`, `RfpTheorems`, `RfpProgress`, `RfpOutcomes` | the invariant of that protocol and its consequences over all runs |
| `RfpTaskEffects`, `RfpEffects`, `RfpPauses` | what each task and each decision leaves in rows, pauses, record and document, field by field |
| `RfpRedelivery`, `RfpSoundness`, `RfpPreparation`, `RfpExactSafety` | the same protocol when a redelivered intake may change the needed departments at any time: what still holds, and exactly when a finished ticket is sound |
| `JobRuns`, `JobClaims` | the nightly job lock: the statements as a class with what each writes, and any number of interleaved workers |
| `KpiEvents`, `KpiWaste`, `KpiAlerts`, `KpiReport`, `KpiTransform`, `KpiExtract`, `Folds` | the weekly KPI transform, what its figures count (`KpiReport`), and the filter of its extract query |
| `StockQuery`, `StockLedger`, `StockRace` | the inventory ledger: the stock query, the order endpoints, interleaved transactions |
| `AgentLedger`, `AgentMemory`, `AgentSupport`, `AgentTheorems`, `AgentRuns`, `AgentConsolidation`, `AgentEffects` | the support agent's guardrail ledger and confirmation-gated memory; `AgentEffects` says what each node leaves |
| `RefreshTokens`, `TokenEffects`, `TokenRuns`, `RotationRace` | refresh-token rotation and password reset, one request at a time and with the two statements of a rotation interleaved |
| `MetadataFence`, `FenceContents` | the fenced metadata block of the draft prompt: where it ends, and what it contains |
| `Chunking` | markdown chunking with its fallbacks |

How the models are built. A component that changes state is a class whose methods follow the source's
statements; each method is proved to compute a function of the old state, and the theorems are about that
function, over sequences of steps of any length and order. What such a function writes is stated a second
time without it, on the fields of the rows and records and with the source's constants written out, for every
input (`RfpTaskEffects`, `RfpEffects`, `RfpArbitration.Follows`, `JobRuns.ClosesRow`, `KpiReport`,
`StockLedger.Justified`, `AgentEffects`, `TokenEffects`, `FenceContents`). What the program cannot decide (language-model
output, regular expressions, clocks, outages, row order of a query, interleaving) is a parameter or a step
chosen freely.

The RFP state is one ticket. `outage` counts the commits that succeed before the database fails, so every
crash point of a task is covered; a task may be delivered any number of times, because the workers
acknowledge late (`services/rfp/celery_app.py:45`). A redelivered intake can come with other departments than
the first one. `ValidRun` allows that in every status; `HarmlessRun` is the special case in which the needed
departments stay the same once rows exist, and there the stronger invariant `RfpInvariant.Inv` holds.

## Findings

These are stated as lemmas; the models keep the code's behaviour.

- The intake task writes metadata without looking at the status. Redelivered during approval it can lead to a
  `done` ticket that is not sound (a needed department without a section, or without the CEO approval its
  record requires) if and only if it adds a department while the ticket is done or its CEO gate is open: the
  CEO's approval finishes the ticket without looking at the departments again
  (`RfpExactSafety.RedeliveryIsUnsafeExactly`). Dropping departments is always safe (`DroppingStaysSound`); a
  department added while the gate is closed keeps the ticket from being done (`AddedDepartmentBlocks`).
- A start that stops before the status flip leaves its arbitration record in the rows. If the intake is then
  redelivered with fewer departments and a second start requires the CEO, a leftover record without that
  requirement can be the one that is read, and the ticket is finished without the CEO
  (`RfpExactSafety.StartIsUnsafeExactly`, from the upload on: `UnsoundByStart`).
- If the first write of the response task fails, its recovery asks for a transition that the status machine
  refuses: the ticket stays `intake_complete` although the task reports `under_evaluation`
  (`RfpTaskProofs.ResponseLandsAtEvaluation`, an if and only if).
- A ticket whose approval start was interrupted after the status flip can never be finished while the
  department concerned is needed (`RfpRedelivery.BlockedIsNeverDone`); a ticket whose analysis stopped after
  inserting the rows never leaves analysis (`RfpOutcomes.DeadStaysDead`). Exactly which reachable tickets can
  be finished: `RfpOutcomes.FinishableExactly`.
- A decision call that stops between closing the last row, or recording the CEO's approval, and the
  finalization leaves a ticket that no call is ever accepted for (`RfpOutcomes.StoppedBeforeFinalization`,
  `RfpOutcomes.StoppedBeforeSynthesis`).
- Two workers can hold the same nightly job after a claim has read a stale row, if and only if some worker
  still holds it at that read (`JobClaims.TakeOverIsUnsafeExactly`); the ousted worker can then close the row
  of the new one (`JobClaims.StaleTakeoverOustsHolder`). Two claims that both read a dead lock also both win
  it (`JobClaims.TwoTakeoversBothWin`).
- The extract drops supplies older than four weeks, so a waste event can be counted as missing a cost that
  the full log has; `KpiExtract.ChargedAlikeExactly` says when. Rows of equal timestamp come back in no fixed
  order; the charge of a waste event depends on that order if and only if its matching supplies at the latest
  instant differ in cost (`KpiExtract.ChargeIsOrderFreeExactly`).
- Removing `>>>` after `<<<` can put a `<<<` back into a value; `MetadataFence.OpeningComesBackExactly` says
  when. The closing fence is safe all the same.
- A proposal attached without a session id is logged as proposed and never pending, so it is never resolved
  (`AgentRuns.ResolvedOrPendingExactly`, `AgentRuns.ProposalWithoutSession`).
- A memory that the agent confirms as saved can be overwritten by the consolidation of the same write, with the
  first entry whose label matches (`AgentConsolidation.ConfirmedMemoryIsLost`, a run from the start); it
  survives if and only if the store before the write meets the condition of
  `AgentConsolidation.ConfirmedMemorySurvivesExactly`.
- The lookup and the revocation of a token rotation are separate statements. Two requests on one token can both
  rotate it, if and only if both pass their check before either revokes (`RotationRace.LateRotationExactly`,
  `RotatingTwiceOverlaps`, `OverlapRotatesTwice`).

## Model

| member | source | states |
|---|---|---|
| RfpLifecycle.AllowedIsNextStatus | data/pipelines/rfp_intake/lifecycle.py:22-71 | a transition is allowed exactly to the next status of the chain, or from analysis to discarded; rank rises; nothing leaves an end state |
| RfpArbitration.SetupRule | data/pipelines/rfp_intake/arbitration.py:46-66 | the loop fires one trigger for each section below the setup minimum, in order, and forces exactly those departments |
| RfpArbitration.FindFlaggedSection | data/pipelines/rfp_intake/arbitration.py:100-105 | the early-exit scan finds a flagged section if and only if one exists |
| RfpArbitration.RunArbitration | data/pipelines/rfp_intake/arbitration.py:30-145 | the three rules in turn: the triggers are exactly the facts of the sections and the budget, each once and with its values; who is forced and whether the CEO is required follows from the same facts |
| RfpArbitration.ArbitrationFollows | data/pipelines/rfp_intake/arbitration.py:30-145 | for every list of sections and every budget: fewer than 10 setup days, procurement above the price per cover, a budget above 50000 or a section's own flag, and nothing else, fire, force and require |
| RfpArbitration.SetupTriggersAre | data/pipelines/rfp_intake/arbitration.py:46-66 | a setup trigger is in the list if and only if its department breaches the minimum, with that department's days |
| RfpArbitration.ConcerningFindsAll | data/pipelines/rfp_intake/arbitration.py:127-135 | the feedback filter keeps exactly the resolutions that name the department |
| RfpArbitration.ForcedIffNamed | data/pipelines/rfp_intake/arbitration.py:122-145 | a department is forced if and only if a fired rule names it, so its feedback is always about it; the CEO is required if and only if the CEO rule fired |
| RfpThread.ConversationIsBounded | data/pipelines/rfp_intake/approval_graph.py:94-256 | over every conversation rework stays within the limit, exhaustion happens only at the limit, and limit + 1 answers end the thread |
| RfpThread.EndedTextWasShown | data/pipelines/rfp_intake/approval_graph.py:94-176 | a thread ends with the very section shown at its last pause, approved if and only if that pause was answered with approval |
| RfpDatabase.Database.SaveDepartmentSections | data/pipelines/rfp_intake/repository.py:140-161 | inserts blank rows, all or none: a department that already has a row refuses the insert |
| RfpDatabase.Database.ProcessRfp | services/rfp/tasks.py:42-122 | the intake task at every crash point |
| RfpDatabase.Database.StoreIntake | services/rfp/tasks.py:99-109 | the writes for a valid intake in their order |
| RfpDatabase.Database.SaveDrafts | services/rfp/tasks.py:184-193 | the loop that stores drafts, up to an outage; what it stores: `RfpTaskEffects.ResponseStores` |
| RfpDatabase.Database.RecoverResponse | services/rfp/tasks.py:204-245 | the recovery of the response task |
| RfpDatabase.Database.ProcessRfpResponse | services/rfp/tasks.py:125-245 | the response task at every crash point; what it stores: `RfpTaskEffects.ResponseStores` |
| RfpDatabase.Database.ProcessRfpApproval | services/rfp/tasks.py:248-444 | the approval task at every crash point |
| RfpDatabase.Database.MergeNumbersAndStamps | services/rfp/tasks.py:311-356 | the two loops before the flip, up to an outage |
| RfpDatabase.Database.FlipAndStart | services/rfp/tasks.py:358-394 | the status flip, then a thread for each needed department, up to an outage |
| RfpDatabase.Database.FlagForReview | services/rfp/tasks.py:406-443 | the recovery after a failed start flags rows and changes nothing else |
| RfpDatabase.Database.AllActiveDeptsTerminal | services/rfp/approval_driver.py:146-154 | true if and only if every needed department has a terminal row |
| RfpDatabase.Database.ArbitrationFromSections | services/rfp/approval_driver.py:127-133 | the scan returns the first record in row order |
| RfpDatabase.Database.PersistArbitrationPatch | services/rfp/approval_driver.py:157-178 | patches the record of every needed row and nothing else |
| RfpDatabase.Database.BuildSections | data/pipelines/rfp_intake/approval_orchestration.py:249-342 | the loop assembles one document section for each department, in order |
| RfpDatabase.Database.SynthesizeAndComplete | services/rfp/approval_driver.py:197-242 | saves the document (sections, triggers, CEO line), then moves to done; raised where the source raises |
| RfpDatabase.Database.MaybeFinalizeTicket | services/rfp/approval_driver.py:245-307 | waits, opens the CEO gate or completes, as the rows and the record say |
| RfpDatabase.Database.PersistRegenSection | services/rfp/approval_driver.py:355-403 | stores a regenerated draft under the new pause, keeping the record |
| RfpDatabase.Database.ApplySectionDecision | services/rfp/approval_driver.py:406-552 | a department decision: every guard with its error, rework, or closing the section; what each leaves: `RfpEffects.ReworkWrites`, `AnswerCloses` |
| RfpDatabase.Database.CloseSection | services/rfp/approval_driver.py:491-552 | closes the row and goes on to finalization |
| RfpDatabase.Database.ApplyCeoDecision | services/rfp/approval_driver.py:555-633 | the CEO decision: every guard with its error, approval with synthesis, or rejection |
| RfpDatabase.Perform | services/rfp/tasks.py:42-444 | the class performs exactly the steps the theorems are about |
| RfpTaskEffects.InvalidIntakeDiscards | services/rfp/tasks.py:63-97 | a failed or invalid intake discards a ticket in analysis and writes nothing else |
| RfpTaskEffects.IntakeStores | services/rfp/tasks.py:99-109 | after any number of commits of a valid intake: metadata first, then all missing rows blank or none, then the status, from analysis only |
| RfpTaskEffects.ResponseStores | services/rfp/tasks.py:160-245 | when every write is made each needed row holds the draft and the two flags the graph returned for it, or an empty draft for review; otherwise exactly what was written before the failure and what the recovery reached |
| RfpTaskEffects.StartStampsAndShows | services/rfp/tasks.py:311-394 | a complete start stamps one record, with triggers, forced departments and CEO requirement as budget, flags and extracted numbers say, and these numbers on each needed row, and pauses each department on its stored draft with the same numbers and requests |
| RfpTaskEffects.CutStartFlags | services/rfp/tasks.py:358-443 | a start that does not make all its writes keeps every draft and CEO flag, and asks for review of exactly the needed rows its recovery reaches |
| RfpEffects.ReworkWrites | data/pipelines/rfp_intake/approval_graph.py:137-247 | a rejection or change request below three reworks: row and next pause hold the replied text and numbers, or the old text when there is none, one rework further, with the feedback kept and nothing else changed |
| RfpEffects.AnswerCloses | services/rfp/approval_driver.py:491-552 | an approval, or any answer after three reworks, closes its row with status, outcome, the owner's name and the time, keeps text and numbers, and leaves other departments alone |
| RfpEffects.SectionRefusals | services/rfp/approval_driver.py:406-465 | each refusal of the endpoint if and only if its own reason is the first that applies |
| RfpEffects.ClosingAnswerEnds | services/rfp/approval_driver.py:245-307 | after a closing answer the ticket waits if and only if another department is open, and otherwise opens the CEO gate under one id in all records or is done with its document, as the record requires |
| RfpEffects.DoneDocument | data/pipelines/rfp_intake/approval_orchestration.py:249-342 | a done ticket's document has one section per needed department in the fixed order, each with its row's text, approver and time, the record's triggers and the CEO's approval time |
| RfpEffects.CeoApprovalPublishes | services/rfp/approval_driver.py:555-633 | the CEO's approval is stored with its time in every needed record, the ticket is done and the document carries that time |
| RfpEffects.CeoRejectionRecords | services/rfp/approval_driver.py:555-633 | the CEO's rejection is stored in every needed record; nothing is published and the ticket goes on waiting |
| RfpEffects.CeoRefusals | services/rfp/approval_driver.py:555-610 | each refusal of the CEO endpoint if and only if its reason is the first that applies, read from the shared record |
| RfpPauses.PauseIdsAreNeverReused | services/rfp/approval_driver.py:456-490 | over any run, whatever is redelivered, the id of a department's pause names that pause of that department and no later one |
| RfpTaskProofs.ResponseLeavesOthersAlone | services/rfp/tasks.py:125-245 | from a status other than intake_complete or drafting the response task changes nothing |
| RfpTaskProofs.ResponseLandsAtEvaluation | services/rfp/tasks.py:125-245 | when the recovery write can commit, the ticket ends under evaluation if and only if it was drafting or the first write went through |
| RfpTaskProofs.ApprovalNotStarted | services/rfp/tasks.py:248-444 | stopped before the flip the ticket is still under evaluation and consistent |
| RfpTaskProofs.ApprovalStarted | services/rfp/tasks.py:321-394 | past the flip all rows carry this run's arbitration and are undecided; without an outage all are paused under their own ids |
| RfpDecisionProofs.FirstRowIsAnyRow | services/rfp/approval_driver.py:127-133 | with one record everywhere the first-row read gives it for every row order |
| RfpDecisionProofs.SectionKeepsInv | services/rfp/approval_driver.py:406-552 | a section call is refused, without any change, if and only if the department is not paused or the action unknown; else it keeps the invariant |
| RfpDecisionProofs.FinalizeCases | services/rfp/approval_driver.py:245-307 | after a closed section exactly one of waiting, opening the gate and finishing follows, as the rows and the record say |
| RfpDecisionProofs.CeoKeepsInv | services/rfp/approval_driver.py:555-633 | a CEO call is accepted if and only if the gate is open; approval finishes, rejection parks, refusal changes nothing |
| RfpTheorems.StepIsForward | data/pipelines/rfp_intake/repository.py:75-108 | any task or call, from any stored data, moves the status forward or leaves it |
| RfpTheorems.StatusOnlyRises | data/pipelines/rfp_intake/lifecycle.py:22-71 | over any run status rank only rises and discarded and done are absorbing |
| RfpTheorems.RunKeepsInv | services/rfp/approval_driver.py:245-633 | the strong invariant (one record in all rows, exactly the needed departments, a sound gate) holds after every run in which redelivered intakes keep the needed departments |
| RfpTheorems.RedeliveredIntakeOnDone | services/rfp/tasks.py:99-109 | a redelivered intake leaves a done ticket sound if and only if it adds no department |
| RfpProgress.AcceptedDecisionsAreBounded | data/pipelines/rfp_intake/approval_graph.py:137-163 | while redelivered intakes keep the n needed departments, each accepted decision uses up one of at most 4n + 1 |
| RfpRedelivery.TerminalRowsAreFrozen | services/rfp/approval_driver.py:406-552 | over any run, whatever is redelivered, a decided row, and its thread, never change again but for the CEO fields of the record |
| RfpRedelivery.ArbitrationNeverDiverges | services/rfp/approval_driver.py:157-178 | over any run, whatever is redelivered, every row keeps the triggers, forced departments and CEO requirement of the start; any row order reads them |
| RfpOutcomes.ApprovedTextIsPublished | data/pipelines/rfp_intake/approval_orchestration.py:249-342 | over any run no document shows another text for an approved department than its approver was shown; a finished one does show it while the department is still asked for |
| RfpRedelivery.AlwaysPausedOrClosed | services/rfp/approval_driver.py:468-552 | over any run a department once started is always closed without a pause id, or paused under the id and with the text of its row |
| RfpRedelivery.RejectedStaysRejected | services/rfp/approval_driver.py:263-276 | after the CEO's rejection no run, whatever is redelivered, changes the ticket's status, rows or document, and no decision is accepted |
| RfpRedelivery.BlockedIsNeverDone | services/rfp/tasks.py:358-443 | a needed department without a row, or left without a pause id, keeps the ticket from ever being done, until an intake stops asking for it |
| RfpRedelivery.AcceptedInAnyRun | data/pipelines/rfp_intake/approval_graph.py:137-163 | over any run, whatever is redelivered, at most 5n + 1 decisions are accepted for n departments with a row |
| RfpOutcomes.FinishableExactly | services/rfp/approval_driver.py:245-633 | before and during approval, while the needed departments stay the same: some run finishes the ticket if and only if it is done, in analysis without rows, between intake and start, or waiting with a complete start and no rejection |
| RfpOutcomes.DeadStaysDead | services/rfp/tasks.py:99-109 | a ticket in analysis that has rows, or a discarded one, never goes on: every further valid intake raises at the insert |
| RfpOutcomes.StoppedBeforeFinalization | services/rfp/approval_driver.py:491-552 | a section call that stops after closing the row loses nothing if a department is still open; otherwise no decision is ever accepted again |
| RfpOutcomes.StoppedBeforeSynthesis | services/rfp/approval_driver.py:555-617 | a CEO approval that stops before the synthesis leaves a ticket that is never done |
| RfpOutcomes.EveryValidTicketCanFinish | services/rfp/tasks.py:42-444 | for every valid intake there is a run from upload to done |
| RfpPreparation.DoneIsSound | services/rfp/approval_driver.py:245-307 | a done ticket has every needed department closed, a document, and CEO approval where a record requires it, after every run of safe intakes and starts; before approval any intake is safe |
| RfpExactSafety.EveryRunStaysConsistent | services/rfp/tasks.py:42-444 | after every run, whatever is redelivered, nothing is decided before approval, and during approval every row agrees with its thread |
| RfpExactSafety.RedeliveryIsUnsafeExactly | services/rfp/tasks.py:99-109 | an intake redelivered during approval can lead to an unsoundly finished ticket if and only if it adds a department and the ticket is done or its CEO gate is open |
| RfpExactSafety.DroppingStaysSound | services/rfp/tasks.py:99-109 | a redelivered intake that adds no department leaves every further run sound |
| RfpExactSafety.AddedDepartmentBlocks | services/rfp/approval_driver.py:245-262 | a department added while the gate is closed keeps the ticket from being done, as long as it is asked for |
| RfpExactSafety.UnsoundByRedelivery | services/rfp/tasks.py:99-109 | a run from the upload to a done ticket with a needed department that has no section |
| RfpExactSafety.StartIsUnsafeExactly | services/rfp/tasks.py:311-394 | a complete start can lead to an unsoundly finished ticket if and only if it requires the CEO and an earlier start left a record without that requirement in a department no longer needed |
| RfpExactSafety.UnsoundByStart | services/rfp/tasks.py:311-394 | a run from the upload to such a ticket: a stopped start, a redelivered intake, a second start |
| JobRuns.BoundError | data/pipelines/job_runner.py:90-95 | a message of up to 2000 characters is kept; a longer one keeps its first 1997 and ends in three dots |
| JobRuns.JobRunner.ClaimInsert | data/pipelines/job_runner.py:134-154 | insert if absent: a processing row started and created now, or no change |
| JobRuns.JobRunner.TransitionFailedToProcessing | data/pipelines/job_runner.py:157-174 | reclaims a failed row only: started now, without end or error, created as before; else no change |
| JobRuns.JobRunner.MarkStaleFailed | data/pipelines/job_runner.py:177-193 | fails a processing row, whatever its age, with the take-over message; else no change |
| JobRuns.JobRunner.FinalizeOnce | data/pipelines/job_runner.py:237-262 | writes a processing row only, whoever owns it: the status asked for, the bounded error and the time, start and creation as before; else no change |
| JobRuns.JobRunner.ClaimJob | data/pipelines/job_runner.py:196-234 | alone, a claim wins if and only if the row is missing, failed or older than six hours in processing, with the row and the reason it leaves |
| JobRuns.JobRunner.FinalizeWithRetry | data/pipelines/job_runner.py:237-284 | succeeds if and only if an attempt reaches the database and the row is processing or has the status already; then it has that status, and a processing row was written once, by the first attempt that got through, with the bounded error and that time |
| JobClaims.InsertWrites | data/pipelines/job_runner.py:134-211 | either insert of an interleaved claim wins exactly where no row is, with the row it leaves and where its worker goes on |
| JobClaims.ReadDecides | data/pipelines/job_runner.py:206-234 | the read goes on by the row's status, and takes over a processing row exactly when it is older than six hours |
| JobClaims.TakeOverWrites | data/pipelines/job_runner.py:157-193 | the two statements of a take-over, each on what it then finds |
| JobClaims.FinalizerWrites | data/pipelines/job_runner.py:237-262 | the finalizing statement of a worker asked for a status leaves a processing row with that status, error and time, and any other row alone |
| JobClaims.RecheckDecides | data/pipelines/job_runner.py:262-284 | a row that has the wanted status is a success; otherwise there are three attempts in all |
| JobClaims.UndisturbedFinalize | data/pipelines/job_runner.py:237-262 | a worker that finalizes undisturbed leaves its row with the status it was asked for |
| JobClaims.RowMoves | data/pipelines/job_runner.py:134-262 | a worker wins exactly when the row enters processing; completed rows are never written |
| JobClaims.CompletedIsAbsorbing | data/pipelines/job_runner.py:196-262 | over any interleaving a completed row stays as it is |
| JobClaims.WinsAreSeparatedByFalls | data/pipelines/job_runner.py:134-262 | over any interleaving wins and falls to failed balance, up to the row's final status |
| JobClaims.FallBetweenTwoWins | data/pipelines/job_runner.py:134-262 | between any two wins of a key its row fell from processing to failed |
| JobClaims.UndisturbedClaim | data/pipelines/job_runner.py:196-234 | left alone, the interleaved statements of a claim end like `ClaimJob` |
| JobClaims.OneHolderWithoutStaleReads | data/pipelines/job_runner.py:126-234 | if no claim reads a stale row, at most one worker is between winning and finalizing |
| JobClaims.TakeOverIsUnsafeExactly | data/pipelines/job_runner.py:177-234 | after a stale read under mutual exclusion some continuation has two holders if and only if some worker holds the key at that read; taking over a dead lock is safe |
| JobClaims.StaleTakeoverOustsHolder | data/pipelines/job_runner.py:177-262 | after a stale read the take-over succeeds over a holder that is working, finalizing or rechecking, which can then close the row of the new one |
| JobClaims.ClosesRowOfOther | data/pipelines/job_runner.py:237-262 | any holder can close a row by its own statements while another worker believes it holds it |
| JobClaims.TwoTakeoversBothWin | data/pipelines/job_runner.py:177-234 | a run from the empty table in which two workers hold one key |
| KpiWaste.LatestIsLatest | data/pipelines/transform.py:176-181 | the charged supply is the latest matching one, the last in input order among equals; none only when nothing matches |
| KpiWaste.SortingKeepsLatest | data/pipelines/transform.py:156-181 | the last match after the stable sort by time is the latest match of the unsorted list |
| KpiWaste.ScanLatestCost | data/pipelines/transform.py:176-181 | the scan that breaks at the first later supply finds the last match of the whole sorted list |
| KpiWaste.ChargeEvent | data/pipelines/transform.py:156-185 | sort, scan and break charge an event the cost of its latest supply |
| KpiWaste.CollectSupplies | data/pipelines/transform.py:138-155 | the loop keeps exactly the cost-bearing supplies, in order |
| KpiWaste.ChargeEvents | data/pipelines/transform.py:158-187 | the second loop charges each eligible event at its location or counts it missing |
| KpiWaste.ComputeWasteCosts | data/pipelines/transform.py:127-187 | each location's total is the value of its eligible waste at latest cost; the rest is counted as missing |
| KpiWaste.WasteValuedOrMissing | data/pipelines/transform.py:182-185 | each eligible waste event is valued or counted missing, exactly once |
| KpiAlerts.MedianOfRearranged | data/pipelines/transform.py:262 | the median does not depend on order |
| KpiAlerts.MedianBetween | data/pipelines/transform.py:262 | the median lies within any bounds of the values |
| KpiAlerts.AlarmingExactly | data/pipelines/transform.py:259-266 | a supply alerts if and only if it has two prior costs, a positive median, and leaves its 25% band |
| KpiAlerts.AlarmBand | data/pipelines/transform.py:217-267 | with positive prior costs, within 25% of each never alerts and above 1.25 times all always does |
| KpiAlerts.IsAlert | data/pipelines/transform.py:259-265 | the quotient test alerts exactly when there are two prior costs, their median is positive, and the cost lies outside 75% to 125% of it |
| KpiAlerts.ReadSupplies | data/pipelines/transform.py:232-255 | one pass builds each pair's baseline and the week's supplies |
| KpiAlerts.CountAlerts | data/pipelines/transform.py:257-267 | the second loop counts, for each location, the supplies that alert against their pair's history |
| KpiAlerts.ComputePriceAlertCounts | data/pipelines/transform.py:217-267 | the counts per location are the alerting supplies of the week |
| KpiAlerts.AlertsOfRearranged | data/pipelines/transform.py:217-267 | alert counts do not depend on the order of the records |
| KpiAlerts.AlertsRepriced | data/pipelines/transform.py:217-267 | a change of unit that keeps order, midpoints and bands changes no alert count |
| KpiAlerts.AlertsScale | data/pipelines/transform.py:217-267 | scaling all costs by a positive factor changes no alert count |
| KpiTransform.ComputePurchaseCosts | data/pipelines/transform.py:92-124 | totals sum quantity times cost per location; unpriced purchases are counted |
| KpiTransform.ComputeStockoutCounts | data/pipelines/transform.py:197-214 | the counts per location are the week's threshold events |
| KpiTransform.WasteRatio | data/pipelines/transform.py:190-194 | ratio times purchases gives waste back; zero without purchases |
| KpiTransform.TransformWeek | data/pipelines/transform.py:270-301 | one row per location in table order, each column the figure its name says: purchases, waste at the latest price, their ratio, threshold events, supplies outside the band of their median, country and currency; and the number of events without a price |
| KpiTransform.ReportsExactly | data/pipelines/transform.py:270-301 | the assembled row is the one whose columns report these figures, and no other row does |
| KpiReport.WasteIsCharged | data/pipelines/transform.py:127-187 | a location's waste is the sum over its wasted quantities of the price on the latest earlier supply record of the pair, the last among equals |
| KpiReport.MedianIsMedian | data/pipelines/transform.py:262 | the median is halfway between the two middle values of the ascending arrangement, and no other number is |
| KpiReport.AlertsAreSurprising | data/pipelines/transform.py:217-267 | a location's alerts are its supplies of the week that lie outside 75% to 125% of the median of at least two costs of the pair in the four weeks before |
| KpiExtract.ExtractKeepsPurchases | data/pipelines/pipeline.py:90-125 | purchase totals and missing count on the extract are those of the whole log |
| KpiExtract.ExtractKeepsStockouts | data/pipelines/pipeline.py:90-125 | stockouts on the extract are those of the whole log |
| KpiExtract.ExtractKeepsAlerts | data/pipelines/pipeline.py:57-125 | price alerts on the extract are those of the whole log: the lookback covers the baseline exactly |
| KpiExtract.ExtractKeepsWaste | data/pipelines/pipeline.py:90-125 | waste on the extract is waste on the log without the supplies older than the lookback |
| KpiExtract.ExtractKeepsWasteInAnyOrder | data/pipelines/pipeline.py:90-125 | the same for any row order, when each waste event of the week has one cost among its latest matching supplies in the extract |
| KpiExtract.WasteOfRearranged | data/pipelines/transform.py:127-187 | waste does not depend on record order when each charged event has one cost at its latest instant |
| KpiExtract.ExtractKeepsRow | data/pipelines/pipeline.py:90-143 | the row reported from the extract is the row reported from the log, but for the waste, and the ratio with it, which are those reported without the old supplies |
| KpiExtract.LastRecordIsCharged | data/pipelines/pipeline.py:96-111 | any matching supply at the latest instant is charged in some order of the same records |
| KpiExtract.ChargeIsOrderFreeExactly | data/pipelines/pipeline.py:96-111 | a waste event is charged alike in every order of the records if and only if its latest matching supplies have one cost |
| KpiExtract.ChargedAlikeExactly | data/pipelines/pipeline.py:90-125 | a waste event is charged as on the whole log if and only if it has a supply within the lookback or none at all |
| StockQuery.GroupedIsSum | services/inventory/routers/inventory.py:38-59 | a group of an aggregated subquery holds the plain sum; a missing group stands for zero |
| StockQuery.JoinKeepsRows | services/inventory/routers/inventory.py:62-77 | an outer join with a grouped table neither drops nor repeats a row |
| StockQuery.StockRowsAreNaive | services/inventory/routers/inventory.py:38-77 | for every table content one row per ingredient, with the plain difference of sums |
| StockQuery.StockOfIsStock | services/inventory/routers/inventory.py:102-111 | the handler reads the true stock, and no row exactly for an unknown ingredient |
| StockLedger.SubmitMovesStock | services/inventory/routers/inventory.py:174-220 | an accepted order moves its own pair's stock by its quantity; nothing else moves any stock |
| StockLedger.SubmitNeverOverdraws | services/inventory/routers/inventory.py:190-220 | no order makes any stock negative |
| StockLedger.DecisionIsJustified | services/inventory/routers/inventory.py:174-220 | of all outcomes exactly the decided one is justified by quantity, caller, reason, catalog and stock, and the tables record it; an order for exactly the stock is accepted |
| StockLedger.Ledger.GetProduct | services/inventory/routers/inventory.py:151-158 | a product's stock, or nothing when it does not exist |
| StockLedger.Ledger.CreateInboundOrder | services/inventory/routers/inventory.py:174-186 | each outcome if and only if its reason applies; an accepted order is one more entry, anything else no change; no stock negative |
| StockLedger.Ledger.CreateOutboundOrder | services/inventory/routers/inventory.py:190-220 | each outcome if and only if its reason applies: accepted exactly when positive, authorized, with a valid reason, known and no more than the stock; one more exit or no change; no stock negative |
| StockRace.StepMovesStock | services/inventory/routers/inventory.py:174-220 | a statement of a transaction changes stock only at a commit, and only its own pair's |
| StockRace.FirstChecksDecide | services/inventory/routers/inventory.py:190-203 | the first checks of a transaction refuse for the first reason that applies, or go on without writing |
| StockRace.ReadSeesStock | services/inventory/routers/inventory.py:204-206 | the read sees the stock committed at that moment |
| StockRace.InsertDecides | services/inventory/routers/inventory.py:207-216 | an outbound order goes on if and only if it asks for no more than it has read |
| StockRace.CommitRecords | services/inventory/routers/inventory.py:217-220 | a commit makes one row of its own table visible and frees the lock |
| StockRace.LockAndInterrupt | services/inventory/routers/inventory.py:124-130 | a lock is taken only when free; an interrupted transaction writes nothing and frees its lock |
| StockRace.OthersStayCovered | services/inventory/routers/inventory.py:124-130 | while a transaction holds its pair's lock no other takes from what it has read |
| StockRace.StepKeepsInv | services/inventory/routers/inventory.py:124-220 | every statement of every transaction keeps the lock discipline and the coverage |
| StockRace.StockIsNeverNegative | services/inventory/routers/inventory.py:190-220 | for any number of interleaved orders no stock is ever negative |
| StockRace.StockIsConserved | services/inventory/routers/inventory.py:174-220 | stock moves by exactly the committed orders on the pair |
| StockRace.OtherPairsAreUntouched | services/inventory/routers/inventory.py:174-220 | a run without a commit on a pair leaves its stock alone |
| StockRace.CommitIsAccepted | services/inventory/routers/inventory.py:190-220 | an order that commits is one the endpoint would accept on the tables of that moment |
| StockRace.RunsAreSerializable | services/inventory/routers/inventory.py:124-220 | every interleaving leaves the tables of the endpoints called one by one in commit order |
| AgentLedger.FindAfterPurge | data/pipelines/guardrails.py:180-191 | lookup after a purge is lookup filtered by age |
| AgentLedger.PurgeTwice | data/pipelines/guardrails.py:180-191 | a second purge at the same time does and logs nothing |
| AgentLedger.RecordKeepsLedger | data/pipelines/guardrails.py:237-260 | recording keeps session counters equal to events and within the process counts |
| AgentLedger.GuardKeepsLedger | data/pipelines/guardrails.py:604-641 | the same for the input guard |
| AgentSupport.SupportAgent.PurgeExpired | data/pipelines/guardrails.py:180-191 | removes exactly the old sessions and logs each proposal pending in one as rejected |
| AgentSupport.SupportAgent.RecordGuardrail | data/pipelines/guardrails.py:237-260 | counts for the process, and for the session with its event |
| AgentSupport.SupportAgent.GetPendingMemory | data/pipelines/guardrails.py:211-219 | the pending proposal of a session that is still alive |
| AgentSupport.SupportAgent.SetPendingMemory | data/pipelines/guardrails.py:222-234 | sets or clears the one pending proposal; nothing without a session |
| AgentSupport.SupportAgent.ApplyInputGuard | data/pipelines/guardrails.py:604-641 | the verdict with its escalation, and what is recorded |
| AgentSupport.SupportAgent.ReadMemory | data/pipelines/memory_store.py:326-374 | returns the live matching entries in order and deletes the slots expired ones point to |
| AgentSupport.SupportAgent.ConsolidateLocation | data/pipelines/memory_store.py:421-450 | for each category normalizes the first live match into the location's slot |
| AgentSupport.SupportAgent.WriteMemory | data/pipelines/memory_store.py:388-418 | refused with a reason and no change, or stored and consolidated |
| AgentSupport.SupportAgent.ResolveMemory | data/pipelines/support_agent.py:218-423 | the reply and the state after a decision on the pending proposal |
| AgentSupport.SupportAgent.AttachMemoryProposal | data/pipelines/support_agent.py:426-500 | dropped, rejected or pending and logged |
| AgentEffects.PurgeTakes | data/pipelines/guardrails.py:180-191 | exactly the sessions quiet for more than an hour go, with one rejection logged for each proposal pending in them |
| AgentEffects.PendingIsSet | data/pipelines/guardrails.py:222-234 | a session's proposal is replaced and its time renewed; its counts and all other sessions are as they were found |
| AgentEffects.RecordRecords | data/pipelines/guardrails.py:237-260 | an event raises the counter of its kind by one for the process and, in a session, appends the event and counts an extraction turn exactly when it is one |
| AgentEffects.GuardJudges | data/pipelines/guardrails.py:604-641 | each verdict if and only if its reason is the first that applies, and a refusal is recorded under its kind and reason |
| AgentEffects.NothingToResolve | data/pipelines/support_agent.py:218-233 | without a pending proposal nothing is decided or stored |
| AgentEffects.RejectionEnds | data/pipelines/support_agent.py:235-291 | a rejection stores nothing, logs the proposal's own text as rejected, clears it, and goes on to the question exactly when the reply reads like one |
| AgentEffects.FaultyTextEnds | data/pipelines/support_agent.py:293-363 | a text that a check refuses is not stored; the proposal is logged as rejected with that text and the reason, and cleared |
| AgentEffects.AcceptanceEnds | data/pipelines/support_agent.py:327-423 | an accepted reply logs the proposal as approved, or as edited with the edited text, clears it, and keeps what else the reply asks |
| AgentEffects.AcceptanceStores | data/pipelines/support_agent.py:293-345 | the slot of the place and category then holds that text, under the proposal's id, when no other entry of the category matches the place |
| AgentEffects.DraftIsAttached | data/pipelines/support_agent.py:426-500 | a draft is dropped while another waits, refused with the check's reason, or pending field by field and logged under its id |
| AgentEffects.ReadReturns | data/pipelines/memory_store.py:326-374 | a read returns exactly the fitting entries of at most 180 days, in the order of the store |
| AgentEffects.ReadDeletes | data/pipelines/memory_store.py:326-386 | a read deletes exactly the slots that an older fitting entry names |
| AgentEffects.PassNormalizes | data/pipelines/memory_store.py:421-450 | one pass puts the first live match, normalized, into the location's slot, or leaves the store as the read does |
| AgentTheorems.GapNeverMoves | data/pipelines/support_agent.py:218-500 | no node opens or closes a proposal in the log without doing so in the sessions |
| AgentTheorems.StepKeepsAudit | data/pipelines/support_agent.py:468-500 | no two records propose the same id, and each resolution names a session |
| AgentTheorems.WrittenIsSourced | data/pipelines/memory_store.py:388-450 | a write with its consolidation stores only approved, validated summaries |
| AgentRuns.PendingIsTheDifference | data/pipelines/support_agent.py:218-500 | over any run a session's proposals are its resolved ones and the pending one |
| AgentRuns.ResolvedOrPendingExactly | data/pipelines/support_agent.py:426-500 | over any run a logged proposal is pending once or resolved once, never both, if and only if it names a session |
| AgentRuns.ProposalWithoutSession | data/pipelines/support_agent.py:122-128 | a draft attached without a session id is logged as proposed |
| AgentRuns.MemoryComesFromApproval | data/pipelines/memory_store.py:388-450 | over any run each stored entry is an approved or edited proposal whose summary passed validation, up to whitespace |
| AgentRuns.CountersMatchEvents | data/pipelines/guardrails.py:194-294 | over any run counters are the numbers of events, extraction turns are within the security count, and sessions sum within the process counts |
| AgentRuns.ContinuationIsRefused | data/pipelines/guardrails.py:604-641 | after a refused extraction attempt a continuation in the session is refused until the time limit, whatever turns of any session lie in between |
| AgentConsolidation.WriteSurvivesExactly | data/pipelines/memory_store.py:388-450 | a whole accepted write leaves its memory in its slot if and only if, in the store before, the first live foreign match before the slot is clean and no expired entry elsewhere points to the slot |
| AgentConsolidation.ConfirmedMemorySurvivesExactly | data/pipelines/support_agent.py:327-423 | the same for every memory that the agent confirms as saved, in every reachable state |
| AgentConsolidation.ConfirmedMemoryIsLost | data/pipelines/memory_store.py:421-450 | a run from the start whose last approved memory is in no slot afterwards |
| RefreshTokens.AuthService.GetByHash | services/auth/auth/refresh_repository.py:45-50 | the first record with the hash |
| RefreshTokens.AuthService.RevokeWhere | services/auth/auth/refresh_repository.py:53-66 | revokes every record that satisfies the condition, changes nothing else, and returns how many there were |
| RefreshTokens.AuthService.IssueTokenPair | services/auth/auth/service.py:236-302 | validates the location, then stores one unrevoked record |
| RefreshTokens.AuthService.RotateRefreshToken | services/auth/auth/service.py:391-426 | each refusal, or the old token revoked and a new pair issued |
| RefreshTokens.AuthService.RevokeRefreshToken | services/auth/auth/service.py:429-442 | logout revokes a token that decodes and ignores the rest |
| RefreshTokens.AuthService.ResetPassword | services/auth/auth/service.py:129-160 | resets exactly with the stored hash, and revokes every token of the user |
| TokenEffects.LoginIsChecked | services/auth/auth/service.py:236-249 | each outcome of the location check has its own reason; an admin may use every known location |
| TokenEffects.IssueAdds | services/auth/auth/service.py:252-302 | a pair speaks of the user and the granted location for one lifetime, and adds its one live record; or nothing changes |
| TokenEffects.RotationExchanges | services/auth/auth/service.py:391-426 | a signed, unexpired token with a live first record and an active user who may use the location is exchanged: its records revoked, one live record added; each other token changes nothing |
| TokenEffects.LogoutRevokes | services/auth/auth/service.py:429-442 | logout revokes exactly the records with the token's hash, if the token decodes |
| TokenEffects.ResetStores | services/auth/auth/service.py:129-160 | a reset with the stored token stores the new password, uses the token up and revokes exactly the user's records; any other token changes nothing |
| TokenEffects.RequestStores | services/auth/auth/service.py:103-126 | a reset request stores the hash of its token with the user and touches nothing else |
| TokenRuns.SuccessorCarriesLocation | services/auth/auth/service.py:412-426 | the successor of a rotated token carries its user and location, in both tokens |
| TokenRuns.RunKeepsInv | services/auth/auth/service.py:268-442 | the chain invariant holds after every run |
| TokenRuns.OneLiveToken | services/auth/auth/service.py:391-426 | a login has at most one unrevoked token at any time; all its tokens share user and location |
| TokenRuns.RotatesAtMostOnce | services/auth/auth/service.py:391-426 | over any run of whole requests a refresh token rotates at most once |
| TokenRuns.ResetEndsEarlierTokens | services/auth/auth/service.py:129-160 | after a reset no token issued to that user before ever rotates |
| TokenRuns.ResetTokenIsUsedUp | services/auth/auth/service.py:129-160 | a reset token works once |
| TokenRuns.IssuedSlugIsKnown | services/auth/auth/service.py:418-423 | rotating an issued token never fails with an unknown slug, the one error the endpoint does not catch |
| RotationRace.CheckDecides | services/auth/auth/service.py:391-423 | the first statement of a rotation goes on exactly for a token that could rotate at that moment, and writes nothing |
| RotationRace.FinishExchanges | services/auth/auth/service.py:425-427 | the second revokes and issues from what was read, whatever happened to the record since |
| RotationRace.LateRotationExactly | services/auth/auth/service.py:400-426 | once a token is revoked, exactly the requests that have already passed their check can still rotate it |
| RotationRace.RotatingTwiceOverlaps | services/auth/auth/service.py:400-426 | two requests that both rotate one token were both between check and revocation at some moment |
| RotationRace.OverlapRotatesTwice | services/auth/auth/service.py:400-426 | any two requests that are can both rotate it |
| RotationRace.TokenCanRotateTwice | services/auth/auth/service.py:391-426 | from any state in which a token can rotate, two requests can both rotate it |
| MetadataFence.DeletionKeepsRunModThree | data/pipelines/rfp_intake/draft_prompt.py:32-34 | deleting triples leaves a run its length modulo three |
| MetadataFence.DeletionLeavesNoTriple | data/pipelines/rfp_intake/draft_prompt.py:32-34 | one left-to-right pass leaves no triple behind |
| FenceContents.DeletionSplits | data/pipelines/rfp_intake/draft_prompt.py:32-34 | every other character stays and separates what is deleted on its two sides |
| FenceContents.DeletionOfRun | data/pipelines/rfp_intake/draft_prompt.py:32-34 | of a run exactly what is left after taking threes stays |
| MetadataFence.OpeningComesBackExactly | data/pipelines/rfp_intake/draft_prompt.py:32-34 | a stripped value contains `<<<` if and only if, after the first pass, three `<` are separated only by blocks of `>>>` |
| MetadataFence.OpeningCanComeBack | data/pipelines/rfp_intake/draft_prompt.py:32-34 | a family of values for which it does |
| MetadataFence.PrepareList | data/pipelines/rfp_intake/draft_prompt.py:53-62 | the prepared items in order, without the omitted ones |
| MetadataFence.FormatMetadata | data/pipelines/rfp_intake/draft_prompt.py:65-84 | the block of the lines of all seven labels |
| FenceContents.PreparationKeeps | data/pipelines/rfp_intake/draft_prompt.py:37-50 | a value's text is kept without fence delimiters and outer white space, unless it is empty or one of the three words for nothing |
| FenceContents.LinesCarryValues | data/pipelines/rfp_intake/draft_prompt.py:15-82 | the lines are those of the seven labels in their order, each with the kept text of its own value, the last as a dashed list |
| FenceContents.BlockHoldsLines | data/pipelines/rfp_intake/draft_prompt.py:80-84 | the block is the lines between the two fences, each on its own line, or the fixed text |
| MetadataFence.BlockClosesAtItsEnd | data/pipelines/rfp_intake/draft_prompt.py:65-84 | in a fenced block `>>>` occurs at the end of each fence and nowhere else |
| MetadataFence.ClosingFenceIsUnique | data/pipelines/rfp_intake/draft_prompt.py:27-84 | the closing fence occurs once, as the last characters |
| Chunking.GroupsPartition | data/pipelines/rag.py:198-206 | the groups in order are exactly the sentences, none empty |
| Chunking.ThreeToFiveGroups | data/pipelines/rag.py:198-206 | three sentences or more give three to five groups, with the exact number |
| Chunking.CollectPieces | data/pipelines/rag.py:172-178 | the pieces of all sections in order |
| Chunking.ExpandPieces | data/pipelines/rag.py:180-190 | the second tier's expansion |
| Chunking.GroupSentences | data/pipelines/rag.py:198-206 | the stepped loop yields the joined groups |
| Chunking.ChunkDocument | data/pipelines/rag.py:172-224 | the three tiers in turn, and the failure |
| Chunking.SectionsInTurn | data/pipelines/rag.py:131-178 | each section adds its paragraphs under its own title, or its body when it has none |
| Chunking.PiecesInTurn | data/pipelines/rag.py:180-190 | each piece is replaced by its sentences exactly when there are several and they make up for what is missing |
| Chunking.GroupsAreThirds | data/pipelines/rag.py:192-206 | the groups are successive thirds of the sentences, rounded down and at least one sentence each |
| Chunking.TiersInTurn | data/pipelines/rag.py:151-224 | the chunks carry, in order and with their sections, the pieces of the first tier that gives three |
| Chunking.ChunksAreNumbered | data/pipelines/rag.py:208-224 | a result has at least three chunks, numbered from zero |
| Chunking.ChunkingFailsExactly | data/pipelines/rag.py:151-224 | chunking fails if and only if splitting leaves fewer than three pieces and the document has fewer than three sentences |
| Chunking.SecondTierSufficesExactly | data/pipelines/rag.py:180-190 | the second tier yields three pieces if and only if some piece meets its own test |

## Left out

- RfpDatabase.Perform: one task delivery or decision call is one step; two calls on the same ticket do not interleave inside each other. The crash points inside a decision call are those of `StoppedBeforeFinalization` and `StoppedBeforeSynthesis`, not every commit of it.
- RfpTheorems.RunKeepsInv: holds for runs whose redelivered intakes keep the needed departments; what holds without that is `RfpRedelivery` and `RfpExactSafety`.
- RfpDatabase.Database.SynthesizeAndComplete: the document's header, total value and open questions are not modelled, nor the traces kept with threads.
- RfpLifecycle.AllowedIsNextStatus: statuses and departments are closed types, so the branches for unknown names are absent.
- RfpPauses.PauseIdsAreNeverReused: the checkpointer's ids are modelled as the next of a count.
- RfpThread.ConversationIsBounded: prompts, model calls and the checkpointer are reduced to an arbitrary reply and the saved thread.
- JobRuns.JobRunner.FinalizeWithRetry: a commit that succeeds but whose acknowledgement is lost is not modelled; backoff between attempts has no effect on the table.
- KpiTransform.TransformWeek: money and quantities are reals, so float rounding and NaN are not modelled; timestamps and numbers are taken after parsing.
- The load step of the KPI pipeline (an upsert by location and week), its run log and its cache key: each is a single write or a single expression, with no property that its own body does not already state.
- StockLedger.Ledger.CreateOutboundOrder: quantities are reals; columns other than ingredient, location and quantity are not stored; creating products is left out.
- StockRace.RunsAreSerializable: statements see what is committed when they run (Postgres read committed, the default); the branch without a lock for other databases is left out.
- AgentRuns.MemoryComesFromApproval: the in-memory backend only; redaction of audit records is not modelled, so the log is the one before redaction; whitespace collapsing is assumed idempotent.
- AgentSupport.SupportAgent.ReadMemory: scoped keys are structured, so a user id that contains the separator is not modelled.
- AgentSupport.SupportAgent.PurgeExpired: sessions are collected and deleted in one pass; audit logging does not fail, and time does not advance inside one node.
- The agent's routing, retrieval, ticket lookup and answer validators: they reach the modelled state only through the recorded failures; resetting the ledger for tests is left out.
- TokenRuns.RotatesAtMostOnce: one request is one step; `RotationRace` takes its two statements apart.
- TokenRuns.OneLiveToken: tokens are their payloads, the hash is injective and the random part of a new token is unused; signatures and password hashing are parameters.
- MetadataFence.FormatMetadata: whitespace, case folding and the printing of non-string values are parameters.
- Chunking.ChunkDocument: finding headings, paragraphs and sentences is a parameter.
- Sales forecasting, model evaluation, user interfaces, migrations and supplier, incident and telemetry endpoints.
