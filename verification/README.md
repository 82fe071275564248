# Gate management: a verified model

A Dafny model of the truck-transaction protocol of a gate management system, and of five smaller procedures beside it.

**The protocol.** One transaction is a row with a status and a revision, four versioned child tables (weighbridge
records in and out, vehicle checks, material checks, warehouse processes) and append-only tables (status history,
corrections, correction items, fraud checks). A service call reads a snapshot outside the database transaction, decides,
and later commits all or nothing with a compare-and-swap on status and revision. `Steps.dfy` and `Corrections.dfy` give
every call as a read half and a commit half; `Store.dfy` and `CorrectionService.dfy` are the same commits as methods that
change the rows in place, in the order the source writes them, each proved equal to the commit half it implements.
`Protocol.dfy` lets any number of calls interleave and shows that each interleaving amounts to its committed calls run
one after the other. The invariants are then proved over every run and lifted to every interleaving in
`Interleavings.dfy`.

| file | about |
|---|---|
| Prelude, Workflow, Records | shared datatypes, the status graph, the rows and the lineage of a versioned table |
| Steps, Corrections | the read and commit halves of every call |
| Store, CorrectionService | the commits as methods on rows updated in place |
| Protocol, Interleavings | pending calls, serializability, what holds at every moment |
| Stages, Weights, StatusHistory, Timeline, Fraud, Audit, Progress | invariants over every run, and from where a transaction can be completed |
| Effects, Amendments | which calls and requests are admitted, and what each leaves |
| Mirrors, Unloading | columns of the row that repeat a record's, and the warehouse process among them |
| GbjChecklist | the GBJ vehicle checklist on client and server |
| Retention, Restore | backup history and retention; restore with failures at any step |
| PlantDay, Plates, CheckIn | plant days and their keys, canonical plates, check-ins side by side |
| Sessions | refresh-token rotation |
| CsvExport | the paged CSV writer and a reader for it |

## What the proofs found

- A void swaps on the revision its client quotes, not on the one the call read. With a revision the client has seen it
  commits on the rows it read; with one still to come it writes a status into the history that had been left behind
  (`Protocol.VoidSeesItsSnapshot`, `Protocol.UnobservedVoidLosesTheStatus`).
- The duplicate guards, the fallback warehouse process and the fallback on the weighbridge record can never be used
  (`Stages.DuplicateGuardsNeverFire`, `Stages.FallbackProcessNeverInserted`, `Stages.InWeightFallbackNeverNeeded`).
- The warehouse service admits a rejection of goods still being unloaded, and the status table then refuses it
  (`Stages.NoRejectionDuringUnloading`).
- A transaction can be stuck: after a reopening that kept no in-weight, or with accepted goods whose in-weight is at
  the scale's minimum of 0.01 kg (`Progress.UnweighedIsStuck`, `Progress.WeightlessIsStuck`). These are the only dead
  ends (`Progress.CompletableIff`), and cancelling, setting the warehouse times right if they are reversed, and reopening
  leads out of them (`Progress.RecoverableByReopening`).
- A reopening past weigh-in discards the weigh-out record but leaves its weight and the net weight on the row
  (`Weights.ReopenKeepsWeighOut`), and a corrected vehicle check loses the decision columns
  (`Audit.DecisionColumnsDropped`).
- The GBJ checklist: an unanswered item that carries a photo is incomplete to the client and a finding to the server. This
  is the only disagreement (`GbjChecklist.DefaultPayloadAgreement`, `GbjChecklist.DeviationPayloadAgreement`).
- A data correction that overwrites a cached weight parts it from its record, exactly when it neither repeats the
  recorded weight nor edits the record as well (`Weights.BypassKeepsCacheIff`, `Weights.OverwriteLosesTheRecord`). The same
  holds of the figures of the warehouse process (`Mirrors.MirrorKeptIff`, `Unloading.OverwriteLosesTheProcess`).
- Restoring: the compensating rollback gives the database back but not the files already promoted
  (`Restore.PartlyRestoredFiles`); it does not run when clearing the staging directory fails first; and the portable
  bundle rolls back to its snapshot even if that was never verified and nothing had been restored.
- The path check of a restore looks at the staging directory while promotion resolves the same path against the uploads,
  so an accepted archive may be promoted elsewhere (`Restore.AcceptedNotContained`, `Restore.AcceptedPromotedElsewhere`).
  `Restore.PromotionStaysIff` and `Restore.WritesBelowIff` say, from the entries alone, when it is not.
- A transaction number made before midnight and used after it leaves the new day without its first number
  (`CheckIn.MidnightBreaksNumbering`); nothing else breaks the numbering (`CheckIn.RunNumbered`).
- A reopening can leave two active transactions of one plate (`CheckIn.ReopenDoublesThePlate`), exactly when another active
  transaction or a check-in under way has the plate (`CheckIn.ReopenHarmlessIff`).
- The clearing of a session after a refresh mismatch looks at nothing, so it also ends a session opened in between
  (`Sessions.OldMismatchEndsNewSession`), exactly when a login came with no login and no clearing after it
  (`Sessions.RevocationMeetsLaterLogin`).
- The formula prefix of the CSV writer cannot be told from an apostrophe in the data (`CsvExport.PrefixLoses`).

## Model

| member | source | states |
|---|---|---|
| Workflow.EdgesDescend | backend/src/common/state-machine/workflow-state-machine.ts:4-96 | every edge of the status graph lowers a rank, and rank zero is exactly a terminal status |
| Effects.AdmittedIff | backend/src/weighbridge/weighbridge.service.ts:144-554 | on the states a run reaches a call goes through exactly when its status and its form admit it, said in one line a call |
| Effects.EveryEdgeTaken | backend/src/common/state-machine/workflow-state-machine.ts:4-67 | the status graph has no edge that no call takes |
| Records.InsertKeepsLineage | backend/src/weighbridge/weighbridge.service.ts:268-284 | the aggregate maximum plus one is the next number of a gapless lineage, and inserting keeps one current record, the last |
| Records.SupersedeKeepsLineage | backend/src/transactions/operation-log-correction.service.ts:1122-1160 | an update of all current records leaves a gapless lineage without a current record and changes no older one |
| Records.CurrentIsLast | backend/src/weighbridge/weighbridge.service.ts:256-258 | the current record of a lineage is its last, if any |
| Store.Database.constructor | backend/src/gate/gate.service.ts:95-125 | a check-in's rows: registered, first revision, one history entry |
| Store.Database.WeighIn | backend/src/weighbridge/weighbridge.service.ts:255-323 | commits exactly what the commit half says, or restores every row |
| Store.Database.FinalWeights | backend/src/weighbridge/weighbridge.service.ts:496-554 | gross and tare by process type; a rejected truck's net is floored at zero |
| Store.Database.WeighOut | backend/src/weighbridge/weighbridge.service.ts:557-662 | commits the weights, the status and the fraud check of the commit half, or restores every row |
| Store.Database.StartQc | backend/src/qc/qc.service.ts:122-184 | claims the row and starts the stage the snapshot was pending in, or changes nothing |
| Store.Database.SubmitVehicleCheck | backend/src/qc/qc.service.ts:240-321 | claims first, then inserts the check with the server's verdict, or changes nothing |
| Store.Database.SubmitIncomingCheck | backend/src/qc/qc.service.ts:691-769 | inserts the material check and claims, or restores every row |
| Store.Database.CompleteAnalysis | backend/src/qc/qc.service.ts:903-949 | marks the analysis done, annotating the active process, without a status change |
| Store.Database.StartWarehouse | backend/src/warehouse/warehouse.service.ts:251-309 | claims the row and inserts the process, or changes nothing |
| Store.Database.FinishProcess | backend/src/warehouse/warehouse.service.ts:524-572 | the active process is finished in place, a finished one inserted only without one |
| Store.Database.CompleteWarehouse | backend/src/warehouse/warehouse.service.ts:473-590 | finishes the active process in place, or inserts a finished one, and moves the status on |
| Store.Database.SubmitIncomingAtWarehouse | backend/src/warehouse/warehouse.service.ts:729-783 | inserts the check and claims, or restores every row |
| Store.Database.CheckOut | backend/src/gate/gate.service.ts:312-347 | completes a weighed-out transaction, or changes nothing |
| Store.Database.CancelAtGate | backend/src/gate/gate.service.ts:394-430 | cancels on the status and revision read, or changes nothing |
| Store.Database.Cancel | backend/src/transactions/transactions.service.ts:213-256 | cancels on the revision read unless the row is terminal by now |
| Store.Database.Void | backend/src/transactions/transactions.service.ts:319-386 | swaps on the client's expected revision; appends history only when the snapshot was not cancelled |
| Corrections.TargetRef | backend/src/transactions/operation-log-correction.service.ts:338-431 | an item reaches only a current record of this transaction, in a table its module covers |
| CorrectionService.Sort | backend/src/transactions/operation-log-correction.service.ts:308-457 | the sorting loop groups items by module and record, stopping at the first refused item |
| CorrectionService.EvaluateRoots | backend/src/transactions/operation-log-correction.service.ts:460-476 | the columns root items write, and whether any differs from the row |
| CorrectionService.EvaluateGroup | backend/src/transactions/operation-log-correction.service.ts:478-578 | the row columns one record's items write, and whether any item differs from its record |
| CorrectionService.Evaluate | backend/src/transactions/operation-log-correction.service.ts:460-588 | the first pass over roots and groups: all changes, and whether there is any |
| CorrectionService.Edit | backend/src/transactions/operation-log-correction.service.ts:688-698 | the editing loop applies the items in order with their coercions |
| CorrectionService.SupersedeAndAppend | backend/src/transactions/operation-log-correction.service.ts:668-971 | retires the record only while it is the current one of its revision, and appends the edited copy |
| CorrectionService.SupersedeRecords | backend/src/transactions/operation-log-correction.service.ts:665-1051 | the second pass: every group superseded, the items written at the end in order |
| CorrectionService.ItemsLast | backend/src/transactions/operation-log-correction.service.ts:1047-1051 | writing the items once at the end is the same as writing them with each record |
| CorrectionService.CorrectInPlace | backend/src/transactions/operation-log-correction.service.ts:308-1057 | a data correction commits what the specification says, or restores every row |
| CorrectionService.ClearStage | backend/src/transactions/operation-log-correction.service.ts:1112-1277 | the stage matrix clears exactly the tables listed for the target |
| CorrectionService.ReopenWorkflowAt | backend/src/transactions/operation-log-correction.service.ts:1059-1325 | a reopening commits what the specification says, or restores every row |
| CorrectionService.CorrectOperationLog | backend/src/transactions/operation-log-correction.service.ts:176-1347 | request, terminal, void and revision tests, then one of the two actions, all or nothing |
| Protocol.CommitBumpsRevision | backend/src/transactions/transactions.service.ts:319-349 | every commit raises the revision by one and keeps the process type |
| Protocol.CommitSeesItsSnapshot | backend/src/transactions/transactions.service.ts:213-230 | a commit by a call whose snapshot is behind or equal sees exactly the rows it read |
| Protocol.VoidSeesItsSnapshot | backend/src/transactions/transactions.service.ts:321-341 | a void commits on the state it read if and only if it quotes the revision it read |
| Protocol.Serializable | backend/src/transactions/operation-log-correction.service.ts:1279-1293 | in every interleaving the rows are those of the committed calls run in commit order, each accepted on the state it found, at consecutive revisions |
| Protocol.SameRevisionSameRows | backend/src/transactions/operation-log-correction.service.ts:259-263 | at two moments with the same revision the row and all child tables are the same |
| Protocol.OneCommitPerRevision | backend/src/weighbridge/weighbridge.service.ts:288-303 | no two calls commit on the same base revision |
| Protocol.UnobservedVoidLosesTheStatus | backend/src/transactions/transactions.service.ts:321-363 | a void quoting a revision not yet reached records a status already left |
| Stages.ForwardKeepsStage | backend/src/warehouse/warehouse.service.ts:149-783 | every forward step keeps the stage invariant and the lineages and changes no superseded row |
| Stages.CorrectionShape | backend/src/transactions/operation-log-correction.service.ts:665-1057 | a data correction keeps which tables have a current record, the history and every superseded row |
| Stages.ReopenClearsDownstream | backend/src/transactions/operation-log-correction.service.ts:1130-1277 | the tables a reopening clears are exactly those of stages after its target |
| Stages.ReopenKeepsStage | backend/src/transactions/operation-log-correction.service.ts:1059-1277 | after a reopening a table has a current record exactly when it had one and is not downstream of the target |
| Stages.ApplyKeepsStage | backend/src/transactions/operation-log-correction.service.ts:1059-1293 | every accepted call keeps stage invariant and lineages |
| Stages.RunStaged | backend/src/warehouse/warehouse.service.ts:543-572 | in every run no record of a later stage is current and revisions are 1..n, at most the last current, the others naming a correction |
| Stages.RunExtends | backend/src/transactions/operation-log-correction.service.ts:668-971 | a record once superseded never changes again |
| Stages.InterleavingStaged | backend/src/warehouse/warehouse.service.ts:543-572 | the same at every moment of every interleaving |
| Stages.DuplicateGuardsNeverFire | backend/src/weighbridge/weighbridge.service.ts:467-494 | where the status lets a call through, no duplicate guard stops it, in either half |
| Stages.FallbackProcessNeverInserted | backend/src/warehouse/warehouse.service.ts:524-572 | completion always finishes the last process in place |
| Stages.InWeightFallbackNeverNeeded | backend/src/weighbridge/weighbridge.service.ts:500-509 | the weighbridge record never supplies a gross weight the row lacks |
| Stages.NoRejectionDuringUnloading | backend/src/warehouse/warehouse.service.ts:705-727 | a rejection while unloading is always refused |
| Stages.ClientGuardsAgree | frontend/src/utils/statusFlow.js:18-47 | on reachable states the client's weigh-out, warehouse and check-out guards are the server's status guards |
| Stages.ClientGuardsDifferOffReachableStates | frontend/src/utils/statusFlow.js:34-43 | on a status no run reaches they differ |
| Weights.RunNetConsistent | backend/src/weighbridge/weighbridge.service.ts:540-554 | in every run net is set exactly when gross and tare are, and is their difference floored at zero |
| Weights.NegativeNetCannotReopen | backend/src/transactions/operation-log-correction.service.ts:590-608 | a truck with tare above gross cannot be reopened |
| Weights.ReopenCommitsIff | backend/src/transactions/operation-log-correction.service.ts:232-263 | exactly when a reopening commits |
| Weights.ReopenKeepsWeighOut | backend/src/transactions/operation-log-correction.service.ts:1103-1120 | a reopening past weigh-in discards the weigh-out record and time but not its weight and net |
| Amendments.RequestWellFormed | backend/src/transactions/operation-log-correction.service.ts:189-222 | a reopening names a target and no items, a data correction items without null values and no target; the disabled action is refused |
| Amendments.DataCorrectionOrder | backend/src/transactions/operation-log-correction.service.ts:247-263 | an accepted data correction is made on a finished transaction at the revision quoted, keeps the status, and leaves gross at least tare and start not after end |
| Amendments.AcceptedItem | backend/src/transactions/operation-log-correction.service.ts:107-158 | every item of an accepted request names a column its module may correct with a sensible value, one on a record a current record, and the database takes what it stores |
| Amendments.UnnamedRecord | backend/src/transactions/operation-log-correction.service.ts:338-360 | an item that names no weighbridge record means the one listed last |
| Amendments.VerdictStable | backend/src/transactions/operation-log-correction.service.ts:318-327 | both words of a verdict are known in any case and stored once and for all |
| Amendments.AllowlistIsCopied | backend/src/transactions/operation-log-correction.service.ts:23-92 | a corrected record keeps exactly the columns its module may correct, and its times |
| Amendments.CorrectedInfo | backend/src/transactions/operation-log-correction.service.ts:460-476 | a descriptive column of the row takes what the last item on it sends, and else stays |
| Amendments.NoChangeIff | backend/src/transactions/operation-log-correction.service.ts:580-588 | a data correction is refused as no change exactly when every item prints as what it names |
| Amendments.ReopenedAnew | backend/src/transactions/operation-log-correction.service.ts:1103-1277 | a reopened row is that of a new check-in that has just come to its target, keeping weights, check times and figures of the stages passed |
| Weights.OnlyWeighingTouchesWeights | backend/src/warehouse/warehouse.service.ts:486-512 | no other forward step touches a weight, a weighbridge record or a fraud check |
| Mirrors.GroupsWrite | backend/src/transactions/operation-log-correction.service.ts:478-533 | each column of the row that repeats one of a record takes the value of the last item on such a record, a number, a time or the unit as sent, and is untouched without one |
| Mirrors.CoercedByColumn | backend/src/transactions/operation-log-correction.service.ts:688-1005 | what a corrected column stores depends on the column alone, not on the table: ten store numbers, two times, four texts, the others what was sent |
| Mirrors.SupersededOnce | backend/src/transactions/operation-log-correction.service.ts:668-684 | a correction that succeeds retires every record it groups, each once |
| Mirrors.CorrectedColumn | backend/src/transactions/operation-log-correction.service.ts:665-1005 | after an accepted correction the current record of any table holds in each column what the request's last item on it sends, stored as the column asks, and every other value as before |
| Mirrors.CorrectedMirror | backend/src/transactions/operation-log-correction.service.ts:478-533 | for weights, quantity, unit, start and end: the request's last item on the record leaves its value on record and row alike; without one the record stays and the row takes what was written straight to it |
| Mirrors.MirrorKeptIff | backend/src/transactions/operation-log-correction.service.ts:460-533 | a data correction keeps a record and the row in agreement on a column exactly when it writes nothing straight to it, repeats the recorded value, or edits the record too |
| Unloading.AfterAgreesIff | backend/src/warehouse/warehouse.service.ts:251-572 | any next call keeps the current warehouse process and the row in agreement on weight, quantity, unit, start or end exactly when it is no correction that breaks that rule |
| Unloading.RunAgrees | backend/src/warehouse/warehouse.service.ts:486-572 | in every run whose data corrections keep the rule for a column, process and row agree on it, through start, completion, corrections and reopenings |
| Unloading.RunProcessAgrees | backend/src/transactions/operation-log-correction.service.ts:513-523 | in every run at all they agree on the unit, the start and the end |
| Unloading.OverwriteLosesTheProcess | backend/src/transactions/operation-log-correction.service.ts:460-463 | a reachable state and an accepted request after which the row's quantity is not the process's |
| Weights.RunCached | backend/src/transactions/operation-log-correction.service.ts:480-498 | if each data correction of a run keeps the weights, current records and cached weights agree, swapped for GBJ, through weigh-in, weigh-out, corrections and reopenings |
| Weights.BypassKeepsCacheIff | backend/src/transactions/operation-log-correction.service.ts:460-498 | a data correction keeps the agreement exactly when, for each weighbridge table with a current record, the last value written straight to its column repeats the recorded weight or the request edits the record's weight too |
| Weights.AfterKeepsCacheIff | backend/src/transactions/operation-log-correction.service.ts:460-498 | any next call keeps the agreement exactly when it is no such correction |
| Weights.NoBypassSpares | backend/src/transactions/operation-log-correction.service.ts:478-498 | a request that writes no cached weight directly never is |
| Weights.OverwriteLosesTheRecord | backend/src/transactions/operation-log-correction.service.ts:460-463 | a reachable state and an accepted request that loses the agreement |
| Weights.GroupOverlay | backend/src/transactions/operation-log-correction.service.ts:478-578 | what record items write to the row lies over what root items write |
| StatusHistory.ForwardEdge | backend/src/transactions/transactions.service.ts:232-241 | a forward step appends one edge of the graph exactly when the status changes |
| StatusHistory.ReopenLands | backend/src/transactions/operation-log-correction.service.ts:1094-1101 | a reopening lands on its target, work in the warehouse on the passed vehicle check, and appends that edge |
| StatusHistory.RunChained | backend/src/common/state-machine/workflow-state-machine.ts:4-67 | in every run the history is a chain of allowed edges from registration to the current status, at most 10 (k + 1) long with k reopenings |
| Timeline.RunTimely | backend/src/transactions/operation-log-correction.service.ts:1103-1277 | in every run the row carries no time and no measurement of a stage its status has not reached, and a finished one the times of its finish |
| Timeline.ForwardFrame | backend/src/weighbridge/weighbridge.service.ts:255-323 | a forward call touches its own table only and appends elsewhere; only weigh-out assesses fraud |
| Timeline.VehicleCheckRecorded | backend/src/qc/qc.service.ts:537-595 | the inserted check says what the new status says, with the row's times, and keeps the GBJ decision |
| Timeline.MaterialCheckRecorded | backend/src/qc/qc.service.ts:691-757 | the inserted material check says what the new status says |
| Steps.MapToCheckResult | backend/src/qc/qc.service.ts:45-64 | an inspector's word is stored as pass, reject, not applicable or null |
| Timeline.MaterialCheckRecordedAtWarehouse | backend/src/warehouse/warehouse.service.ts:729-783 | so does the one the warehouse inserts |
| Timeline.StartRecorded | backend/src/warehouse/warehouse.service.ts:251-309 | a started process and the row agree on the start |
| Timeline.CompletionRecorded | backend/src/warehouse/warehouse.service.ts:486-572 | a finished process and the row agree on the end and every figure given, and the process takes the remarks sent, null when none |
| Timeline.AnalysisRecorded | backend/src/qc/qc.service.ts:903-949 | a completed analysis sets its time, and its note on row and process, and changes no status |
| Effects.WeighInRecorded | backend/src/weighbridge/weighbridge.service.ts:268-323 | the weight sent is on the row and on the newest record, with ticket and remarks, and vehicle control may begin |
| Effects.WeighOutRecorded | backend/src/weighbridge/weighbridge.service.ts:566-634 | so is the out-weight, and the in-weight stays |
| Effects.QcStartRecorded | backend/src/qc/qc.service.ts:133-175 | the waiting stage goes into progress and keeps a start it already has |
| Effects.VehicleCheckContents | backend/src/qc/qc.service.ts:262-298 | the verdict is the inspector's for inbound goods and the server's decision for GBJ, and the record keeps each check, the notes and the checklist |
| Effects.MaterialCheckContents | backend/src/qc/qc.service.ts:703-745 | the status follows the verdict, smell and colour are stored as words, yes-or-no columns as words, other details as sent |
| Effects.WordsStable | backend/src/qc/qc.service.ts:45-64 | an inspector's word counts in any case, and what is stored for it counts as itself |
| Effects.CompletionContents | backend/src/warehouse/warehouse.service.ts:524-572 | every detail sent goes to the process worked on, whose other columns and start stay |
| Effects.WarehouseStartContents | backend/src/warehouse/warehouse.service.ts:251-309 | a start keeps its remarks |
| Effects.MaterialAtWarehouseContents | backend/src/warehouse/warehouse.service.ts:729-783 | the warehouse's material check keeps verdict and notes |
| Effects.LeavingRecorded | backend/src/transactions/transactions.service.ts:213-386 | check-out, cancellation and void write their times, and a reason only where none was given, and leave records and weights alone |
| Fraud.RunAssessed | backend/src/weighbridge/weighbridge.service.ts:640-662 | in every run, once weighed out with a positive net and an actual weight, the newest check has their distance as deviation and is critical exactly over 5 per cent of the net, a warning over 2 and up to 5, else safe |
| Fraud.WeighOutJudged | backend/src/weighbridge/weighbridge.service.ts:636-662 | a weigh-out adds one such check exactly when the warehouse measured a weight, against a zero net a safe one |
| Fraud.CorrectionAssesses | backend/src/transactions/operation-log-correction.service.ts:1327-1346 | a correction or reopening adds one such check of the weights it leaves exactly when both are there and the net is positive |
| Fraud.RiskByPercentage | backend/src/weighbridge/weighbridge.service.ts:641-651 | the level is the comparison of the percentage deviation with 5 and 2 |
| Fraud.VoidedStaysVoided | backend/src/transactions/operation-log-correction.service.ts:253-257 | no call changes a voided transaction's status or void mark |
| Fraud.VoidedForGood | backend/src/transactions/operation-log-correction.service.ts:253-257 | nor does any run |
| Fraud.RunVoidedIsCancelled | backend/src/transactions/transactions.service.ts:272-349 | in every run a voided transaction is cancelled |
| Audit.ReplayIsEdit | backend/src/transactions/operation-log-correction.service.ts:1030-1046 | replaying stored items is the edit the correction made |
| Audit.RunAudited | backend/src/transactions/operation-log-correction.service.ts:665-1046 | in every run each corrected record is the replay of its stored items over the columns copied from its predecessor |
| Audit.RunItemsTrue | backend/src/transactions/operation-log-correction.service.ts:1030-1046 | in every run each stored item names a record superseded by its own correction, its old value is what that record holds, its replacement is the next revision |
| Audit.RootItemStored | backend/src/transactions/operation-log-correction.service.ts:650-664 | an item on the row is stored with what the row showed before the correction |
| Audit.DecisionColumnsDropped | backend/src/transactions/operation-log-correction.service.ts:815-886 | a corrected vehicle check keeps none of the decision columns |
| Audit.SortedHas | backend/src/transactions/operation-log-correction.service.ts:403-431 | sorting succeeds only if every item got a group of its own module |
| Audit.OneRecordTwoNames | backend/src/transactions/operation-log-correction.service.ts:422-430 | one material record named under both modules aborts the correction with nothing changed |
| Progress.NextStepAdvances | backend/src/weighbridge/weighbridge.service.ts:433-554 | from a state that can finish some call is accepted, lowers the rank and keeps it so |
| Progress.CompletableIff | backend/src/weighbridge/weighbridge.service.ts:433-554 | from every reachable open state, reopened ones included, forward calls can complete the transaction if and only if the row meets a condition one can read off it |
| Progress.UnweighedIsStuck | backend/src/transactions/operation-log-correction.service.ts:1130-1205 | cancelled before weigh-in and reopened to the vehicle check, a transaction is open and no forward calls complete it |
| Progress.WeightlessIsStuck | backend/src/weighbridge/weighbridge.service.ts:496-538 | weighed in at the scale's minimum with its goods accepted, a transaction is open and no forward calls complete it |
| Progress.RunOpenWeights | backend/src/transactions/operation-log-correction.service.ts:590-608 | in every run an open transaction not yet weighed out again never shows more tare than gross |
| Progress.RunTimesBacked | backend/src/transactions/operation-log-correction.service.ts:499-530 | in every run warehouse times on the row belong to a current process |
| Progress.TimeNeedsProcess | backend/src/transactions/operation-log-correction.service.ts:499-530 | a correction writes a warehouse time only through the current process |
| Progress.EndFixAccepted | backend/src/transactions/operation-log-correction.service.ts:610-627 | reversed warehouse times can be set right by a correction of the end alone |
| Progress.RecoverableByReopening | backend/src/transactions/operation-log-correction.service.ts:1130-1170 | every reachable open state can be completed with an administrator's help; only reversed warehouse times need dates that survive being sent |
| Interleavings.RunSound | backend/src/transactions/operation-log-correction.service.ts:1279-1325 | all invariants together hold after every run |
| Interleavings.InterleavingSound | backend/src/transactions/operation-log-correction.service.ts:1279-1325 | all invariants hold after every interleaving, the revision counts the commits, and weights and each warehouse column agree with their records if each committed correction kept them |
| GbjChecklist.ValidateChecklist | backend/src/qc/qc.service.ts:338-418 | the validation loop accepts exactly five well-formed items and keeps photos of findings only |
| GbjChecklist.DoneCountFull | frontend/src/utils/gbjQcFlow.js:54-58 | all items are counted done exactly when each is answered ok, or not ok with a photo |
| GbjChecklist.PayloadChecklist | frontend/src/utils/gbjQcFlow.js:128-136 | what the server validates of a client payload, with photos looked at only on items not answered ok |
| GbjChecklist.DefaultPayloadAgreement | frontend/src/utils/gbjQcFlow.js:50-150 | the server accepts the default payload exactly when the client calls the list complete, with its result, one named family aside |
| GbjChecklist.DeviationPayloadAgreement | backend/src/qc/qc.service.ts:470-500 | approval with deviation is accepted exactly when the client offers it with a long enough reason, the same family aside |
| GbjChecklist.NoPassWithCriticalFinding | backend/src/qc/qc.service.ts:423-520 | no request yields a pass with a critical item that is not ok |
| GbjChecklist.DeviationAcceptedIff | backend/src/qc/qc.service.ts:470-500 | a well-formed checklist with findings is accepted as a deviation exactly when every finding is conditional and the reason is long enough |
| GbjChecklist.PlainDecisions | backend/src/qc/qc.service.ts:433-520 | a pass needs a list without findings, a rejection one with them, and a caller naming no mode is taken at his word exactly when the list bears it out |
| GbjChecklist.PolicyApplied | backend/src/qc/qc.service.ts:478-486 | under the policy shipped, exactly findings on items 3 and 5 can be approved |
| GbjChecklist.DeviationOffered | frontend/src/utils/gbjQcFlow.js:50-82 | the client offers approval exactly on a complete list with a finding, none of them critical |
| GbjChecklist.PhotoAcceptedIff | backend/src/qc/qc.service.ts:382-411 | which photos count: a data URI of three kinds in either case, of at most 2 MiB decoded |
| GbjChecklist.DecisionConsistent | backend/src/qc/qc.service.ts:423-522 | a rejection has a finding, a pass with findings has a reason, every finding keeps its photo |
| GbjChecklist.UnansweredPhotoDisagreement | frontend/src/utils/gbjQcFlow.js:54-58 | an input on which client and server disagree |
| Retention.GetBackupHistory | backend/src/settings/database-backup.service.ts:342-380 | the scan of all directories yields the sorted merge of the manifests |
| Retention.MergedMeaning | backend/src/settings/database-backup.service.ts:351-369 | one manifest an id, the first listed, none lost |
| Retention.SortedIsNewestFirst | backend/src/settings/database-backup.service.ts:376-379 | the history is newest first |
| Retention.SortedStable | backend/src/settings/database-backup.service.ts:376-379 | backups of one moment stay in the order listed |
| Retention.CleanOldBackupsRetention | backend/src/settings/database-backup.service.ts:1952-2003 | the loop with its two maps marks exactly the backups outside every tier |
| Retention.TierMeaning | backend/src/settings/database-backup.service.ts:1971-1999 | which backups are kept, said without the loop: recent ones, the first of each week in the band, the first of each month among the rest |
| Retention.DailyKept | backend/src/settings/database-backup.service.ts:1971-1974 | every backup up to 30 days old survives |
| Retention.WeekKept | backend/src/settings/database-backup.service.ts:1976-1988 | for every backup up to 84 days old one of its week, no older, survives |
| Retention.MonthKept | backend/src/settings/database-backup.service.ts:1990-1999 | for every backup up to 365 days old one of its month, no older, survives |
| Retention.OldSurvivorsCounted | backend/src/settings/database-backup.service.ts:1976-1999 | older backups kept number exactly the weeks plus the months they represent |
| Retention.SecondSweep | backend/src/settings/database-backup.service.ts:1952-2003 | a second run at the same clock marks only what the first had marked and failed to remove |
| Retention.SecondCleanupIdle | backend/src/settings/database-backup.service.ts:1952-2003 | when all was removed, a second run deletes nothing |
| Retention.AlwaysCovered | backend/src/settings/database-backup.service.ts:1952-2031 | through any sequence of backups and cleanups each recent enough week and month keeps a backup at least as new as any it ever had |
| Restore.Server.Stage | backend/src/settings/database-backup.service.ts:1278-1323 | staging touches nothing outside its directory and ends only if every entry passed its path and checksum tests |
| Restore.PassesChecksumIff | backend/src/settings/database-backup.service.ts:1286-1315 | content with a checksum passes exactly if its path may be written and its digest is the checksum in either case |
| Restore.PassedTarget | backend/src/settings/database-backup.service.ts:1286-1298 | what passes lands strictly below the staging directory, not through a name starting with two dots |
| Restore.NormalForm | backend/src/settings/database-backup.service.ts:1286-1298 | a path leads where its normal form leads |
| Restore.AbsolutePassed | backend/src/settings/database-backup.service.ts:1286-1298 | an absolute path is refused unless it leads below the staging directory by itself |
| Restore.EmptyPassedOver | backend/src/settings/database-backup.service.ts:1281-1285 | an entry without path or content is passed over |
| Restore.Server.Promote | backend/src/settings/database-backup.service.ts:1411-1426 | promotion renames what was staged, entry by entry |
| Restore.Server.RestoreDatabase | backend/src/settings/database-backup.service.ts:1238-1517 | with any step failing: nothing live changes before the commit, nothing commits before every entry passed, success leaves the target, a later failure leaves the snapshot exactly when the rollback can run |
| Restore.Server.RestoreFromPortableBundle | backend/src/settings/database-backup.service.ts:1689-1949 | live files change only after the commit and after every entry passed, and a failed promotion leaves those it reached; a failure leaves the snapshot whenever one was returned and its restore works |
| Restore.RestoredFiles | backend/src/settings/database-backup.service.ts:1411-1428 | after a restore of a contained archive each place promoted to holds what was staged last for it, every other file and everything outside the uploads is as it was |
| Restore.PartlyRestoredFiles | backend/src/settings/database-backup.service.ts:1411-1428 | a promotion that stops part way leaves exactly the places promoted so far replaced |
| Restore.PromotionStaysIff | backend/src/settings/database-backup.service.ts:1286-1298 | an accepted archive is promoted from staged files to places below the uploads only, whatever files are there, if and only if it is contained, which the entries alone decide |
| Restore.WritesBelowIff | backend/src/settings/database-backup.service.ts:1411-1426 | promotion writes below the uploads whatever files are there if and only if it does with a file at every place the entries name |
| Restore.ContainedWritesBelow | backend/src/settings/database-backup.service.ts:1411-1426 | an accepted archive that passes the test per entry writes below the uploads whatever files are there |
| Restore.ClimbingNowhereContained | backend/src/settings/database-backup.service.ts:1411-1426 | paths that never climb make a contained archive |
| Restore.AcceptedNotContained | backend/src/settings/database-backup.service.ts:1815-1832 | the path check accepts an archive that is not contained |
| Restore.AcceptedPromotedElsewhere | backend/src/settings/database-backup.service.ts:1862-1884 | its file is promoted to a place beside the uploads |
| PlantDay.DaysBeforeYearIs | backend/src/common/utils/plant-day.util.ts:5-9 | the days before a year follow the Gregorian leap rule |
| PlantDay.MonthsSummedUp | backend/src/common/utils/plant-day.util.ts:5-9 | the days before a month follow the usual formula |
| PlantDay.KeyReadsBack | backend/src/common/utils/plant-day.util.ts:6-12 | year, month and day can be read back from a key |
| PlantDay.WindowInUtc | backend/src/common/utils/plant-day.util.ts:1-16 | a window begins at 17:00 UTC and lasts 24 hours |
| PlantDay.PaddedDistinct | backend/src/gate/gate.service.ts:49-51 | zero padding loses no number, wider ones included |
| PlantDay.KeyOfOneDay | backend/src/common/utils/plant-day.util.ts:6-11 | a date key has eight characters and belongs to one day |
| PlantDay.WindowOfItsInstants | backend/src/common/utils/plant-day.util.ts:5-16 | a window contains its instant and is the window of every instant in it |
| PlantDay.WindowsTile | backend/src/common/utils/plant-day.util.ts:9-15 | windows tile time |
| PlantDay.KeyDeterminesWindow | backend/src/common/utils/plant-day.util.ts:10-15 | equal keys mean equal windows |
| Plates.NormalizeIdempotent | backend/src/common/utils/normalize-plate.util.ts:5-18 | normalizing twice is normalizing once, and the result is canonical |
| Plates.CleanedWords | backend/src/common/utils/normalize-plate.util.ts:7-11 | cleaning leaves the words typed, upper case, one blank between each two |
| Plates.SpelledNormal | backend/src/common/utils/normalize-plate.util.ts:13-16 | every spelling of a plate, its region, digits and series run together or not, is stored as the three with blanks between |
| Plates.UnspelledNormal | backend/src/common/utils/normalize-plate.util.ts:13-17 | every other string is stored as its words |
| Plates.RawIsSkeleton | backend/src/common/utils/normalize-plate.util.ts:20-22 | the raw form is the letters and digits typed, upper case |
| Plates.RawOfCanonical | backend/src/common/utils/normalize-plate.util.ts:20-22 | the raw form depends on the canonical form only |
| CheckIn.NumbersDiffer | backend/src/gate/gate.service.ts:37-51 | numbers of different days or places differ |
| CheckIn.GeneratedNumber | backend/src/gate/gate.service.ts:33-52 | the generated number is the next of the plant day |
| CheckIn.NumberReadsBack | backend/src/gate/gate.service.ts:37-51 | a number shows its prefix, its day and its place |
| CheckIn.NumberTaken | backend/src/gate/gate.service.ts:137-146 | a number is taken exactly when its day has come that far |
| CheckIn.DayIsOneToN | backend/src/gate/gate.service.ts:33-52 | a day's numbers are exactly 1 to n |
| CheckIn.NumbersDistinct | backend/src/gate/gate.service.ts:33-52 | no number is given twice on any days |
| CheckIn.RunNumbered | backend/src/gate/gate.service.ts:64-152 | for every interleaving of check-ins each day's numbers run from 1 in order of creation if and only if all that is created is created on the plant day of its number |
| CheckIn.MidnightBreaksNumbering | backend/src/gate/gate.service.ts:33-52 | creation on another plant day than the number's breaks that |
| CheckIn.RunKeepsPlates | backend/src/gate/gate.service.ts:66-132 | in every run in which each reopening finds its plate free at most one open transaction exists for each stored plate |
| CheckIn.RunKeepsTrucks | backend/src/gate/gate.service.ts:55-132 | in such a run no two open transactions were typed with spellings of one plate |
| CheckIn.SpellingsBlock | backend/src/gate/gate.service.ts:76-101 | a truck inside blocks a check-in under every spelling of its plate |
| CheckIn.OtherFormsBlock | backend/src/gate/gate.service.ts:76-86 | so does one stored under the raw form or the string typed |
| CheckIn.ReopenKeepsOneEach | backend/src/transactions/operation-log-correction.service.ts:1059-1108 | a reopening leaves one active transaction a plate exactly when no other active one has the plate |
| CheckIn.ReopenHarmlessIff | backend/src/transactions/operation-log-correction.service.ts:1059-1108 | and stays harmless whatever calls follow exactly when no check-in under way is about to create one either |
| CheckIn.OneAttempt | backend/src/gate/gate.service.ts:137-146 | a number counted is taken at creation exactly when another check-in of the day came between |
| CheckIn.ReopenDoublesThePlate | backend/src/transactions/operation-log-correction.service.ts:1059-1108 | with it, two can |
| CheckIn.Gate.CheckIn | backend/src/gate/gate.service.ts:33-152 | with a clock reading for each number and for each creation, the retry loop gives up exactly when another check-in of the day came between in each of three attempts, else takes the next number of the day it read, and the numbering holds exactly when the row is created on that day |
| Sessions.RunRotates | backend/src/auth/auth.service.ts:233-338 | in every interleaving each stored hash is consumed by at most one successful refresh and never stored again |
| Sessions.SecondSwapFails | backend/src/auth/auth.service.ts:322-338 | of two calls that read one hash at most one succeeds |
| Sessions.ClearedUntilLogin | backend/src/auth/auth.service.ts:213-231 | once cleared, no refresh in flight succeeds until the next login |
| Sessions.StoredVerifiesIssued | backend/src/auth/auth.service.ts:173-338 | in every interleaving the stored hash verifies a token exactly when that is the one issued by the last event that stored a hash, login or refresh |
| Sessions.RefreshedAccepts | backend/src/auth/auth.service.ts:311-338 | after a refresh went through, the token it issued is accepted and every other is a mismatch |
| Sessions.ReplayRevokes | backend/src/auth/auth.service.ts:268-299 | after it, showing any token but the one issued ends with the session cleared, whatever comes in between |
| Sessions.VersionCountsClearings | backend/src/auth/auth.service.ts:213-299 | the token version counts exactly the clearings |
| Sessions.AuthService.LogIn | backend/src/auth/auth.service.ts:173-181 | stores a fresh hash |
| Sessions.AuthService.LogOut | backend/src/auth/auth.service.ts:213-231 | clears the hash and raises the version |
| Sessions.AuthService.SetPassword | backend/src/auth/auth.service.ts:476-488 | clears the hash and raises the version |
| Sessions.AuthService.ReadForRefresh | backend/src/auth/auth.service.ts:248-321 | accepts exactly a token the stored hash verifies; a mismatch goes on to revoke |
| Sessions.AuthService.Revoke | backend/src/auth/auth.service.ts:276-285 | clears the hash and raises the version, whatever is stored by then |
| Sessions.SessionOrigin | backend/src/auth/auth.service.ts:173-338 | through logins, refreshes and clearings in any order, the stored hash descends from a given login exactly when no login and no clearing came after it |
| Sessions.RevocationMeetsLaterLogin | backend/src/auth/auth.service.ts:268-299 | whatever events come between the mismatch and the clearing, the session it ends is the one a given login in between opened exactly when no login and no clearing came after that login |
| Sessions.OldMismatchEndsNewSession | backend/src/auth/auth.service.ts:268-299 | a run in which a mismatch against the first session ends the second |
| Sessions.AuthService.SwapForRefresh | backend/src/auth/auth.service.ts:322-338 | replaces the hash exactly when it is still the one read |
| CsvExport.ExportCsvStream | backend/src/reports/reports.service.ts:148-196 | batches of 500 emit the header and each row once, in order, for any length |
| CsvExport.ExportCsv | backend/src/reports/reports.service.ts:199-208 | the chunks joined and trimmed at the end |
| CsvExport.EscapedIsDoubled | backend/src/reports/reports.service.ts:150-156 | a field is written as the quoted doubling of the field with its formula prefix |
| CsvExport.NoFormulaWritten | backend/src/reports/reports.service.ts:150-156 | a written field is quoted and starts with none of the four formula characters |
| CsvExport.CellsUnderHeadings | backend/src/reports/reports.service.ts:131-190 | each cell stands under its heading, missing values as the source prints them |
| CsvExport.PrefixLoses | backend/src/reports/reports.service.ts:152-154 | two fields are written alike exactly when equal or when one is the other formula after an apostrophe |
| CsvExport.FieldRead | backend/src/reports/reports.service.ts:150-156 | a reader gets a written field back, prefix and all |
| CsvExport.StreamRoundTrip | backend/src/reports/reports.service.ts:148-196 | reading the stream gives the header and every cell in order |
| CsvExport.FileRoundTrip | backend/src/reports/reports.service.ts:199-208 | trimming drops the final line break only, and the file reads back the same |

## Left out

- Roles, plant scope and segregation of duties: tests on the caller that settle in one branch, before anything modelled here.
- Attachments and the evidence attachment of a correction: their lineage is not gapless, because an upload may delete its own row.
- User ids, supersededAt, the ticket of who did what, the summaries on the correction header, correction numbers and item remarks: written, never read back by the protocol.
- Remarks that services append to the row's own remarks and delivery notes, and the wording of history notes and void reasons.
- Activity logs, notifications, response shapes, list and queue queries.
- The limit on the number of items of a correction and other shape checks of the request classes, except those a proof needs.
- Record ids: a record is named by its table and its place in it. Every query filters on the transaction, so one transaction is modelled at a time.
- A read half is one snapshot, though some services read a record after the row; the second read only feeds guards shown never to fire.
- The order of weighbridge records in an unordered query is a parameter of the correction; it matters only to items that name no record.
- Number, String, Date and JSON conversions, and which values the database client takes for a column, are parameters; results hold for any.
- Weights are reals and times integers; the percentage kept with a fraud check is implied by its other columns.
- Retention: invalid creation dates, and deletion file by file; any subset of the marked backups may fail to be deleted.
- Restore.Server.RestoreDatabase: password, signature and manifest tests are one condition on entry; concurrent writes to the database and kills of the restore program after its commit are not modelled.
- Restore: directories are not modelled; a step that fails on one is a failing step.
- PlantDay: instants before 1970 or after the year 9999.
- Plates: characters beyond ASCII.
- CheckIn: hash collisions of the advisory lock only make more calls wait, and a database without such locks is not modelled.
- Sessions: inactive users, account lockout, expiry and signing of tokens.
- CsvExport: the table does not change while pages are read and its order is total; dates and numbers arrive printed.
- Dashboards, PDF reports, user administration, client stores and views, deployment scripts.
