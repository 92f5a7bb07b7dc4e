# Verified model of the accelerator's investigation engine

The accelerator lets language models prepare decision packages: an investigation run is driven by
budgeted provider calls, an executor that can be superseded at any time, a verifier whose report
gates the final status, and a worker pool that leases runs. Beside it stand a discovery loop that
repairs drafts field by field, a wire codec for source references, the optimistic adoption of
suggested field texts into shared objects, and an append-only evidence log. This project models
those parts in Dafny and proves what holds of them over every input, every interleaving and every
run.

| files | subject |
|---|---|
| `EvidencePricing`, `EvidenceLedger`, `EvidenceCampaign` | the campaign budget: ceiling prices, the ledger as a state machine, the campaign object and its headroom search |
| `InvestigationPolicy`, `RunProtocol` | the READY gate, and the run as a protocol of executors, users and the pool |
| `InvestigationLoop`, `InvestigationExecutor` | routing, retries and termination of one executor's loop |
| `ExecutionDispatch` | generations, leases, claims, the reaper and the global capacity |
| `Json`, `SourceReferences` | JSON values and the short wire form of source references |
| `FieldPaths`, `FieldRepair` | printed paths of a draft and the targeted repair along them |
| `DiscoveryContract`, `DiscoveryVerdict`, `DiscoveryLoop`, `DiscoveryExamples` | the draft contract, the verifier's verdict, the bounded repair loop, and concrete accepted drafts |
| `CanonicalText`, `FieldAdoption`, `AdoptionDesk` | the text normal form, adoption as a protocol, and the service methods that refine it |
| `RecordLog` | the one-pass validator of the evidence log against its specification |

Every database transaction is one atomic step and a raised error leaves the state as it was; a
provider call is two steps, so crashes, takeovers and other transactions fall in between. Hashes
are modelled by the content they stand for. Answers of providers, tools, forms and clocks are
arbitrary: the results hold for all of them.

## Where the code gives less than one might expect

Each of these is proved, with the exact condition under which the stronger statement does hold.

- Settling an attempt checks spent plus reported usage but ignores what other attempts hold, so
  spent plus held can pass a limit (`OverreportingBreaksCommitment`); `SettleKeepsCommitment`
  says exactly when it does not.
- An amount protected during admission may miss the cost cap by one microunit afterwards, because
  it is rounded separately, and the protected attempt's provider call is not protected at all
  (`ProtectedAttemptAdmitted`, `SplitSlackIsTight`).
- The transaction that records a verifier report checks no executor token. After a takeover the
  report can bind a package its verifier call never saw (`BindingNeedsOwnership`,
  `TakeoverApprovesUnseenPackage`). A report arriving after READY can contradict it: the policy
  goes on saying ready in every further history exactly if no superseded executor still holds an
  unreported verifier answer (`ReadyStandsExactly`), and fresh runs can come to that
  (`StragglerHistory`).
- Closing a failed call checks no token either, so a late failure of a superseded executor can
  leave a running run with two trailing failures of one role (`LateFailureReached`);
  `LateFailureExactly` says when it does not.
- A data check and an unspent budget are no conditions of READY (`ReadyExactly`).
- The targeted repair indexes whatever the proposal holds: a text answered in place of a list is
  read character by character (`AcceptedTextExactly`, `TextReadAsList`), and the repair is right
  for every proposal exactly if no key on a target's path is empty or holds a path delimiter
  (`RepairExactly`, `PathRoundTrip`, `DottedKeyGoesAstray`).
- Stage keys are compared stripped but kept as written, so the recommended focus may repeat no
  stage key letter by letter (`FocusNamesOneStage`, `FocusRepeatsNoKey`).
- A blocking clarification whose question is only whitespace puts an empty question to the human
  (`BlankQuestionExactly`, `EmptyQuestionAsked`).
- A bare carriage return, an empty line and a line feed are read as one line break
  (`BreakStyleIrrelevant`).

## Model

| member | source | states |
|---|---|---|
| EvidencePricing.CostMonotone | ki_radar/accelerator/investigation_evidence.py:263-282 | more tokens never have a smaller ceiling cost, for every complete nonnegative price basis |
| EvidencePricing.CostRoundsUp | ki_radar/accelerator/investigation_evidence.py:263-282 | the cost is the least whole number of microunits not below the exact price |
| EvidencePricing.ScalingCancels | ki_radar/accelerator/investigation_evidence.py:263-282 | pricing per million tokens in currency units and scaling back to microunits rounds the exact amount, so the two factors of a million cancel |
| EvidencePricing.CostSplit | ki_radar/accelerator/investigation_evidence.py:263-282 | two parts priced apart cost at least what they cost together and at most one microunit more |
| EvidenceLedger.ClampsNeverBite | ki_radar/accelerator/investigation_evidence.py:437-461 | the clamps at zero when a reservation is released never take effect in a conserved ledger |
| EvidenceLedger.LedgerConserved | ki_radar/accelerator/investigation_evidence.py:356-528 | after any interleaving of reservations, settlements, uncertain, abandoned and re-authorised attempts each counter equals the sum it stands for over the reservation rows, and no call is reserved twice |
| EvidenceLedger.SpentNeverExceedsLimits | ki_radar/accelerator/investigation_evidence.py:443-488 | spent calls, tokens and cost never pass the limits in force, in every reachable state and across every re-authorisation, whatever providers report |
| EvidenceLedger.SettleKeepsCommitment | ki_radar/accelerator/investigation_evidence.py:443-488 | an accepted settlement keeps spent plus held inside the limits if and only if its overrun fits the headroom left by the other reservations |
| EvidenceLedger.CommittedNeverExceedsLimits | ki_radar/accelerator/investigation_evidence.py:285-320 | if no attempt reports more than it reserved, spent plus held never passes the limits, over all runs |
| EvidenceLedger.OverreportingBreaksCommitment | ki_radar/accelerator/investigation_evidence.py:420-507 | where two attempts hold a whole budget half each, settling one at the full input budget is accepted and leaves spent plus held above the limit, for every budget |
| EvidenceLedger.HeadroomAdmits | ki_radar/accelerator/investigation_evidence.py:285-320 | an attempt that fits together with protected amounts is always reserved without them, at its own cost |
| EvidenceLedger.ProtectedAmountsSurvive | ki_radar/accelerator/investigation_evidence.py:263-353 | after an admission beside protected amounts the protected tokens still fit exactly, and the cost passes the cap by at most one microunit |
| EvidenceLedger.ProtectedAttemptAdmitted | ki_radar/accelerator/investigation_evidence.py:263-353 | the protected attempt is then admitted if and only if two provider calls remain and both separately rounded costs fit the cap |
| EvidenceLedger.SplitSlackIsTight | ki_radar/accelerator/investigation_evidence.py:263-282 | the slack of one microunit occurs |
| EvidenceCampaign.Campaign.ReserveProviderAttempt | ki_radar/accelerator/investigation_evidence.py:356-417 | rewriting the campaign counter by counter is the ledger's reservation step, with the same refusals and the existing row for a repeated call |
| EvidenceCampaign.Campaign.SettleProviderAttempt | ki_radar/accelerator/investigation_evidence.py:420-507 | releasing first and adding afterwards is the ledger's settlement step, and a failing check leaves the campaign as it was |
| EvidenceCampaign.Campaign.MarkProviderAttemptUncertain | ki_radar/accelerator/investigation_evidence.py:510-528 | an open attempt becomes uncertain and keeps what it holds; any other stays |
| EvidenceCampaign.Campaign.AuthorizeCampaignContinuation | ki_radar/accelerator/investigation_evidence.py:191-260 | new limits are accepted only above everything spent or held, and never drop an active cost cap |
| EvidenceCampaign.Campaign.MaxReservableOutputTokens | ki_radar/accelerator/investigation_evidence.py:323-353 | every size from one to the bound fits beside the protected amounts if and only if it is at most the result |
| EvidenceCampaign.Campaign.ReserveModelCall | ki_radar/accelerator/investigation_llm.py:962-1060 | a call is admitted with the largest size the campaign and its own cap allow, its reservation is never refused, and a refusal happens exactly below the minimum and names the missing capacity |
| InvestigationPolicy.PreVerifierExact | ki_radar/accelerator/investigation_policy.py:106-132 | there is no deterministic blocker if and only if the package is acceptable and its question was not narrowed |
| InvestigationPolicy.VerifierExact | ki_radar/accelerator/investigation_policy.py:135-155 | there is no verification blocker if and only if the latest report approves exactly the current package |
| InvestigationPolicy.ReadyExactly | ki_radar/accelerator/investigation_policy.py:162-205 | the policy says ready if and only if no evidence gap is proven, the package is acceptable and the latest report approves exactly it |
| InvestigationPolicy.CollectCheckBlockers | ki_radar/accelerator/investigation_policy.py:114-127 | the accumulated findings of one claim are its blockers |
| InvestigationPolicy.CollectPreVerifierBlockers | ki_radar/accelerator/investigation_policy.py:106-132 | the accumulated list holds exactly the blockers of brief, register, claims, question and relevance |
| RunProtocol.StepKeepsInv | ki_radar/accelerator/investigation_runtime.py:709-722 | every step of every executor, superseded or not, of users and of the pool keeps the protocol invariant |
| RunProtocol.InvReachable | ki_radar/accelerator/investigation_runtime.py:709-722 | the protocol invariant holds after every history |
| RunProtocol.ReadySound | ki_radar/accelerator/investigation_loop.py:121-145 | in every history the package of a READY run is acceptable and without a proven gap, and its latest successful stored report binds exactly it, with no critical finding, valid references and every critical evidence claim checked; if that report was recorded while its executor owned the run, its verifier call saw exactly this package |
| RunProtocol.ReadyIsFinal | ki_radar/accelerator/investigation_loop.py:121-145 | nothing changes status, package, generation or approving report of a READY run |
| RunProtocol.ReadyNeedsReviewedPackage | ki_radar/accelerator/investigation_policy.py:135-155 | without a fresh report READY is reachable only with exactly the package the latest report binds |
| RunProtocol.BindingNeedsOwnership | ki_radar/accelerator/investigation_llm.py:1488-1530 | a report binds what its verifier call saw, whatever other executors do first, if and only if its executor still owns the run |
| RunProtocol.ReadyStandsExactly | ki_radar/accelerator/investigation_llm.py:1488-1530 | from a READY run the policy says ready in every further history if and only if no superseded executor holds an unreported verifier answer |
| RunProtocol.StragglerContradictsReady | ki_radar/accelerator/investigation_llm.py:1488-1530 | otherwise a failing report can be appended, against which the policy no longer says ready |
| RunProtocol.StragglerReached | ki_radar/accelerator/investigation_runtime.py:1031-1042 | from every state that may start a verifier call on an acceptable package and has a second one left, a takeover leads to READY with such an executor |
| RunProtocol.StragglerHistory | ki_radar/accelerator/investigation_runtime.py:802-1042 | every fresh run with two model and two verifier calls has a history to READY and on to a contradicting report |
| RunProtocol.TakeoverApprovesUnseenPackage | ki_radar/accelerator/investigation_runtime.py:1031-1042 | from every state in which a verifier call may start, one takeover before its report suffices to make an acceptable package READY that the verifier never saw |
| InvestigationLoop.RoutingIsDisciplined | ki_radar/accelerator/investigation_loop.py:682-770 | routing asks the verifier only about packages without deterministic blockers, never again about a package a report still binds unless that call is retried, and stops repairing after two syntheses without new ground truth |
| InvestigationLoop.ClosedKeepsRouting | ki_radar/accelerator/investigation_llm.py:1142-1349 | closing a call keeps it true that every verifier call was made on an unblocked package |
| InvestigationLoop.ClosedTrailing | ki_radar/accelerator/investigation_loop.py:274-289 | a closed call raises the trailing failures of its own role by one or resets them, and leaves other roles' alone |
| InvestigationLoop.LateFailureExactly | ki_radar/accelerator/investigation_llm.py:1064-1088 | a failed call closed late keeps every role at one trailing failure if and only if its role had none or has succeeded since |
| InvestigationLoop.LateFailureReached | ki_radar/accelerator/investigation_llm.py:1064-1088 | from every state with two calls of a role to spend, a takeover during a call leads to a running run with two trailing failures of that role |
| InvestigationLoop.SupersededDisturbs | ki_radar/accelerator/investigation_llm.py:1064-1530 | whatever a superseded executor does, it reserves no call, writes no package and decides nothing; it can only close its own calls, append a report or stop |
| InvestigationLoop.RoutedReachable | ki_radar/accelerator/investigation_loop.py:321-354 | over every history of takeovers, users and the pool in which each owner asks the verifier only about unblocked packages and writes a package only after another role's call, every verifier call was made on a package without deterministic blockers |
| InvestigationLoop.SuccessorStartsRouted | ki_radar/accelerator/investigation_runtime.py:1031-1112 | after every such history a recovering or continuing executor starts in the middle of nothing and on such a call log, whatever the retry counts are |
| InvestigationExecutor.Executor.CallProvider | ki_radar/accelerator/investigation_llm.py:1142-1349 | while superseded executors go on, exactly one call of the role is appended when the provider was asked, none when the budget refused, and the outcome is the call's status |
| InvestigationExecutor.Executor.HandleProviderFailure | ki_radar/accelerator/investigation_loop.py:357-415 | the run fails if and only if the code is not transient or the role failed twice in a row; otherwise, if the other roles had at most one trailing failure, every role has |
| InvestigationExecutor.Executor.ReadForVerifier | ki_radar/accelerator/investigation_runtime.py:2184-2436 | a repeated read is served again, a new one spends the read budget, and a spent budget is refused without any change |
| InvestigationExecutor.Executor.RequestVerifierReport | ki_radar/accelerator/investigation_llm.py:1533-1643 | the loop of read requests ends with the call budget, each round is one verifier call on the unblocked, unchanged package, and a spent read budget counts as a refused call |
| InvestigationExecutor.Executor.StorePackage | ki_radar/accelerator/investigation_runtime.py:1812-1896 | what is stored is the synthesized register, brief and relevance |
| InvestigationExecutor.Executor.RecordActionStateRepeat | ki_radar/accelerator/investigation_loop.py:488-513 | the counter grows exactly when the same action is proposed in the same state, starts at one otherwise and is cleared by an unguarded action |
| InvestigationExecutor.Executor.GoReady | ki_radar/accelerator/investigation_loop.py:121-145 | READY is set under a fresh evaluation, and is blocked only if the policy did not say ready or a superseded executor reported in between |
| InvestigationExecutor.Executor.AdvanceInvestigation | ki_radar/accelerator/investigation_loop.py:682-926 | from every idle state with a routed call log and while superseded executors go on, an iteration obeys the routing - the first call it makes has the routed role, READY only where the policy says so - and leaves the run RUNNING only after spending a model call; the retry and repeat bounds, where they held, still hold unless a superseded executor's call was closed meanwhile |
| InvestigationExecutor.Executor.RunUntilBoundary | ki_radar/accelerator/investigation_loop.py:929-968 | from every such state the loop ends, in a status other than RUNNING or with an exception, and the iteration guard is reached only if it does not exceed the remaining model calls; with at most 40 calls the default guard of 64 never is |
| ExecutionDispatch.InvReachable | ki_radar/accelerator/investigation_execution.py:41-192 | every history of requests, claims, renewals, failures, waits, continuations, recoveries, aborts and clock ticks keeps the dispatch invariant |
| ExecutionDispatch.CapacityRespected | ki_radar/accelerator/investigation_execution.py:71-107 | in every reachable state at most two runs execute under a live lease |
| ExecutionDispatch.OneWorkerPerGeneration | ki_radar/accelerator/investigation_execution.py:71-180 | no history hands one generation of a run to two workers, and another worker's renewal or failure of it is refused |
| ExecutionDispatch.GenerationsGrowForever | ki_radar/accelerator/investigation_execution.py:41-180 | no history lowers a run's generation |
| ExecutionDispatch.RequestedIsClaimable | ki_radar/accelerator/investigation_execution.py:41-68 | a request that takes effect, and a continuation after a human answer, leave the run waiting under an unclaimed generation |
| ExecutionDispatch.LeasePeriod | ki_radar/accelerator/investigation_execution.py:71-180 | a claim makes the worker the owner, and its heartbeat is accepted if and only if thirty seconds have not passed, after which the run may be ended |
| ExecutionDispatch.LapsedForever | ki_radar/accelerator/investigation_execution.py:110-122 | a lapsed lease stays lapsed for its generation through every further history |
| ExecutionDispatch.ExpiryIsFinal | ki_radar/accelerator/investigation_execution.py:183-192 | between the reaper's snapshot and its re-check an expired lease cannot be revived, and the re-check spares a run exactly when that generation has ended otherwise |
| ExecutionDispatch.Dispatcher.RequestExecution | ki_radar/accelerator/investigation_execution.py:41-68 | a request is queued once per generation and refused for runs that are not dispatched |
| ExecutionDispatch.Dispatcher.ClaimExecution | ki_radar/accelerator/investigation_execution.py:71-107 | the earliest request is claimed, and nothing is claimed exactly when the pool is full or nothing waits |
| ExecutionDispatch.Dispatcher.RenewExecution | ki_radar/accelerator/investigation_execution.py:110-122 | a lease is extended only for its worker, its generation and before it expires |
| ExecutionDispatch.Dispatcher.FailExecution | ki_radar/accelerator/investigation_execution.py:125-180 | only the owner's generation is ended, and with the expiry flag only after the lease has run out |
| ExecutionDispatch.Dispatcher.ReapExecutions | ki_radar/accelerator/investigation_execution.py:183-192 | exactly the runs with an expired lease are ended, all others stay |
| Json.DecimalInjective | ki_radar/accelerator/investigation_llm.py:616-621 | different numbers have different numerals, on which handles and printed indices rest |
| SourceReferences.CatalogHandlesDistinct | ki_radar/accelerator/investigation_llm.py:616-621 | the handles of a catalog are pairwise different |
| SourceReferences.RoundTripExactly | ki_radar/accelerator/investigation_llm.py:624-664 | expanding a compacted value restores it if and only if the handle key occurs at most inside locators of catalogued references |
| SourceReferences.ExpandedIsClean | ki_radar/accelerator/investigation_llm.py:642-664 | everything the decoder accepts decodes to such a value |
| SourceReferences.CompactLeavesNone | ki_radar/accelerator/investigation_llm.py:624-639 | compacting leaves no catalogued full reference anywhere outside locators |
| SourceReferences.DecodedIsStable | ki_radar/accelerator/investigation_llm.py:616-664 | accepted packages survive further trips over the wire unchanged |
| FieldPaths.PathRoundTrip | ki_radar/accelerator/architect_service.py:489-535 | splitting a printed path gives its segments back if and only if no key on it is empty or holds a path delimiter |
| FieldPaths.WalkExactly | ki_radar/accelerator/architect_service.py:489-507 | the walk collects exactly the printed paths of texts below no bookkeeping key |
| FieldPaths.PrintedPathsAreUnique | ki_radar/accelerator/architect_service.py:489-507 | no two places of a draft reached by clean keys print the same path |
| FieldRepair.AcceptedTextExactly | ki_radar/accelerator/architect_service.py:531-547 | an accepted text is the proposal's own value at that path if and only if the proposal has that place |
| FieldRepair.TextReadAsList | ki_radar/accelerator/architect_service.py:531-547 | wherever a draft holds a list, a text the proposal holds there is accepted and read character by character |
| DiscoveryExamples.RolesReadFromText | ki_radar/accelerator/architect_service.py:531-547 | this happens to the roles of a draft and a proposal that both meet the contract |
| FieldRepair.RepairUnique | ki_radar/accelerator/architect_service.py:531-547 | at most one value has the base's shape, the proposal's texts at the targets and the base's texts elsewhere, so the order of targets is irrelevant |
| FieldRepair.BookkeepingUntouched | ki_radar/accelerator/architect_service.py:489-547 | keys, schema versions and evidence references, with everything below them, survive every repair |
| FieldRepair.RepairExactly | ki_radar/accelerator/architect_service.py:531-547 | the repair is right for every proposal - it succeeds exactly when the proposal offers every targeted text, and then equals the proposal at the targets and the base elsewhere, in the base's shape - if and only if the keys on the targets' paths are clean |
| FieldRepair.DottedKeyGoesAstray | ki_radar/accelerator/architect_service.py:531-547 | anywhere in a draft, the path printed for a key made of two names around a dot is repaired at the two names, whose field is overwritten or added |
| DiscoveryExamples.DottedFactGoesAstray | ki_radar/accelerator/architect_service.py:531-547 | this happens to a fact of a draft that meets the contract: the named field stays and a field the draft never had appears |
| FieldRepair.ApplyDiscoveryFieldRepair | ki_radar/accelerator/architect_service.py:531-547 | the loop patches all targets one after the other or fails at one of them without a result |
| FieldRepair.RepairFieldTargets | ki_radar/accelerator/architect_service.py:514-528 | the targets are all fields named by findings if every finding names one, and none otherwise |
| DiscoveryContract.ValidateStages | ki_radar/accelerator/architect_contract.py:633-688 | no complaint if and only if there are one to twelve stages, each complete, gaplessly numbered and uniquely keyed, and the focus names one of them |
| DiscoveryContract.ValidateRefs | ki_radar/accelerator/architect_contract.py:522-528 | no complaint if and only if every reference is an allowed source |
| DiscoveryContract.ValidateLists | ki_radar/accelerator/architect_contract.py:690-752 | no complaint if and only if all statements cite allowed sources, contradictions cite two, and strategic clarifications are typed |
| DiscoveryContract.ValidateDiscoveryPayload | ki_radar/accelerator/architect_contract.py:562-757 | no complaint if and only if the draft meets every part of the contract, the language and number checks included |
| DiscoveryContract.FocusNamesOneStage | ki_radar/accelerator/architect_contract.py:633-667 | the focus of an accepted draft designates exactly one stage, and repeats its key literally if and only if that key is a text without outer whitespace |
| DiscoveryExamples.FocusRepeatsNoKey | ki_radar/accelerator/architect_contract.py:633-667 | a concrete draft is accepted whose focus repeats no stage key literally |
| DiscoveryVerdict.ValidateVerifierPayload | ki_radar/accelerator/architect_contract.py:760-809 | no complaint if and only if the verdict is acceptable: seven flags, an approval with all of them set and no finding, a repair with instructions, a wait with a question |
| DiscoveryVerdict.EnforceMethodology | ki_radar/accelerator/architect_contract.py:227-239 | server findings turn any verdict into a repair and are kept behind the verifier's; without findings the verdict stays |
| DiscoveryVerdict.ApprovalSurvivesExactly | ki_radar/accelerator/architect_contract.py:145-166 | an approval stays one if and only if no clarification blocks and no required scope field of a strategic draft is blank |
| DiscoveryVerdict.BlankQuestionExactly | ki_radar/accelerator/architect_contract.py:134-166 | for every draft, the question put to the human in place of an approval is empty if and only if the scope question does not come first and the first blocking clarification's question is nothing but whitespace |
| DiscoveryExamples.EmptyQuestionAsked | ki_radar/accelerator/architect_contract.py:134-166 | a concrete accepted draft turns every approval into an empty question |
| DiscoveryLoop.ProviderCall | ki_radar/accelerator/architect_service.py:367-447 | a second attempt is made exactly after a first timeout, and the last attempt decides |
| DiscoveryLoop.ReviewRound | ki_radar/accelerator/architect_service.py:779-851 | at most one review is requested, exactly where it is due; no finding is lost, and a verdict other than repair is the verifier's own on a draft the server accepts |
| DiscoveryLoop.RepairRound | ki_radar/accelerator/architect_service.py:867-916 | the next draft is the proposal, or the draft with exactly the named fields replaced |
| DiscoveryLoop.ExecuteDiscovery | ki_radar/accelerator/architect_service.py:766-939 | for every behaviour of the provider: a stored result rests on an accepted draft and its verifier's own verdict, each draft comes from the one before, at most four rounds, eight calls and sixteen attempts |
| DiscoveryLoop.SuccessMeans | ki_radar/accelerator/architect_service.py:917-939 | a success has passed the contract, has no language finding, all seven checks true, no verifier finding and no blocking clarification |
| CanonicalText.CanonicalizeIsCanonical | ki_radar/accelerator/candidate_snapshot.py:41-53 | the result has no carriage return, no line ending in a blank or tab, no outer whitespace, and is composed |
| CanonicalText.FixedExactly | ki_radar/accelerator/candidate_snapshot.py:41-53 | a text is its own canonical form if and only if it has these properties |
| CanonicalText.CanonicalizeIdempotent | ki_radar/accelerator/candidate_snapshot.py:41-57 | canonicalising twice changes nothing, so the hash of a raw value is the hash of its stored canonical form |
| CanonicalText.VisibleTextKept | ki_radar/accelerator/candidate_snapshot.py:41-53 | nothing but whitespace is lost: the visible characters of the result are those of the composed text |
| CanonicalText.BreakStyleIrrelevant | ki_radar/accelerator/candidate_snapshot.py:48-51 | lines read the same however their breaks are written, if and only if no bare carriage return precedes an empty line that ends in a bare line feed |
| CanonicalText.OneFormForAllStyles | ki_radar/accelerator/candidate_snapshot.py:41-53 | texts that differ only in their break styles have one canonical form, provided neither writes a bare carriage return before an empty line that ends in a bare line feed |
| FieldAdoption.CanonIsIdempotent | ki_radar/accelerator/candidate_snapshot.py:41-57 | the text normal form has the one property adoption relies on |
| FieldAdoption.VerdictsDecode | ki_radar/accelerator/adoption_service.py:121-179 | on every completion path the stored status and error code decode to the outcome first returned |
| FieldAdoption.StepKeepsInv | ki_radar/accelerator/candidate_state.py:34-99 | each call keeps the adoption invariant: one open candidate per field, none left processing, exactly one agreeing audit per finished candidate |
| FieldAdoption.InvReachable | ki_radar/accelerator/adoption_audit.py:30-69 | the invariant holds over every interleaving of creating, adopting, rejecting and foreign edits |
| FieldAdoption.AdoptsExactly | ki_radar/accelerator/adoption_service.py:276-422 | a call adopts if and only if candidate, action, target and permission allow it, the field reads as in the snapshot, and the text already stands there or passes the form |
| FieldAdoption.RejectsExactly | ki_radar/accelerator/adoption_service.py:460-535 | a call rejects an open candidate if and only if it is intact and its target valid and editable, whatever the field reads, and no call of rejection changes a target |
| FieldAdoption.OutcomesNameTheirCause | ki_radar/accelerator/adoption_service.py:37-49 | every answer to a first adoption names a cause that holds, a conflict only for a field that reads otherwise than the snapshot |
| FieldAdoption.NoLostUpdate | ki_radar/accelerator/adoption_service.py:276-422 | only an adoption changes a target, only in its own field, only from the snapshot's text and only to the form's version of the requested text; it ends as adopted, never at high uncertainty and at medium only edited |
| FieldAdoption.SnapshotWasReal | ki_radar/accelerator/candidate_snapshot.py:118-180 | every candidate goes back to one creation of the run, proposes the canonical text of a suggestion made there, and its snapshot is what its field read at that moment |
| FieldAdoption.AdoptionReplacesWhatWasSeen | ki_radar/accelerator/adoption_service.py:328-410 | over whole runs, an adoption that changes a field finds it reading as when the candidate was made |
| FieldAdoption.FinishedIsFinal | ki_radar/accelerator/candidate_state.py:52-99 | a finished candidate stays as it is through every further run, except that a conflict may become rejected |
| FieldAdoption.AdoptionReplays | ki_radar/accelerator/adoption_service.py:121-187 | after any further run, repeating an adoption changes nothing and answers as the first call did, unless a conflict was discarded |
| FieldAdoption.RejectionReplays | ki_radar/accelerator/adoption_service.py:460-535 | after any further run, repeating the first rejection of an open candidate changes nothing and answers as it did |
| FieldAdoption.DiscardsExactly | ki_radar/accelerator/adoption_service.py:425-457 | a conflict is discarded if and only if its field is adoptable and its target gone or editable, and a refused discard changes nothing |
| FieldAdoption.DiscardReplays | ki_radar/accelerator/adoption_service.py:425-457 | after any further run, repeating an effective discard changes nothing and answers the same |
| AdoptionDesk.Desk.ReserveCandidate | ki_radar/accelerator/candidate_state.py:34-49 | only an open candidate is taken, and taking it is all that happens |
| AdoptionDesk.Desk.CompleteCandidate | ki_radar/accelerator/candidate_state.py:52-73 | completion takes effect for the reserving actor only, and repeating it is accepted without effect |
| AdoptionDesk.Desk.RecordAdoptionAudit | ki_radar/accelerator/adoption_audit.py:11-69 | the first audit of a candidate stays |
| AdoptionDesk.Desk.AdoptFieldCandidate | ki_radar/accelerator/adoption_service.py:276-422 | reserving, deciding, writing, completing and auditing step by step is the protocol's adoption step, rollback included |
| AdoptionDesk.Desk.RejectFieldCandidate | ki_radar/accelerator/adoption_service.py:460-535 | the same for a rejection |
| AdoptionDesk.Desk.DiscardConflictCandidate | ki_radar/accelerator/adoption_service.py:425-457 | a conflict is discarded only by someone who may edit the target, if it still exists |
| AdoptionDesk.Desk.CreateAdoptionCandidates | ki_radar/accelerator/candidate_snapshot.py:118-180 | the loop that supersedes and creates is the protocol's creation step, and one unusable suggestion undoes the whole batch |
| RecordLog.AppendExactly | ki_radar/accelerator/ap4_evidence.py:478-519 | a record may follow a valid log if and only if its id is new and it opens its case and path or repairs the latest record there |
| RecordLog.PrefixClosed | ki_radar/accelerator/ap4_evidence.py:478-519 | every prefix of a valid log is valid |
| RecordLog.ValidateRecordUniqueness | ki_radar/accelerator/ap4_evidence.py:478-519 | the one pass accepts a log if and only if ids are unique and each case and path is one linear chain, and otherwise names the first offending record with its reason |
| RecordLog.RecordFile.AppendRecord | ki_radar/accelerator/ap4_evidence.py:522-536 | a record is appended if and only if the extended log is valid, and a refused one leaves no trace |
| RecordLog.CurrentAutonomousRecords | ki_radar/accelerator/ap4_evidence.py:667-675 | the result holds, in order of first appearance, the end of each case's autonomous chain |
| RecordLog.TipExactly | ki_radar/accelerator/ap4_evidence.py:495-519 | in a valid log the current record of a case and path is exactly the one no repair names |

## Left out

- Permissions, object-relational mapping, row and advisory locks: each transaction is one atomic step, and who may act is an input.
- Decimal rounding at 28 digits, infinite prices and prices that are not numbers: prices are exact rationals; reported cost is a whole number of microunits, and currency and price version are one flag.
- The run's token, time and tool budgets, timeout allocation and minimum completion sizes: in the executor they are refusals that may come at any time; the call counters are exact.
- Brief findings and proven evidence gaps: attributes of the brief's content, because the tool results they read never change.
- Executor tokens are identified with generations; within one generation the executor works sequentially, as its lease and the in-process loop provide.
- EvidenceCampaign.Campaign.ReserveModelCall: covers sizing and reservation under the campaign lock; the run's own call counters are in RunProtocol, its token and time budgets are refusals that may come at any time.
- InvestigationExecutor.Executor.AdvanceInvestigation: covers the owner of a run beside any number of superseded executors; an owner that is itself superseded in an iteration stops with an exception at its next write, and its successor starts where SuccessorStartsRouted says.
- InvestigationExecutor.Executor.ReadForVerifier: invalid parameters, a changed process, spent retries and a failing reader may occur at any read; a retried step is logged as a new one.
- InvestigationExecutor.Executor.CallProvider: error codes outside the handled set leave the iteration as an exception, so the retry bound is stated for the handled codes.
- Content of prompts, schemas and answers beyond what routing and policy read; provider transport, logging, diagnostics and markdown.
- ExecutionDispatch.Dispatcher: waiting, finishing, continuing, recovering and aborting a run are events of the dispatch protocol but not methods of the class; request times are not unique, ties are broken arbitrarily.
- DiscoveryContract.ValidateDiscoveryPayload: language and number checks are uninterpreted functions of the draft, complaint texts are reduced to their path, JSON numbers are whole, and values on which set membership breaks off count as a complaint.
- DiscoveryLoop.ExecuteDiscovery: the two input-size checks may refuse at any time; the order of targets, the prompts and the stored diagnostics are not modelled; joining instructions that are no text breaks the analysis off.
- FieldRepair.ApplyDiscoveryFieldRepair: models the deep copy by values, so aliasing inside a draft does not arise; reading an index is any parser that reads decimal numerals, and the word characters of the target search are a parameter.
- Inherited evidence references and the order of assertions in the verifier's view of a draft.
- CanonicalText.Canonicalize: Unicode composition is a parameter with the properties of normalisation form C that are used; a missing value is the empty text.
- FieldAdoption.AdoptReply: form preparation, field registry, validity of analysis and session, and integrity of the candidate are inputs of each call; the values an audit copies from other rows and the disabled feature flag are not modelled.
- RecordLog.RecordFile.AppendRecord: normalisation of records, file hashing, source packs and the summary statistics are not modelled; the log is the sequence of normalised records.
- Benchmarks, views, administration, demos, exports and the advisor matrix, which would only add easy members.
