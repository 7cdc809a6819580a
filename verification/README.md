# Jade delivery: a verified model

Jade delivers configuration changes into a customer's JD Edwards DEV system. A change is proposed, approved by a
person, and applied item by item by agents or persons; every attempt may crash, time out, go stale, finish late or be
settled by a reconciliation, while approvals expire, roles are revoked and designs are revised. This project models
that protocol, the driver that applies items through forms a server returns, the store underneath, and two
versioned-settings machines, and proves what they promise.

| module | models |
|---|---|
| `Blocks` | one attempt block: attempts, outcomes, staleness, reconciliation, and a target system beside it |
| `Changes` | the change record, the item and observation language, the approval gate |
| `Protocol` | every act of approval, delivery, testing, reconciliation and the technical pipeline, interleaved |
| `Safety`, `Delivery`, `Pipeline` | the invariant over all runs, and the theorems that follow from it |
| `Ungated` | what is stored under the lock without the check that was made before it |
| `Desk` | the stored record as a class whose methods update it in place, each one act of the protocol |
| `Runner`, `RunnerOrder` | the agents' loop over the items, with everybody else acting between its steps, and what a run promises |
| `AisForms`, `AisGuard` | reading untrusted forms, the form map and the request guard |
| `AisPlan`, `AisDriver`, `AisCases` | what the form driver asks for, the driver against any server, and forms on which an item goes wrong |
| `ConfigItems`, `ChangeSets`, `Targets` | normalising a proposed item and a set, and the target texts |
| `Store`, `Evidence` | joined transactions, the hash-chained log, and how ledger and log agree |
| `PgSql`, `AdvisoryLock` | the placeholder translator and the lease-style lock |
| `Profile`, `Packs`, `Toolset` | connection activation, Start-up Packs, and the tools a run exposes |

How the model is built:

- A transaction under the change's lock is one step. A step is a total function; where the program raises, its
  transaction rolls back, and the step returns the state it was given. A run is any finite sequence of steps, and the
  theorems quantify over all of them.
- A caller that checks something before it takes the lock is two steps. The first leaves an intent, the second uses
  it, at any later time and in any world. Intents are never withdrawn, so every number of concurrent callers is covered.
- Clocks, role databases, scope, catalogue and design are one `World` value per step, chosen freely.
- Where the source updates fields or loops, the project has a class or a method with a loop, proved against the
  functions the theorems are about. `Desk.ChangeDesk` performs every act of the protocol in place: acts that only look,
  and acts that append an attempt behind their checks, share one method each; the others have their own.
- What a run of the agents or of the form driver does is a function of the state it finds and of what the world
  answers; the methods are proved to do exactly that, and the promises are theorems about the function.
- Assumptions are stated as predicates: the hash is injective and its output contains no brace and is never the mark of
  the first entry (`Evidence.Proper`, which `Evidence.ProperDigestExists` shows can be met), ids are fresh, and time
  never goes backwards in the lock (`Tick`).

What the proofs found about the code, kept as it is and stated exactly:

- A test result may be recorded on a technical package that is neither built nor activated
  (`Pipeline.TestResultSkipsTheBuild`, `Pipeline.VerificationOrderExactly`).
- A person's recording is stored without running the gate again under the lock (`Ungated.StoringIsGatedExactly`,
  `Ungated.StoredAfterInvalidation`). The documentation of the delivery gate says that every recorded step calls it
  again inside the lock (mcp_server/jde_mcp_server/approval.py:370-374).
- So is a CNC activation (`Ungated.ActivationIsGatedExactly`, `Ungated.ActivatedAfterInvalidation`), although the gate
  is documented to be derived again inside the lock (mcp_server/jde_mcp_server/technical_gate.py:19-24).
- A form may report its OK control under another permitted title too, and then a press of that title is a press of OK:
  an item can be reported as not sent although OK was pressed (`AisDriver.OkIsPressedEarlyExactly`,
  `AisCases.NotSentAndPressed`).
- Two approved fields may resolve to one control, and then only the last value remains, over an added row's key as well
  (`AisPlan.ApprovedValuesRemainExactly`, `AisCases.OverwrittenWhenApplied`).
- Target texts neither tell all items apart nor bring together all texts of one row (`Targets.TargetIsSharedExactly`,
  `Targets.AlikeTargetsExactly`, `AisCases.OneTypeTwoTargets`).
- Whether a verification needs an activation is read when it is checked and not again under the lock
  (`Ungated.VerifiedWithoutActivation`).
- A payload may override the hash fields of its evidence entry, which then does not verify
  (`Evidence.CaptureVerifiesExactly`).
- An evaluation made before a disable can be stored after it (`Profile.EnabledOnFreshExactly`,
  `Profile.SavedAndRevived`); the documentation of the disable says that re-enabling needs a fresh test
  (api_service/jde_api_service/discovery/profile_service.py:537-539).
- A check of the connection is stamped with the settings of the moment it is recorded (`Profile.StampsAreRightExactly`,
  `Profile.OvertakenCheckPasses`).
- Unassigning a role lets assignment versions start again (`Packs.StaleVersionPassesExactly`,
  `Packs.UnassignReusesVersions`).
- An inner transaction whose raise is caught is not undone (`Store.HandlersSeeUndoneExactly`,
  `Store.InnerRaiseIsNotUndone`).

`dafny verify dfyconfig.toml` checks the whole project.

## Model

Sources are paths in the repository and lines.

| member | source | states |
|---|---|---|
| `Blocks.NoBlindRetry` | mcp_server/jde_mcp_server/execution.py:116-218 | In every run of begin, finish (late or repeated), record, reconcile and restart, the attempts of a block number at most one more than its current closes as not_sent plus its reconciliations as not_applied or not_run, and one of those two events lies between any two attempts. |
| `Blocks.AtMostOneEffect` | mcp_server/jde_mcp_server/execution.py:168-187 | With a target system in which any begun attempt may act at any time, at most one ever does, in every run that reports only effectless attempts as not_sent, not_applied or not_run. |
| `Blocks.UntrueReportAllowsTwoEffects` | mcp_server/jde_mcp_server/execution.py:471-505 | The proviso is needed: for every kind that is reconciled, one untrue not_applied report lets a second attempt act. |
| `Blocks.DivergedIsFinal` | mcp_server/jde_mcp_server/execution.py:182-187 | From a diverged block no sequence of steps changes the state or adds an attempt. |
| `Blocks.LateFinishIsConservative` | mcp_server/jde_mcp_server/execution.py:182-187 | A finish that finds its attempt but is not current leaves the block in unknown, or in diverged where it already was. |
| `Blocks.UnknownWaitsForReconciliation` | mcp_server/jde_mcp_server/execution.py:84-113 | From unknown only a reconciliation moves a block on: any run without one keeps the state and appends nothing. |
| `Blocks.AppliedIsWithdrawnExactly` | mcp_server/jde_mcp_server/execution.py:179-187 | `applied` is not absorbing: of all steps, a further finish of any attempt of the block -- and nothing else -- withdraws it, to unknown. For every applied block. |
| `Blocks.AttemptsAreKept` | mcp_server/jde_mcp_server/execution.py:116-187 | No step removes, reorders or re-identifies an attempt; one is appended only to a ready block. |
| `Changes.PersonObservation` | api_service/jde_api_service/delivery/functional.py:201-238 | What a person's recording stores always shows the approved values; a live read decides alone, and without one a reference is required. |
| `Changes.Problems` | mcp_server/jde_mcp_server/binding.py:204-246 | No problem means: bound, never invalidated, and the story's current design is the one bound to; where asked, the before-state was known and the target still shows it. |
| `Changes.Snapshot` | mcp_server/jde_mcp_server/binding.py:106-157 | An approval is only ever given against an un-invalidated change whose design is, at that instant, the one it is bound to, of the same company, not under reassessment, and, for a package, the revision it was prepared for; row actions fit what was seen; and what was seen is what it is bound to. |
| `Protocol.BlockFollows` | mcp_server/jde_mcp_server/execution.py:67-72 | Each transaction of the whole protocol is at most one step of each attempt block, so what is proved of a block holds inside every interleaving. |
| `Protocol.NoBlindRetryAnywhere` | mcp_server/jde_mcp_server/execution.py:254-354 | The counting rule of no blind retry, for the write, build, test and every item of a change, under every interleaving of all callers. |
| `Protocol.AtMostOneEffectAnywhere` | mcp_server/jde_mcp_server/execution.py:254-354 | At most one effect per write and per item, under every interleaving of all callers that report truthfully. |
| `Safety.Safe` | mcp_server/jde_mcp_server/execution.py:67-72 | The combined invariant (deliveries show approved values, a recorded set is complete, pipeline order, fresh ids) holds after every sequence of acts from a proposed change. |
| `Safety.StepGrows` | mcp_server/jde_mcp_server/execution.py:282-303 | Deliveries, invalidations, a recorded activation and what callers saw only ever grow: the monotonicity on which checks made outside the lock rest. |
| `Delivery.DeliveredMeansApproved` | api_service/jde_api_service/delivery/functional.py:130-139 | In every reachable state each delivered item was seen with exactly its approved values, whoever delivered it and however. |
| `Delivery.AppliedSetIsComplete` | api_service/jde_api_service/delivery/functional.py:145-161 | A change set whose write counts as applied has every item delivered, although completeness is checked before the lock is taken. |
| `Delivery.DeliveryIsFinal` | mcp_server/jde_mcp_server/execution.py:268-269 | A delivered item stays delivered and never gets another attempt, in any continuation. |
| `Delivery.EveryAttemptPassesTheGate` | mcp_server/jde_mcp_server/approval.py:329-485 | The transaction that appends an attempt runs in a state where the approval is live, unexpired, still authorised by recorded and current roles, of the same company, un-invalidated and bound to the current design, and where its own preconditions hold: scope, divergence and completeness for a write, an intact package and its unchanged source for a check-in, the applied check-in for a build, the applied write and the test boundary for a test run, an intact package within scope for a verification. |
| `Delivery.NothingRunsUngated` | mcp_server/jde_mcp_server/approval.py:375-408 | While no instant of a run meets those conditions, no attempt is appended to any block. |
| `Delivery.InvalidatedNeverRuns` | mcp_server/jde_mcp_server/binding.py:163-176 | After one invalidation, or once rejected, no attempt is ever appended again, in any continuation. |
| `Delivery.DivergenceStopsTheSet` | mcp_server/jde_mcp_server/approval.py:409-415 | Once one item has diverged it stays so, no item gets an attempt and the write is never newly recorded, in any continuation. |
| `Delivery.TestsFollowTheWrite` | mcp_server/jde_mcp_server/approval.py:459-467 | A test attempt exists only after a state in which the write was known to be applied. |
| `Delivery.WhoDelivers` | api_service/jde_api_service/delivery/functional.py:242-248 | The delivery map is written by three acts only, and the activation by one. |
| `Ungated.IntentsAreSeen` | api_service/jde_api_service/delivery/functional.py:175-198 | Whatever a caller may act on under the lock was seen by a check of that very run, and everything a check saw stays usable. |
| `Ungated.StoredExactly` | api_service/jde_api_service/delivery/functional.py:175-248 | After any run and in any world, storing a person's recording delivers the item if and only if some step of the run checked exactly that, with the gate holding then, and the item is not delivered since: whether the gate still holds does not matter. |
| `Ungated.StoringIsGatedExactly` | api_service/jde_api_service/delivery/functional.py:242-248 | In a run every person's delivery is stored with the gate holding if and only if none that was checked is stored after the gate stopped holding. |
| `Ungated.StoredAfterInvalidation` | mcp_server/jde_mcp_server/approval.py:370-374 | The gate is not run again inside the lock: a concrete run -- approved, checked, invalidated, stored -- that delivers an item although the gate no longer holds. |
| `Ungated.ActivatedExactly` | mcp_server/jde_mcp_server/technical_gate.py:291-315 | After any run and in any world, recording an activation takes effect if and only if some step of the run checked one, with the gate and the activation role holding then, the package is built and none is recorded yet. |
| `Ungated.ActivationIsGatedExactly` | mcp_server/jde_mcp_server/technical_gate.py:302-315 | In a run every activation is recorded with the gate holding if and only if none that was checked is recorded after the gate stopped holding. |
| `Ungated.ActivatedAfterInvalidation` | mcp_server/jde_mcp_server/technical_gate.py:19-24 | The approval is not derived again inside the lock: a concrete run -- approved, checked in, built, the activation checked, invalidated, recorded -- that activates a package although the gate no longer holds. |
| `Ungated.VerifiedWithoutActivation` | mcp_server/jde_mcp_server/technical_gate.py:319-356 | A concrete run in which a verification, checked while no activation was required, is recorded while one is required and missing. |
| `Pipeline.VerificationOrderExactly` | mcp_server/jde_mcp_server/technical_gate.py:319-356 | In a run of a technical change, every verification attempt finds the package checked in, built and (where an activation was required when it was checked) activated if and only if no test result is recorded while it is not. |
| `Pipeline.InTurnExactly` | api_service/jde_api_service/delivery/functional.py:319-330 | The same step by step: only the guard of recording a test result can break the order. |
| `Pipeline.VerifiedMeansInOrder` | mcp_server/jde_mcp_server/technical_gate.py:240-356 | Without such recordings a verified package is checked in and built, and activated where every verification was checked while that was required, although each prerequisite is checked outside the lock. |
| `Pipeline.FailedBuildIsFinal` | mcp_server/jde_mcp_server/technical_gate.py:261-284 | A failed build is never built, never activated, and verified by nothing but a recorded test result, in any continuation. |
| `Pipeline.TestResultAppendsExactly` | mcp_server/jde_mcp_server/approval.py:448-485 | A test result that was checked is recorded exactly when the gate of a test passes under the lock: nothing in it asks for the build or the activation, or for the recorder again. |
| `Pipeline.TestResultSkipsTheBuild` | api_service/jde_api_service/delivery/functional.py:319-330 | A concrete run of approval, check-in and a checked test result, after which the package can be recorded as tested although it is neither built nor activated. |
| `Desk.ChangeDesk.BeginItem` | mcp_server/jde_mcp_server/execution.py:254-279 | Updates the stored record by exactly the protocol's begin of an item; an attempt is begun if and only if nothing is paused, the gate passes, the item is the agents', undelivered and ready. |
| `Desk.ChangeDesk.FinishItem` | mcp_server/jde_mcp_server/execution.py:282-303 | Closes an item's attempt in place, whatever observation it is given; accepted exactly if the attempt exists and the outcome is one of an item's; only a current close as applied delivers the item; with an observation that shows the approved values it is the protocol's finish. |
| `Desk.ChangeDesk.CloseIn` | mcp_server/jde_mcp_server/execution.py:172-187 | The block after a close: the attempt found by its id and updated, the state set from the outcome only if the close is current; refused exactly where the attempt is missing or its outcome unknown to its kind. |
| `Desk.ChangeDesk.ReconcileItem` | mcp_server/jde_mcp_server/execution.py:306-354 | Settles exactly an item of unknown outcome: applied, and delivered as observed, if and only if the observation shows the approved values; ready again only if it is what the approval was bound to. |
| `Desk.ChangeDesk.ReconcileWrite` | mcp_server/jde_mcp_server/execution.py:471-505 | Settles exactly a write of unknown outcome: applied if and only if the approved value was observed, ready again if and only if the latest recorded before-value was. |
| `Desk.ChangeDesk.FinishAttempt` | mcp_server/jde_mcp_server/execution.py:168-187 | Closes an attempt of the write, build or test of any change in place; accepted exactly if the attempt exists and a current close has an outcome of its kind. |
| `Desk.ChangeDesk.CheckComplete` | api_service/jde_api_service/delivery/functional.py:148-155 | The loop tells a set with items missing, one whose write is recorded already, and one that is ready to be recorded. |
| `Desk.ChangeDesk.CheckPerson` | api_service/jde_api_service/delivery/functional.py:175-241 | Leaves what a person may store only where it shows the approved values. |
| `Desk.ChangeDesk.ApproveChange` | mcp_server/jde_mcp_server/approval.py:246-312 | Approves only a pending change, in the name of roles the approver holds now and the policy allows, against the basis of that instant. |
| `Desk.ChangeDesk.MarkInterrupted` | mcp_server/jde_mcp_server/execution.py:357-382 | Every attempt in progress, of the change and of its items, becomes unknown at start-up; the count is exact. |
| `Runner.HandoverExactly` | api_service/jde_api_service/executors/runner.py:65-93 | A person may record an agent's item exactly when the runner reports that no agent can apply it now. |
| `Runner.NotSentSavesNothing` | api_service/jde_api_service/executors/runner.py:188-205 | What is reported as not sent was not: the driver's requests hold no commit; what is reported as sent by the form driver carries exactly the item. |
| `Runner.ClosedAsNotSent` | api_service/jde_api_service/executors/runner.py:161-179 | Whatever an attempt that is closed as not sent handed to the form service, nothing of it saves. |
| `Runner.Attempt` | api_service/jde_api_service/executors/runner.py:174-205 | Where the live read before the change raised, is not known though it could be, or does not show what the approval was bound to, nothing is sent; otherwise exactly the requests of the item's route are. |
| `Runner.Closing` | api_service/jde_api_service/executors/runner.py:207-224 | An attempt is closed as applied only with an observation that shows the approved values, and as not_sent only if nothing was sent. |
| `Runner.RunItem` | api_service/jde_api_service/executors/runner.py:154-233 | The attempt is begun before anything is sent and closed by what is known afterwards, with anything else happening to the record in between; the record goes through exactly those steps, and exactly what the attempt calls for is sent. |
| `Runner.TakeRound` | api_service/jde_api_service/executors/runner.py:128-143 | One round of the loop, in place, is exactly what the item's status in the record it finds calls for; the deliberate retry is used up by the first item that needs it. |
| `Runner.CompleteIfAllRecorded` | api_service/jde_api_service/delivery/functional.py:145-161 | Items missing, recorded before, recorded now, or barred by the gate: told apart, with the record going through exactly the check, everybody else's steps and the recording. |
| `Runner.RunAgents` | api_service/jde_api_service/executors/runner.py:121-147 | The whole run, authorised first and completed at the end: its turns, its ending and every step the record went through, its own and everybody else's, are those of the story. |
| `RunnerOrder.BeginsAreTheTurns` | api_service/jde_api_service/executors/runner.py:126-147 | The attempts a run asks for, as steps of the record, are exactly those of its turns, in the order of the items, each item at most once; without authority it does nothing. |
| `RunnerOrder.EveryBeginIsInOrder` | api_service/jde_api_service/executors/runner.py:126-147 | Whenever the run begins an attempt, every earlier item is delivered in that very state of the record, or this run had closed it as applied too late to count, whoever else delivers, reconciles or runs meanwhile. |
| `RunnerOrder.BeginsFollowDeliveries` | api_service/jde_api_service/executors/runner.py:219-224 | If none of its closes was late, every earlier item, a person's included, is delivered in the state in which an item's attempt begins, even with several runners. |
| `RunnerOrder.EndedMeansDone` | api_service/jde_api_service/executors/runner.py:144-147 | A run that reports the set as applied leaves every item delivered, or had closed it late itself. |
| `RunnerOrder.AtMostOneRetry` | api_service/jde_api_service/executors/runner.py:132-136 | A run retries at most one item, and none unless it was asked to. |
| `RunnerOrder.RetriedExactly` | api_service/jde_api_service/executors/runner.py:130-141 | An item is attempted as a retry exactly if its last attempt had stopped before anything was saved when the run looked; a person's, unsettled or delivered item is never attempted. |
| `AisForms.KeysAreReadExactly` | api_service/jde_api_service/executors/ais.py:111-111 | A control key is read as this alias and number if and only if it is made of them, one line feed at its end apart: no other reading exists. |
| `AisForms.ParseForm` | api_service/jde_api_service/executors/ais.py:148-185 | The loops read exactly the form the answer describes; an answer with another number of forms is refused as not sent. |
| `AisForms.FormsHoldWhatIsReported` | api_service/jde_api_service/executors/ais.py:157-184 | Each alias has exactly the controls the answer named for it, in its order, in the header and in the grid, and each title exactly the controls reported under it. |
| `AisForms.FieldsAreReported` | api_service/jde_api_service/executors/ais.py:157-161 | A number answers to an alias if and only if the answer names that control, as a field. |
| `AisForms.ButtonsAreReported` | api_service/jde_api_service/executors/ais.py:180-184 | A control answers to a title if and only if the answer reports it under a title that reads the same. |
| `AisForms.FieldIdFindsExactly` | api_service/jde_api_service/executors/ais.py:195-203 | A field is used if and only if exactly one control of the form answers to its alias, and it is that one. |
| `AisForms.ButtonId` | api_service/jde_api_service/executors/ais.py:206-213 | A button is pressed only if its title is permitted and the form reports exactly one control under it. |
| `AisGuard.FormMapFor` | api_service/jde_api_service/executors/ais.py:88-96 | A map covers an item only if it is a row named by exactly the key the form works with. |
| `AisPlan.QuerySearches` | api_service/jde_api_service/executors/ais.py:427-432 | The search sets exactly the item's header keys, filters a header form by its row key, and presses the one control reported as Find. |
| `AisPlan.WayEnters` | api_service/jde_api_service/executors/ais.py:435-446 | An add is sent only if the search showed no matching row; an update selects the single row that matched. |
| `AisPlan.SavingCarries` | api_service/jde_api_service/executors/ais.py:451-486 | The commit sets only controls that answer to the item's key or value aliases, each to that alias's approved value, sets every approved value, and addresses a new row for an add, every key field of which it sets, or the one row that shows the item's key for an update. |
| `AisPlan.ApprovedValuesRemainExactly` | api_service/jde_api_service/executors/ais.py:459-481 | After a commit every value it sets, an added row's key fields included, is what its control or column holds if and only if no two of the item's fields with different values answer to one control, or one column, of that form. |
| `AisCases.TypeIsAccepted` | mcp_server/jde_mcp_server/config_items.py:154-174 | A proposed document type whose value field ends like its key field is accepted. |
| `AisCases.TypeIsNormal` | mcp_server/jde_mcp_server/config_items.py:154-174 | And its normal form is the item of `AisCases.KeyIsOverwritten`. |
| `AisCases.KeyIsOverwritten` | api_service/jde_api_service/executors/ais.py:195-203 | That item is committed on every form with one control for DCTO, and its key control is left with the other value. |
| `AisCases.OverwrittenWhenApplied` | api_service/jde_api_service/executors/ais.py:459-496 | A server with which that item goes through the search, the way in and the commit, is reported as sent, and leaves its key control with the other value. |
| `AisDriver.Stack.Send` | api_service/jde_api_service/executors/ais.py:320-335 | A request the guard refuses never reaches the transport; any other is handed over before its answer can go wrong; the result is what the server answered to exactly these requests. |
| `AisDriver.ApplyItem` | api_service/jde_api_service/executors/ais.py:397-416 | The session driven in place, against any server, has exactly the result and the requests of its course. |
| `AisDriver.WhatWasSent` | api_service/jde_api_service/executors/ais.py:397-496 | For every server: an outcome means the three requests of the approach, exactly one commit that carries the item, and nothing but a close after it; a stop of an open session means the approach as far as it went and a close, reported as not sent or not a write. Every request is for one of the item's two forms, made on the form the server answered last; without a map or a connection there is none. |
| `AisDriver.Commit` | api_service/jde_api_service/executors/ais.py:482-496 | Once the commit is handed over the outcome is that it was sent, whatever comes back; before that nothing of it was. |
| `AisDriver.OkIsPressedEarlyExactly` | api_service/jde_api_service/executors/ais.py:206-213 | For every server and every request it is sent other than the commit: the request presses OK if and only if it is the search or the way into the revision form, and the form it was made on reports the control pressed there as OK as well. |
| `AisDriver.OkIsPressedOnce` | api_service/jde_api_service/executors/ais.py:482-496 | Where no form does that, a stopped item pressed OK nowhere and an applied one exactly once, in the commit. |
| `AisDriver.SharedIsReported` | api_service/jde_api_service/executors/ais.py:180-184 | A form does that if and only if the answer reports exactly one control under the title and the same one as OK. |
| `AisCases.NotSentAndPressed` | api_service/jde_api_service/executors/ais.py:180-213 | A server on which every added document type is reported as not sent although OK was pressed: the search pressed it as Find. |
| `ConfigItems.Aliases` | mcp_server/jde_mcp_server/config_items.py:94-110 | Exactly the proposals with well-formed, allowed and not too many fields are accepted, and the fields hold for each alias the value proposed last. |
| `ConfigItems.NormaliseRow` | mcp_server/jde_mcp_server/config_items.py:154-174 | A set-up row is accepted exactly when its action, table and fields are, and no alias is both key and value. |
| `ConfigItems.NormaliseItem` | mcp_server/jde_mcp_server/config_items.py:124-174 | An item is accepted exactly when its kind's rules are met, and its normal form holds what was proposed. |
| `ConfigItems.ApprovedStateMatches` | mcp_server/jde_mcp_server/config_items.py:255-261 | A system that shows exactly an item's approved values is recognised as such by the delivery checks. |
| `ChangeSets.NormaliseChangeSet` | mcp_server/jde_mcp_server/config_items.py:177-197 | A set is normalised item by item, in order, with no target named twice; it is refused for nothing else. |
| `ChangeSets.SetsAreSound` | mcp_server/jde_mcp_server/config_items.py:188-191 | In a normalised set ids are unique and no two items change the same thing. |
| `Targets.TargetsIdentifyExactly` | mcp_server/jde_mcp_server/config_items.py:228-236 | Two normalised items have one target if and only if they change the same thing, as long as their texts do not contain the marks a target is put together with. |
| `Targets.TargetIsSharedExactly` | mcp_server/jde_mcp_server/config_items.py:228-236 | A normalised item shares its target with one that changes something else if and only if it is shareable, which is decided by looking at the item alone: an option text with a bar at which version and option come apart another way, or a row as below; never the text of a version. |
| `Targets.RowTargetIsSharedExactly` | mcp_server/jde_mcp_server/config_items.py:234-236 | For a row that is: its key has two fields or more, which one field can hold, or its one value goes on, after a semicolon, like a field with a later alias. |
| `Targets.OneFieldIsSharedExactly` | mcp_server/jde_mcp_server/config_items.py:94-110 | With one key field the same is exact within the limits a proposal is held to. |
| `Targets.TargetsCanCollide` | mcp_server/jde_mcp_server/config_items.py:234-236 | For any two fields in order, two different rows with one target. |
| `Targets.AlikeRowsAreOne` | api_service/jde_api_service/executors/ais.py:419-420 | Of two items whose key values differ in the spaces around them a grid row shows one exactly if it shows the other. |
| `Targets.AlikeTargetsExactly` | mcp_server/jde_mcp_server/config_items.py:234-236 | The targets of two such items are equal if and only if their key values are equal as they stand, the spaces around them included. |
| `AisCases.OneTypeTwoTargets` | mcp_server/jde_mcp_server/config_items.py:234-236 | Two items of a mapped table for one document type, as every form shows it, whose targets differ by a space. |
| `Store.Session.Execute` | mcp_server/jde_mcp_server/docstore.py:336-358 | A program run on the session, with any nesting of transactions, handlers and raises, means what the reference semantics says: nested calls join, the outermost one commits or rolls back as a whole. |
| `Store.NestedTransactionsJoin` | mcp_server/jde_mcp_server/docstore.py:342-345 | Transaction brackets inside a transaction change nothing, and a transaction that raises leaves the documents as they were. |
| `Store.JoiningIsAtomicUncaught` | mcp_server/jde_mcp_server/docstore.py:336-358 | Where nothing is caught on the way out, joining is as good as making every bracket atomic. |
| `Store.HandlersSeeUndoneExactly` | mcp_server/jde_mcp_server/docstore.py:342-345 | For every program, with any handlers and any nesting: every handler starts from the documents it would start from if each bracket undid its own work if and only if every raise that is caught came through brackets that left the documents as they found them. |
| `Store.JoiningIsAtomicClean` | mcp_server/jde_mcp_server/docstore.py:336-358 | Under that condition joining is as good as making every bracket atomic, handlers included. |
| `Store.CaughtBracketIsUndoneExactly` | mcp_server/jde_mcp_server/docstore.py:342-345 | Where an inner raise is caught and passed over, the two end alike if and only if the inner bracket did not raise or had written nothing. |
| `Store.InnerRaiseIsNotUndone` | mcp_server/jde_mcp_server/docstore.py:342-345 | A concrete program whose inner transaction raises, is caught, and leaves its write behind. |
| `Store.ReconciliationIsWhole` | mcp_server/jde_mcp_server/execution.py:422-468 | A reconciliation that raises after any of its statements leaves neither ledger nor log entry; one that ends leaves both. |
| `Store.LedgerAndLogAgree` | mcp_server/jde_mcp_server/execution.py:320-354 | In every committed state each reconciliation on a change carries the hash of an entry of its story's evidence log. |
| `Evidence.EvidenceLog.Capture` | mcp_server/jde_mcp_server/evidence.py:41-53 | Appends one entry chained to the last; the new log verifies if and only if the old one did and the payload names no hash of its own or only the right one before it. |
| `Evidence.EvidenceLog.VerifyChain` | mcp_server/jde_mcp_server/evidence.py:56-74 | Valid exactly if every entry is linked; otherwise the index reported is the first broken one. |
| `Evidence.CaptureVerifiesExactly` | mcp_server/jde_mcp_server/evidence.py:48-51 | A captured log verifies if and only if the log before it did and the payload names no hash of its own, or only the right one before it. |
| `Evidence.CapturedLogVerifiesExactly` | mcp_server/jde_mcp_server/evidence.py:41-53 | A log built by any sequence of captures verifies if and only if every payload was plain when it was captured. |
| `Evidence.ProperDigestExists` | mcp_server/jde_mcp_server/evidence.py:25-30 | What is asked of the hash and of the rendering can be had: a digest with all of it is constructed. |
| `Evidence.EntryHashIsInjective` | mcp_server/jde_mcp_server/evidence.py:25-30 | The hash of predecessor and content together tells both apart. |
| `Evidence.LastHashDeterminesTheLog` | mcp_server/jde_mcp_server/evidence.py:41-74 | Two logs that verify and end in the same hash are the same log. |
| `Evidence.TamperingIsFound` | mcp_server/jde_mcp_server/evidence.py:56-74 | Changing any entry but the last breaks the chain at that entry or the next, and at no earlier one. |
| `Evidence.OnlyPrefixesVerify` | mcp_server/jde_mcp_server/evidence.py:8-9 | Entries of a verifying log, rearranged, repeated or left out, verify if and only if they are its first entries in order. |
| `PgSql.Translate` | mcp_server/jde_mcp_server/docstore.py:154-183 | The loop emits exactly the encoding of the statement's pieces. |
| `PgSql.TranslationKeepsMeaning` | mcp_server/jde_mcp_server/docstore.py:154-183 | Read by the driver's rules, the translation is the original text with exactly the unquoted '?' (or ':name', never '::') turned into holes, in order, for every statement and both modes. |
| `PgSql.DecodeEncode` | mcp_server/jde_mcp_server/docstore.py:154-157 | The driver reads back exactly the pieces that were written for it. |
| `PgSql.PiecesAreFaithful` | mcp_server/jde_mcp_server/docstore.py:160-182 | The pieces spell the statement, and their holes are exactly the placeholders found at every position on its own. |
| `AdvisoryLock.TimelyMeansExclusive` | mcp_server/jde_mcp_server/docstore.py:443-462 | For any number of processes: in a state where nobody inside overstays the stale limit, no two are inside one section. |
| `AdvisoryLock.ExclusionEndsExactly` | mcp_server/jde_mcp_server/docstore.py:450-454 | A step ends mutual exclusion if and only if it takes a section over while somebody who overstayed is inside. |
| `AdvisoryLock.OverstayingBreaksExclusion` | mcp_server/jde_mcp_server/docstore.py:450-454 | A concrete run in which one overstay lets a second process in. |
| `AdvisoryLock.RowsAreOwned` | mcp_server/jde_mcp_server/docstore.py:458-462 | A row changes only by its own holder's release or, once stale, by a takeover: a process that was taken over never frees its successor. |
| `AdvisoryLock.CrashBlocksNoLonger` | mcp_server/jde_mcp_server/docstore.py:448-454 | A crashed holder keeps others out for at most the stale limit after it acquired. |
| `AdvisoryLock.LockTable.Acquire` | mcp_server/jde_mcp_server/docstore.py:445-457 | Enters at the first poll that is not blocked and gives up only when all were, with anything happening between polls. |
| `AdvisoryLock.LockTable.Free` | mcp_server/jde_mcp_server/docstore.py:458-462 | Removes only the holder's own row. |
| `Profile.AcceptedExactly` | api_service/jde_api_service/persistence/revisions.py:34-48 | A save made from a loaded profile is accepted if and only if nothing was saved since it was loaded, in every run. |
| `Profile.ProfileStore.SaveConfig` | api_service/jde_api_service/discovery/profile_service.py:67-94 | Stores a new revision over exactly the expected one; a material change ends the enabling. |
| `Profile.ProfileStore.SaveNewCredential` | api_service/jde_api_service/discovery/profile_service.py:97-125 | Stores a new credential revision and always ends the enabling. |
| `Profile.ProfileStore.SetEnabled` | api_service/jde_api_service/discovery/profile_service.py:516-534 | Expected revision, evaluation and store are three transactions with anything in between; the result is exactly those steps, stored only over the revision that was evaluated. |
| `Profile.ProfileStore.SetDisabled` | api_service/jde_api_service/discovery/profile_service.py:537-548 | Nothing is enabled afterwards and every check is cleared. |
| `Profile.Reachable` | api_service/jde_api_service/discovery/profile_service.py:67-125 | In every reachable state the history is numbered without a gap, the row is its last revision, and every evaluation and every check is of revisions in it. |
| `Profile.NoLostUpdate` | api_service/jde_api_service/persistence/revisions.py:34-48 | Once a save made from a revision is accepted, no other save made from that revision ever is, and what was saved stays in the history. |
| `Profile.ActiveMeansEvaluated` | api_service/jde_api_service/discovery/profile_service.py:557-559 | While the connection is active, its material settings and credential revision are exactly those its blockers were last evaluated on. |
| `Profile.StaleEvaluationIsStoredExactly` | api_service/jde_api_service/discovery/profile_service.py:529-533 | A step leaves a profile enabled on an evaluation from before a disable if and only if it stores one. |
| `Profile.EnabledOnFreshExactly` | api_service/jde_api_service/discovery/profile_service.py:516-548 | Throughout a run every enabled profile was evaluated since the connection was last disabled if and only if no step stores an evaluation from before a disable. |
| `Profile.StaleEvaluationRevives` | api_service/jde_api_service/discovery/profile_service.py:537-554 | From every state with a profile: checked, evaluated, disabled, the disable cleared and the evaluation then stored, the connection is active with every check cleared. |
| `Profile.SavedAndRevived` | api_service/jde_api_service/discovery/profile_service.py:516-548 | The same as a run from nothing configured: save, check, evaluate, disable, clear, store. |
| `Profile.WrongStampExactly` | api_service/jde_api_service/discovery/profile_service.py:187-202 | A step leaves a check stamped with settings it was not run against if and only if it records one that was started before the settings changed. |
| `Profile.StampsAreRightExactly` | api_service/jde_api_service/discovery/profile_service.py:187-202 | Throughout a run every check is stamped with what it ran against if and only if none is recorded after the settings it was started on were changed. |
| `Profile.WrongStampMeansSaved` | api_service/jde_api_service/discovery/profile_service.py:187-202 | In every reachable state a check was run against a revision of the history and stamped with that one or a later one; a wrong stamp means a save in between. |
| `Profile.OvertakenCheckPasses` | api_service/jde_api_service/discovery/profile_service.py:205-214 | Started, overtaken by a change of the settings and recorded as passed, a check passes for settings nobody tried. |
| `Packs.Normalise` | api_service/jde_api_service/ai/packs.py:108-164 | Content never asks for more than its role's ceiling or for documents that are not the customer's, and gets the tools its documents need. |
| `Packs.PublishedNeverChanges` | api_service/jde_api_service/ai/packs.py:306-346 | A published revision is found unchanged in every continuation of every run. |
| `Packs.OnlyTheHighestIsADraft` | api_service/jde_api_service/ai/packs.py:306-329 | Revisions are numbered without a gap and only the highest can be a draft. |
| `Packs.BlockedExactly` | api_service/jde_api_service/ai/packs.py:448-471 | A role is blocked if and only if nothing is assigned to it or its pack is disabled: an assignment always resolves to a published revision whose checksum verifies. |
| `Packs.VersionsCount` | api_service/jde_api_service/ai/packs.py:365-391 | The version of an assignment counts the assignments accepted since the role was last unassigned, in every run. |
| `Packs.StaleVersionPassesExactly` | api_service/jde_api_service/ai/packs.py:365-367 | The version a client loaded is still accepted, although the assignment has changed since, if and only if the role was unassigned in between and assigned again exactly as often as the version says, to something else. |
| `Packs.VersionsTellAssignmentsApart` | api_service/jde_api_service/ai/packs.py:365-376 | While nothing is unassigned, equal versions of an assignment mean equal assignments. |
| `Packs.UnassignReusesVersions` | api_service/jde_api_service/ai/packs.py:382-391 | After an unassign the versions start again, so a stale expected version silently replaces another assignment. |
| `Packs.PackStore.EnsureTemplate` | api_service/jde_api_service/ai/packs.py:208-230 | Imports a published revision only where the definition changed. |
| `Packs.PackStore.Edit` | api_service/jde_api_service/ai/packs.py:306-329 | Rewrites the open draft or opens one after the last revision. |
| `Packs.PackStore.PublishDraft` | api_service/jde_api_service/ai/packs.py:332-346 | Publishes only a draft, validated against today's policy. |
| `Packs.PackStore.CheckAssignment` | api_service/jde_api_service/ai/packs.py:354-368 | Passes exactly for a visible, enabled pack of the role, a published and still valid revision, and the expected version. |
| `Packs.PackStore.AssignRole` | api_service/jde_api_service/ai/packs.py:349-379 | After an accepted assignment the next run reads exactly that revision. |
| `Toolset.Options` | api_service/jde_api_service/ai/runtime.py:271-307 | The allowed tools are exactly the exposed ones, each once; every project and knowledge tool that is not exposed is hidden; subagents get exposed tools only. |
| `Toolset.MetadataOnlyExactly` | api_service/jde_api_service/ai/packs.py:418-424 | Without permission to send document text a run exposes what it would with it, except the tool that reads documents unless the driver grants it. |
| `Toolset.ExposedIsPublished` | api_service/jde_api_service/ai/runtime.py:279-287 | Whatever is exposed without a grant, and is not Task, is driver-allowed or a knowledge tool, and requested by the published pack assigned to a role of the run within that role's ceiling of today. |

## Left out

- The transport, TLS, sign-in, the browser executor, Playwright and the Agent SDK: their outcomes are free choices of the model.
- Routers, sessions, cookies, views, labels and error texts: plumbing around the modelled operations.
- Scope, catalogue, package and recorder checks in detail: single answers of the world at each step; what they check is easy and stateless.
- Spelling of texts beyond ASCII: white space is space, tab, line feed and carriage return, and case folding is that of A to Z.
- JSON walking in the request guard: the request type has no place for a forbidden key, a row deletion or another endpoint, so that part of the guard cannot fail here.
- A grid action that also carries a command, which the guard does not look into: an action is either one or the other.
- AisForms.KeysAreReadExactly: digits are 0 to 9.
- AisDriver.ApplyItem: the environment check after sign-in and the credential errors are one refused connection; that a session is logged out is not modelled.
- AisPlan.SavingCarries: the value of an item is a text; a missing value is the empty text it is sent as.
- Runner.RunAgents: routes are given per item instead of computed, the in-process lock that refuses a second run of one process is left out (any number of runs is allowed instead), and evidence captures and request summaries are not modelled.
- Runner.RunItem: a before-state that is bound but unknown is the same as one that is not bound.
- Desk.ChangeDesk.BeginItem: attempt ids are numbers drawn in order instead of random texts, and route, agent, details and screenshots of an attempt are left out.
- Desk.ChangeDesk.ReconcileItem: who reconciled, evidence references and notes, and the refusals for lack of them, are left out; the entry itself is in `Store`.
- Desk.ChangeDesk.FinishAttempt: the orchestration call between a test's begin and its close is the free choice of the outcome.
- Desk.ChangeDesk.Perform: the checks of an act are those of the protocol's step, which the method reads instead of repeating them; whether a test passed is detail of the record and decides nothing in the protocol.
- Changes.Snapshot: evidence manifest, baseline and artifacts of a design are not part of the binding here; only its revision decides later checks.
- Protocol.NoBlindRetryAnywhere: a change that is proposed again is another change; nothing is counted across changes.
- ConfigItems.NormaliseItem: purpose, capability revision, an explicit kind that contradicts the capability, and the route are left out.
- Scope entries (`parse_target`, `matches`, `check_entry`): filters of single items with no state.
- AdvisoryLock.TimelyMeansExclusive: one stale limit for all callers and one clock for all processes.
- Store.Session.Execute: one writer at a time, as both engines give it; a session on another database path opens its own transaction and is another session here.
- The engines, pools, schema creation, document versions and the one-time import of the store.
- Profile.ActiveMeansEvaluated: the blockers other than the checks and the disable are one answer of the world; the destination the credential is bound to is not modelled.
- Profile.WrongStampExactly: a check reads the profile once; that the password is read separately is not modelled, nor are the checks of single capabilities, which are stamped the same way.
- Targets.RowTargetIsSharedExactly: values of any length and keys of any number of fields; with several key fields the other row is shown to keep the limits of a proposal where the target is no longer than 200 characters (`MergedShares`).
- Packs.Normalise: texts, skills, limits and audit rows are one opaque text; which documents a customer owns is part of the policy value.
- Toolset.Options: turns, budgets, servers, prompts and models of a run.
- Document extraction, blob storage, certificates, spend estimates, process maps and workbooks: input and output or easy bounds.
- `preflight`: reports the gate's checks without changing anything.
