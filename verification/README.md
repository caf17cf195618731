# Outbox, recovery gate and permits: a verified model

This project models the control plane of the repository: source observations become governed customer
state, proposals become jobs of a durable outbox, leased workers turn jobs into effects at receivers
that keep their own ledgers, a recovery gate guards what happens after a restore, and request permits
bound the traffic to each destination. It proves what that machinery is for.

`dafny verify dfyconfig.toml` checks everything.

## How the model is built

* **Rows.** `schema.dfy` has one datatype per table. `ControlDb` is the mutable database, one field per table.
* **Transactions.** Every database transaction is a function from tables to tables
  (`policy`, `service`, `capacity`, `worker`, `receiver`, `recovery`, `operations`). The same transactions are
  written as the program runs them, row by row and loop by loop, as methods that update `ControlDb`, the
  receiver's database and the recovery coordinator (`transactions`, `worker_ops`, `receiver_ops`, `recovery_ops`);
  each method is proved to do to the tables exactly what its function says.
* **What they come to.** `decisions`, `dispatch`, `commands`, `evidence` and the end of `recovery` read each transaction off
  independently, in literal columns, values and numbers: each answer exactly when it is given, and the whole state after it.
  `records` does the same for the isolation checker.
* **The system.** `system.dfy` is a state machine whose steps are those transactions, the requests at the
  receivers, and the sending, delivery, duplication and loss of messages. Any number of workers run at once; a
  worker may stop at any point. An event that is not enabled does nothing, so every sequence of events is a run,
  and a theorem over all sequences is a theorem over all runs. `steps.dfy` says what each kind of step may write.
* **Histories.** A restore puts back the control database alone. `lineage.dfy` describes the history of a control
  database through any number of restores; what concerns that database (the gate, proofs, intents, approvals) is proved
  for all such histories, and both plain runs and restored ones are shown to be among them.
* **The theorems.** `intents`, `outbox`, `runs`, `execution`, `timely`, `lateness` (protocol); `resumption`, `authority`, `tracing`,
  `gate`, `lanes` (recovery and authority); `truth`, `delivery` (customer state); `fencing`, `fairness`, `backlog`,
  `budgets`, `permitlog` (work and capacity); `checker`, `acceptance` (the isolation checker).

## Assumptions

* A transaction is one atomic step, under the row and advisory locks that the code takes, and takes one reading of
  the clock. `acquire` is the exception: each of its six readings is separate.
* The application's clock and the database's are one clock; only the witness of recovery carries a reading of its own.
* Lease tokens handed out by `claim` are new. Keys are unique as the SQL schema declares; a violated key rolls back.
* Hashing is an arbitrary function of the hashed document (`Config.digest`). It is assumed free of collisions only
  where evidence digests stand for the evidence itself (`CollisionFree` in `gate.dfy`).
* A worker sees only answers that the receiver gave to its own POST, an answer to its lookup, a refusal that did not
  come from the ledger, or a broken exchange.
* `recovery` runs after the control database was put back to any earlier state of a run while the receivers kept
  theirs. A resume is considered when nothing is in flight, which is what the quiescence witness attests.
* Only `timely.dfy` assumes a timely network: a POST is delivered at most once, is sent under its lease, and is
  committed or lost by the time that lease is settled or reclaimed. The last part of the file does without it and says
  exactly when the `uncertain` column can be trusted; `lateness.dfy` has runs that break each half of the assumption.
* "Monotone" clocks are required only where a theorem says so (backlog, freshness of authority, permit log, bypass).

## What the code does that one might not expect

* **A state field without provenance.** A customer founded by an event that carries no stage has the column default
  `{"lifecycle":"Lead"}` and no provenance for it. That is the only such field, and every field of a customer has
  provenance if and only if some CRM event that was applied to the customer carries a stage
  (`Truth.WhenEveryFieldHasProvenance`; at the founding, `Truth.WhenFoundingHasProvenance`).
* **The stage depends on the order of deliveries.** For every other field the latest event wins in any order. For the
  stage, the no-regression rule makes the result depend on the order, exactly when the latest event's stage is behind the
  recorded stage or that of another newer event (`Delivery.StageConfluence`).
* **The record of unreleased permits.** A permit expires thirty seconds after the reading that its expiry was set from,
  while the isolation record closes an unreleased permit thirty seconds after `issued_at`, a later reading
  (`scripts/isolation_acceptance.py:294-297`). One microsecond between the two is enough for a false alarm; without skew
  there is none (`PermitLog.SkewDecides`).
* **A cleared `uncertain` column proves nothing by itself.** The step that clears it leaves nothing behind that recovery
  could not act upon if and only if the effect is not there and no POST for it is in flight
  (`Timeliness.WhenClearingIsSafe`). A POST can arrive after its refusal (`Lateness.LatePostIsNotReconcilable`), and even
  with nothing in flight any more a second copy can have committed (`Lateness.TwoCopiesAreTooMany`).
* **Permits that run backwards.** A completion stamped by a clock set back precedes its issue. The concurrency sweep
  accepts such records and lets one open permit pass for each of them (`Checker.CheckConcurrency`, `Checker.BackwardsHides`).

## Model

| member | source | states |
|---|---|---|
| Runs.OneEffectPerIntent | src/controlplane/worker.py:62-143 | in every run, with crashes, reclaimed leases and late or repeated POSTs, a key has an effect in at most one receiver, its body is the job's write-once intent, all POSTs in flight for it carry that intent, no POST is refused as a changed body, and no job records an identity conflict or a changed mutation |
| Runs.HistoryIsKept | src/controlplane/worker.py:74-83 | no later step changes an effect, an intent, or the lane of a job |
| Runs.NoFalseAlarms | src/controlplane/operations.py:14-41 | without a restore, comparing with any receiver never reports a missing intent, an identity conflict, a body conflict, or a missing or changed receipt |
| Runs.RollbackKeepsReceipts | src/controlplane/operations.py:33-39 | putting only the control database back to any earlier moment never makes an acknowledged receipt missing or changed |
| Outbox.ActKeepsCross | src/controlplane/worker.py:88-143 | every step keeps the invariant between jobs, ledgers, messages in flight and what each worker knows |
| Outbox.MutateAnswers | src/controlplane/mock.py:62-87 | a POST in flight is never answered 409, leaves all other effects alone, and an answer with a receipt is the ledger's own while any other status means there is no effect under the key |
| Outbox.LookupVerdict | src/controlplane/worker.py:104-117 | what a worker records after a receipt lookup: success only with the ledger's receipt, never an identity conflict |
| Outbox.PostVerdict | src/controlplane/worker.py:125-139 | the same after a POST |
| Intents.RetryRendersTheSame | src/controlplane/worker.py:74-82 | while the revision still matches, rendering again gives the stored mutation, so `mutation_changed` cannot occur |
| Intents.ObserveMovesRevision | src/controlplane/service.py:48-62 | an observation either changes nothing or raises the revision by one |
| Intents.RunKeepsLocal | src/controlplane/service.py:99-128 | every run keeps references, decisions, approvals, leases, and the link between an intent, its revision and the customer row |
| Timeliness.TimelyComparison | src/controlplane/worker.py:104-143 | under a timely network an effect whose job has not succeeded is uncertain, and the only finding without a restore asks for the review of a terminal intent |
| Lateness.LatePostIsNotReconcilable | src/controlplane/worker.py:132-137 | a run, for any digest, in which a POST delivered after its 429 was believed leaves an effect that is neither succeeded nor uncertain |
| Lateness.TwoCopiesAreTooMany | src/controlplane/worker.py:132-137 | a run that keeps every other part of the assumption: two copies of one POST, both resolved before the worker settles, the first answered 429 and the second committing |
| Timeliness.EffectsToCome | src/controlplane/mock.py:62-78 | in any reachable state the network alone can bring about a missing effect if and only if a POST for it is in flight |
| Timeliness.WhenTheColumnMisleads | src/controlplane/operations.py:29-30 | now or after whatever the network does, a job can be reported as not reconcilable if and only if it has not succeeded, its column is clear, and the effect is there or a POST for it is in flight |
| Timeliness.WhenClearingIsSafe | src/controlplane/worker.py:132-139 | the same at the step that clears the column: safe if and only if the effect is not there and no POST for it is in flight |
| Fencing.JobMoves | src/controlplane/worker.py:16-50 | everything one step can do to one job row |
| Fencing.AttemptsAreConserved | src/controlplane/worker.py:26-45 | attempts are claims less deferrals since the last requeue and never negative; they exceed four only by expired leases claimed again; a claimable job is within that budget |
| Fencing.FourClaims | src/controlplane/worker.py:41-42 | without reclaims and deferrals a job is claimed at most four times; after the fourth it is neither ready nor waiting for a retry, and it is due again only once its lease is over |
| Fencing.ClaimsCoverAttempts | scripts/check_isolation.py:92-93 | the audit trail shows at least as many claims as attempts, and a job that is over has been attempted |
| Fencing.SuccessIsFinal | src/controlplane/worker.py:36-50 | a succeeded job never changes again |
| Fencing.OneResolutionPerLease | src/controlplane/worker.py:36-40 | a lease is settled or deferred with effect at most once in a run |
| Dispatch.BackoffMeaning | src/controlplane/worker.py:43 | the retry delay is the smaller of sixty seconds and two to the number of attempts |
| Fencing.RetryIsDelayed | src/controlplane/worker.py:43-46 | after a POST a retry waits at least a second and at most five minutes, whatever `Retry-After` says |
| Fencing.NotClaimedBeforeDue | src/controlplane/worker.py:20-25 | in any run a job that is ready or waiting for a retry is neither claimed nor changed by any event before its `available_at` |
| Fencing.RetriesWait | src/controlplane/worker.py:43-46 | in every reachable state a settled retry is put off by at least a second, a deferral by exactly a tenth of one, and no event claims the job before that |
| Fencing.DeadLetters | src/controlplane/service.py:188-198 | an exhausted or rejected job can be requeued through its exception, with the same intent and a new budget, as soon as its destination has room; an identity conflict cannot |
| Fairness.BoundedBypass | src/controlplane/worker.py:20-25 | a destination that keeps having claimable work is passed over at most as often as there are other destinations |
| Fairness.OldestFirst | src/controlplane/worker.py:25 | within a destination the job that has been due longest is claimed first |
| Tracing.EffectAuthority | src/controlplane/worker.py:62-85 | without a restore the body of every effect is an intent so justified, down to each field of its payload |
| Tracing.EffectAuthorityAfterResume | src/controlplane/recovery.py:240-252 | after a restore and a resume every effect, old or new, has a local intent with its hash, in the lane of its job, justified along the history of the restored database |
| Tracing.IntentAuthority | src/controlplane/worker.py:62-85 | through any restores, every intent traces back to a moment with an open gate, the current policy, an unexpired proposal and an equal revision; for marketing the customer then was known not to be suppressed, consented and had an email, and someone else had approved and the approval stood; the payload is then exactly that email with the template of the proposal, or exactly the known ones of email, phone, owner, stage and score; `set_consent` is never authorised |
| Tracing.MarketingAuthority | src/controlplane/contracts.py:15-29 | with sources that keep to the input contract: at that moment the suppression was exactly false, the consent exactly true, and the mail goes to the non-empty email of that moment |
| Tracing.ProtectedFieldsStay | src/controlplane/worker.py:76-79 | no effect carries a consent or suppression value |
| Tracing.WhoWritesApproval | src/controlplane/service.py:156-178 | a step leaves an approval as it was, or is the first of its proposal: by another actor, at an open gate, until the earlier of the expiry and five minutes on |
| Tracing.ApprovalIsFinal | src/controlplane/service.py:168-170 | once given, an approval is the same at every later point of a run: never extended, replaced or withdrawn |
| Policy.PermissionMeaning | src/controlplane/policy.py:37-49 | which actions are allowed, and that marketing needs approval exactly for a known suppression out of false, 0 and the empty text, a consent that is exactly true, an email that is none of those three, and an equal revision; in typed state that is suppression false, consent true and an email |
| Decisions.MarketingDecision | src/controlplane/policy.py:40-49 | with suppression a flag and email a text, marketing needs approval if and only if suppression is recorded as false, consent as true, the email is not empty and the revisions are equal |
| Decisions.ActionDecision | src/controlplane/policy.py:37-49 | each of the six reasons exactly when it is given, and which of them deny |
| Decisions.FieldDecision | src/controlplane/policy.py:26-34 | each ruling on a field exactly when it is given, by owner, sequence and order of the stages |
| Decisions.ProposalStanding | src/controlplane/service.py:131-145 | each of the nine objections to a proposal exactly when it is raised, and when there is none |
| Decisions.ApprovalStanding | src/controlplane/service.py:157-163 | each refusal of an approval exactly when it is given |
| Decisions.RenderMeaning | src/controlplane/worker.py:74-80 | what is rendered is the one mutation that names customer, action and revision and conveys exactly the email and template, or exactly those of the five profile fields that are in the state, with its values |
| Decisions.PreparationDecision | src/controlplane/worker.py:62-85 | the answer of a preparation in every case, in its order: closed gate, missing rows, lost lease, objection, changed intent, authorisation |
| Decisions.LookupDecision | src/controlplane/worker.py:104-117 | what is concluded from each answer to a receipt lookup |
| Decisions.PostDecision | src/controlplane/worker.py:125-143 | what is concluded from each answer to a POST, and that only a success, a 429 and a rejection clear the uncertainty |
| Decisions.DelayDecision | src/controlplane/worker.py:132-137 | `Retry-After` within one second and five minutes, and five seconds without it |
| Decisions.RefusalDecision | src/controlplane/worker.py:88-93 | what becomes of refused preparations, and of jobs whose route cannot be served |
| Execution.ReconciledFirst | src/controlplane/worker.py:102-124 | in every run, also after a restore: a worker that sends for a job of unknown outcome asked its receiver since the claim, and there was no effect then |
| Execution.PhaseMoves | src/controlplane/worker.py:102-124 | the only ways for a worker to get from one phase to the next: a lookup exactly for an uncertain job, a preparation for a certain one or after a 404, a POST after an authorisation |
| Execution.LegacyIsClosed | src/controlplane/capacity.py:109-126 | in every run nothing unrouted is in flight once destinations are registered |
| Execution.SettleDecision | src/controlplane/worker.py:102-143 | what each settlement records, by how far the worker has come |
| Execution.MisrouteDecision | src/controlplane/worker.py:88-93 | a job is blocked before any request exactly when it is unrouted beside registered destinations or its destination is misconfigured |
| Truth.TruthOverRuns | src/controlplane/service.py:30-96 | every field with provenance has the value of a stored event of its owner; each identity names one customer and each source speaks once; over a run events and identities are kept, sequences rise, the stage never falls, and nothing changes without the revision |
| Truth.EmptyAgrees | src/controlplane/schema.sql:5-19 | the empty database agrees, so every reachable one does |
| Truth.EmailNeverMerges | src/controlplane/service.py:30-46 | ingestion binds a subject to nobody but a new customer, founded by the CRM with an email no one had |
| Truth.WhenEveryFieldHasProvenance | src/controlplane/service.py:47-60 | in every reachable state a customer has a stage, no other field lacks provenance, a field has it if and only if a stored event of its owner applied to the customer carries it, and so all have it if and only if such an event carries a stage |
| Truth.WhenFoundingHasProvenance | src/controlplane/service.py:43-60 | at its founding a customer has provenance for every field if and only if the founding event carries a stage |
| Truth.DefaultStageHasNoProvenance | src/controlplane/schema.sql:5-8 | a witness of a field without provenance: the default stage of a new customer |
| Delivery.DeliveryConfluence | src/controlplane/service.py:12-76 | after any deliveries in any order, with repetitions and among other sources' events, a field has the value and provenance of its owner's latest event |
| Delivery.OrderDoesNotMatter | src/controlplane/policy.py:26-34 | two lists that bring the same events leave the same value and provenance |
| Delivery.OlderChangesNothing | src/controlplane/policy.py:29-31 | deliveries with nothing newer change nothing |
| Delivery.StageConfluence | src/controlplane/policy.py:32-33 | the stage ends at the latest event in every order if and only if no recorded or newer stage is ahead of it |
| Transactions.ObserveFields | src/controlplane/service.py:47-60 | the loop over attributes, deciding on dictionaries it is changing, yields the row and the decisions that follow from the row that was read: accepted fields as in the event, the others as before |
| Commands.IngestDecision | src/controlplane/service.py:12-76 | every branch of ingestion with what it writes: repetition, conflict, known subject, review, founding; for a processed event each field, its provenance, the revision, the stored decisions and the exception |
| Commands.ObserveMeaning | src/controlplane/service.py:47-60 | accepted fields take value and provenance of the event, all others stay, and the revision rises by one if and only if some field is accepted |
| Commands.LinkDecision | src/controlplane/service.py:79-96 | each refusal of a link in its order, and otherwise the one new identity |
| Commands.AdmissionDecision | src/controlplane/capacity.py:55-79 | when work needs no destination, has none, finds it full, or is admitted to it |
| Commands.ProposeDecision | src/controlplane/service.py:99-114 | the answers at a closed gate, for a missing customer and for a repeated request |
| Commands.NewProposal | src/controlplane/service.py:115-128 | when a new proposal is refused a destination, and otherwise its row for fifteen minutes, its route, its job if allowed and its exception if denied |
| Commands.ApproveDecision | src/controlplane/service.py:148-178 | every answer to an approval, and its end: five minutes on or at the expiry of the proposal, whichever is first |
| Commands.ResolveDecision | src/controlplane/service.py:181-201 | every refusal of an operator decision in its order, and otherwise the exception and the requeued job |
| Transactions.Ingest | src/controlplane/service.py:12-76 | the tables and the result of an ingestion, including conflicts, repetitions and identity review; stored events and identities stay, and it succeeds exactly when the event is stored |
| Transactions.Link | src/controlplane/service.py:79-96 | the tables and the refusal of a link; no identity is ever rebound, and no source speaks twice of the customer |
| Transactions.CheckBacklog | src/controlplane/capacity.py:69-79 | the counting loop finds the destination full exactly when its pending items reach the limit |
| Transactions.Propose | src/controlplane/service.py:99-128 | the tables and the result of a proposal; no other proposal or job changes, and nothing at a closed gate |
| Transactions.Approve | src/controlplane/service.py:148-178 | the tables and the result of an approval, the last objection winning; one already approved and those of other proposals stay, and the proposer changes none |
| Transactions.Resolve | src/controlplane/service.py:181-201 | the tables and the refusal of an operator decision; only dead jobs change, and never an intent or its uncertainty |
| WorkerOps.NextJob | src/controlplane/worker.py:20-25 | none if and only if every due job is locked; otherwise an unlocked job that is due (ready or retry with `available_at` reached, or leased with the lease over, and its destination not cooling), the first by `last_served` with NULL first, `available_at` and id |
| WorkerOps.Claim | src/controlplane/worker.py:16-33 | nothing if and only if the gate is closed or no unlocked job is due; otherwise that job, leased under the token for the lease time with one more attempt, and no other change |
| WorkerOps.FinishJob | src/controlplane/worker.py:36-50 | without the lease nothing changes; with it the status (dead after a fourth attempt that would retry), reason, result, uncertainty and next time of the job, its lease ended, intent and attempts kept, and an exception exactly for dead and blocked |
| WorkerOps.Prepare | src/controlplane/worker.py:62-85 | each refusal exactly when it is given; an authorisation exactly for a held lease, a proposal that stands and no other intent stored, with the email and template or the known ones of the five profile fields as payload, stored and marked uncertain |
| WorkerOps.Defer | src/controlplane/capacity.py:182-189 | with the lease: a retry in a tenth of a second, the lease ended, an unused attempt given back, the uncertainty kept; without it nothing |
| WorkerOps.Acquire | src/controlplane/capacity.py:129-167 | for any six clock readings: refused if and only if the destination cools down, the second has its rate in grants (one less for a dispatch) or all permits are in force; otherwise granted for a new token, charged to the second, with a permit for thirty seconds; expired permits go, all other rows stay |
| WorkerOps.Release | src/controlplane/capacity.py:170-179 | the permit is gone and the completion recorded once; a failure moves the probe time to the later of the old one and the cooldown, nothing else changes |
| Dispatch.ClaimDecision | src/controlplane/worker.py:20-25 | the claim query picks a row exactly when it is due, unlocked and sorted before every other such row |
| Dispatch.FinishDecision | src/controlplane/worker.py:36-50 | the whole new state after a settlement |
| Dispatch.AcquireDecision | src/controlplane/capacity.py:134-153 | each of the three outcomes of a request for a permit exactly when it comes |
| Dispatch.ReleaseDecision | src/controlplane/capacity.py:170-179 | the whole new capacity tables after a release |
| Dispatch.MutateDecision | src/controlplane/mock.py:62-87 | every answer to a POST, and the ledger after it, by what is stored and planned for the key |
| ReceiverOps.ReceiverDb.Mutate | src/controlplane/mock.py:62-87 | the ledger and the answer; earlier effects stay, only the key can gain one, and a receipt is answered exactly when the ledger then has the effect with this body |
| ReceiverOps.ReceiverDb.Get | src/controlplane/mock.py:54-59 | a receipt exactly when the key has an effect, with the columns that its commit stored, and 404 otherwise |
| ReceiverOps.ReceiverDb.Plan | src/controlplane/mock.py:40-45 | the next failure of the key is the first planned one, those of other keys stay |
| Receiver.MutateThenGet | src/controlplane/mock.py:53-87 | an answered receipt is what the next lookup gives, and every receipt given before is given again after any POST |
| Operations.CompareReceipts | src/controlplane/operations.py:14-41 | three appending passes over sorted keys give the comparison, safe exactly when both sides agree about every key |
| Operations.FindingMeaning | src/controlplane/operations.py:18-39 | a finding is reported exactly when one of the passes has that fault at that key |
| Evidence.FindingDecision | src/controlplane/operations.py:18-39 | each kind of finding exactly when it is reported for a key |
| Evidence.ComparisonMeaning | src/controlplane/operations.py:14-41 | the comparison is the one list, ordered by pass and key, of the findings there is a reason for, with the counts and the hash of what was read |
| Evidence.SnapshotColumns | src/controlplane/operations.py:44-56 | which rows and columns a comparison reads |
| Evidence.LaneColumns | src/controlplane/operations.py:59-77 | which jobs belong to which receiver |
| Operations.SafeMeaning | src/controlplane/operations.py:40-41 | `safe_to_resume` holds exactly when both sides agree about every key |
| Lanes.DestinationSnapshot | src/controlplane/operations.py:59-77 | one comparison for each registered destination and the legacy ledger, and an error for any other set of readers |
| Lanes.SnapshotSafe | src/controlplane/operations.py:75 | over the ledgers of all configured lanes the snapshot is safe exactly when every lane is |
| Lanes.RecoverySnapshot | src/controlplane/operations.py:44-56 | a single reader suffices only while no destination is registered |
| Lanes.RuntimeAcceptance | src/controlplane/operations.py:80-89 | the snapshot of these readers and this database or an error with it; safe exactly when it is safe and the gate is open |
| Lanes.LaneSeparation | src/controlplane/operations.py:59-77 | when all lanes are safe a key has its effect only in the lane of its job, hence at most one over all receivers, and a success has it there |
| Lanes.SafeLanesAreCross | src/controlplane/operations.py:59-77 | a safe snapshot of all lanes of a quiescent system is the protocol's invariant, whatever was restored |
| Lanes.JudgesAgree | scripts/check_isolation.py:91-102 | in every reachable state whose jobs are routed and over, all lanes are safe exactly when the isolation checker's pass over receipts and jobs succeeds |
| RecoveryTx.AuthorityMeaning | src/controlplane/recovery.py:83-108 | no authority finding exactly when every customer has a consent that the consent feed, and a suppression that the privacy feed, sent in an event received since the session began, with the value that is stored |
| RecoveryTx.AuthorityFindingMeaning | src/controlplane/recovery.py:83-108 | a finding exactly for each customer and each of the two fields that its feed has not sent since |
| RecoveryTx.ObservationMeaning | src/controlplane/recovery.py:168-196 | an observation is made if and only if the databases are the bound ones, the witness is quiescent and at most ten seconds old and two ahead, and no destination is registered; it is safe if and only if both sides agree about every key and the authority is fresh |
| RecoveryTx.ApprovalMeaning | src/controlplane/recovery.py:210-228 | approval and resume pass if and only if the session is current, its proof safe, unaltered and at most ninety seconds old, the observation possible and clean now, and all four hashes the same |
| RecoveryTx.ResumeTxMeaning | src/controlplane/recovery.py:240-252 | a resume succeeds if and only if that holds and this proof is the approved one, and what it writes |
| RecoveryOps.FindUnrefreshed | src/controlplane/recovery.py:83-108 | the two loops that collect the authority findings |
| RecoveryOps.Recovery.Begin | src/controlplane/recovery.py:150-166 | closes an open gate under a new session, bound to the databases, and the next epoch; raises, and changes nothing, when the gate is closed or the session is known |
| RecoveryOps.Recovery.Observe | src/controlplane/recovery.py:168-196 | a report if and only if the databases are the bound ones, the witness is quiescent, its age is between minus two and ten seconds, and no destination is registered; the report is bound to rows, policy, receipts and binding, and safe if and only if both sides agree and the authority is fresh |
| RecoveryOps.Recovery.Verify | src/controlplane/recovery.py:198-208 | one new proof row of the current session, with such a report and its hash, if there can be one, and no change otherwise |
| RecoveryOps.Recovery.Approve | src/controlplane/recovery.py:230-238 | records the approved proof if and only if the session is current, the proof safe and at most ninety seconds old, the witness live, everything clean and all four hashes the same now; the gate stays closed |
| RecoveryOps.Recovery.Resume | src/controlplane/recovery.py:240-252 | opens the closed gate of the session if and only if the same holds now and the proof is the approved one, which it uses up |
| Resumption.ResumeSafety | src/controlplane/recovery.py:168-252 | any earlier control state beside the later receivers: if a resume succeeds while nothing is in flight, both sides agree about every key, and from then on the protocol's invariant holds and no effect or intent ever changes |
| Resumption.NoFalseAlarmsAfterResume | src/controlplane/operations.py:14-41 | from a successful resume on, the five findings that would mean lost or forged history never occur again |
| Resumption.SafeComparisonIsCross | src/controlplane/operations.py:14-41 | a finding-free comparison in a quiescent system re-establishes the whole invariant |
| Lineages.RestoredIsLineage | src/controlplane/recovery.py:111-139 | a run up to a point, and what follows after the control database was put back to it, are one history of that database |
| Authority.FreshAuthority | src/controlplane/recovery.py:187-190 | after a resume, for all later runs and new customers, every authorised marketing dispatch goes to a customer with an email whose consent is true by an event of the consent feed, and whose suppression is false by one of the privacy feed, both received since the session began |
| Authority.RecoveredAuthority | src/controlplane/recovery.py:83-108 | the same from any moment before the resume, with the beginning of the session derived |
| GateSafety.ClosedGateFreezes | src/controlplane/worker.py:16-19 | at a closed gate no step admits, approves, claims or authorises anything |
| GateSafety.GateAlternates | src/controlplane/recovery.py:150-166 | in every history, from any state and through any restores, closings and openings strictly alternate and the epoch counts the closings |
| GateSafety.ResumeEvidence | src/controlplane/recovery.py:210-252 | in every history of a database that started without proofs, through any restores: an opening rests on a verification of the current session, at most ninety seconds old, of exactly the rows, policy and receipts there now, clean, and on a later approval of that proof with the gate untouched since; at all three moments the witness was quiescent and between minus two and ten seconds old |
| GateSafety.ChangeForcesRefusal | src/controlplane/recovery.py:222-227 | in every such history a business row changed since every verification of the proof makes the resume change nothing |
| GateSafety.EverythingIsEvidenced | src/controlplane/recovery.py:198-238 | in every history, from any state, each proof is inherited unchanged or was verified in it, and an approval stands since the start or was given in it, the gate untouched since |
| GateSafety.RecoveryEvidence | src/controlplane/recovery.py:210-252 | the two together for a run, its control database put back to any point, and any recovery after that |
| Backlogs.BacklogBoundFromEmpty | src/controlplane/capacity.py:55-89 | with a clock that does not run backwards, the pending items of a destination never exceed its limit, through every command and worker step |
| Budgets.BudgetsHold | src/controlplane/capacity.py:134-167 | for any clock readings a window of a destination gets at most its rate in grants and one less in dispatches, and stored permits stay within the concurrency |
| Budgets.ReceiptsAreReserved | src/controlplane/capacity.py:150-151 | in every reachable state, if a second has only dispatches, a permit is to spare and the destination is not cooling, a receipt request with a new token is granted |
| Budgets.RequestDecision | src/controlplane/capacity.py:134-153 | in every reachable state a request is refused if and only if the destination cools, its permits are all in force, or the grants of the second reach the rate, one less for a dispatch; otherwise a new token is granted |
| Budgets.CooldownHolds | src/controlplane/capacity.py:174-179 | after a failed call nothing is granted, and no job of the destination is due, before its cooldown is over, whatever happens in between |
| PermitLog.PermitLogAccepted | src/controlplane/capacity.py:129-179 | any interleaving of acquires and timely releases leaves a log in which no destination ever has too many permits open, if unreleased permits were issued without skew |
| PermitLog.SkewDecides | scripts/isolation_acceptance.py:294-297 | for all destinations, calls, records and limits: every log within a given skew is accepted if and only if the skew is zero |
| PermitLog.OneMicrosecondTooMuch | scripts/isolation_acceptance.py:294-297 | the log that shows it |
| Checker.SweepMeaning | scripts/check_isolation.py:122-126 | the running total of the sorted edges stays within the limit exactly when at every instant no more intervals have begun than ended and the limit allows |
| Checker.Sweep | scripts/check_isolation.py:122-126 | the loop that stops at the first excess decides just that |
| Checker.NetIsOpen | scripts/check_isolation.py:117-121 | begun less ended is the number of permits open at the instant less the number that run backwards over it |
| Checker.CheckConcurrency | scripts/check_isolation.py:117-126 | passes exactly when no destination ever has more permits open than allowed, one more being let pass for each that runs backwards over the instant; for records without such permits, exactly when none ever has more open than allowed |
| Checker.ForwardRecords | scripts/check_isolation.py:117-126 | never a false alarm, and no overload hidden in a record whose permits end after they begin |
| Checker.BackwardsHides | scripts/check_isolation.py:117-126 | a record in which one backward permit hides an overload |
| Acceptance.CheckBudget | scripts/check_isolation.py:75-76 | passes exactly when no window of a destination was issued more permits than allowed |
| Acceptance.NoViolations | scripts/check_isolation.py:40-44 | the reported number of buckets above the limit is zero exactly when that test passes |
| Acceptance.Gather | scripts/check_isolation.py:77-89 | passes exactly when every request has a permit of its own destination and kind and no key occurs at two positions over all receivers |
| Acceptance.UniqueKeysMeaning | scripts/check_isolation.py:87-89 | what the loop checks key by key is that no key occurs at two positions |
| Acceptance.CheckJobs | scripts/check_isolation.py:91-102 | the loop that pops each job's receipt passes exactly when each pop fits its job and nothing is left |
| Acceptance.JobsPassMeaning | scripts/check_isolation.py:91-102 | for distinct jobs: each job is settled by the effect of its own key, and no effect is without a job |
| Acceptance.Check | scripts/check_isolation.py:69-126 | the tests together pass exactly the acceptable records |
| Records.AcceptableMeaning | scripts/check_isolation.py:69-126 | for distinct jobs the check passes exactly the sound records, read off position by position: permits recorded and used once and for their own receiver and kind, rates kept per window, one effect per key, each job settled by its own effect and each effect owned by a job, and the concurrency bound |
| Acceptance.LogsAreAccepted | src/controlplane/capacity.py:129-179 | the log of any calls, whatever the clock did, passes the budget test |
| Acceptance.WellBehavedLogsAreAccepted | src/controlplane/capacity.py:129-179 | with clock and clients well behaved it also passes the concurrency test |

## Left out

- `execute` as one method: it is modelled as the steps between its transactions and network calls, because other
  processes run in between; the decisions it takes there are functions in `worker.dfy`.
- `Client.request` as one method: its acquire and release are separate steps, with the outcome of the call as a parameter.
- Tying each network call to its permit: permits are taken and given back by steps of their own, so the runs here include
  those in which a worker sends without one.
- Rendered contact data: the model carries an absent email as `None` where the code would raise; policy has excluded it.
- `Recovery.__init__` checks on bindings and database identities: they become the two flags of `Surroundings`.
- The composition of `fingerprint` from tables, roles, memberships and privileges: one digest of all business rows and the policy.
- The copy of the quiescence witness inside a stored report: no later check reads it; its age is checked at each observation.
- Receiver latency, HTTP status texts and headers other than `Retry-After`.
- The checker's tests on samples, alerts, healthy traffic and totals, and arrival counts of `rate_observations`: observations of one run.
- Audit payloads, metrics, heartbeat and polling intervals: no decision depends on them.
- HTTP routing, credentials, input formats, SQL roles and migrations: plumbing around the modelled transactions.
- Cloud control and collection scripts, cost estimates and archived evidence: guard scripts over services that are not visible here.
- Isolation anomalies and deadlocks of PostgreSQL: transactions are atomic here.
- Liveness beyond bounded bypass: nothing says that a worker ever runs.
