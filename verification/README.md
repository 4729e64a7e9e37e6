# Mailhearth: verified model of the durable core

Mailhearth keeps its own state in SQLite while it changes things it cannot roll
back: provider APIs, SMTP servers and IMAP folders. This project models the code
that makes this safe and proves what it promises, for every run.

A database transaction is one atomic step that applies fully or not at all.
Workers, HTTP handlers and crashes are interleaved steps; anything may happen
between two statements, and between reading a row and writing it back. Where the
program updates rows in place, the model has classes and loops; each method is
proved equal to a transaction function on values, and the promises are proved
about runs built from those functions.

| Files | Part of the program |
|---|---|
| `Text` | sorted string lists without duplicates |
| `Operations`, `OperationStore` | operation, step and lock tables; the imperative transactions |
| `OperationRuns`, `OperationInvariants`, `OperationEffects`, `OperationTheorems` | workers, administrators, crashes, reconciles; what every run keeps |
| `ReconcileRace`, `LostSuccess` | exactly when a reconcile breaks at-most-once, and when a recorded success is lost again |
| `CallerKeys` | exactly when a live operation may own fewer keys than it was queued with |
| `Submissions`, `SubmissionProofs`, `SubmissionOutbox` | the outbox: staging, SMTP, Sent copy, cleanup, dispatcher |
| `Routing`, `RoutingPlans`, `Offboarding` | group targets: plain recomputation and the five ways to predict it |
| `PlanRaces` | exactly when a stored plan is still accepted after its commit |
| `Endpoints`, `EndpointStore`, `EndpointProofs` | the endpoint check cache and its writers |
| `ReusedIds` | checks that outlive their mailbox, when ids are reused |
| `Rotation` | rotation of managed credentials |
| `Ownership` | the single owner |
| `Forwarding`, `ForwardingSync` | forwarding observations |
| `ApiTypes`, `ApiTypeWalk`, `ApiTypeProofs` | the generator of TypeScript declarations |
| `Wrappers` | the optional value, saved requests |

## Where the code falls short

Ten promises do not hold of the code as it is. Each has a concrete run or input and,
for all inputs, the exact condition under which the promise holds.

1. **A reconcile's verdict can be stale.** `reconcileRemoteSteps` reads the
   provider and then writes the verdict guarded only by the step's status
   (`internal/core/remote_operation_controls.go:724`), not by the operation's. A
   "not done" read before a retry can be written while the retried call is in
   doubt; the step is opened again and the remote write happens twice
   (`StaleReconcileDoubles`). Saving a verdict allows a second effect if and only
   if the step is in doubt and the effect has happened or is about to
   (`DangerIsExact`); it never does when the operation was not claimed again since
   the reconcile checked its status (`EffectsAtMostOnce`).
2. **A recorded success can be overwritten.** A late "done", quite right, can be
   saved while the reply of the retried call is on its way; the reply is saved
   without looking at the step (`internal/core/domain_bindings.go:235`) and makes it
   unknown again (`StaleVerdictLosesSuccess`). A recorded success can be lost if and
   only if a worker is about to call that step, or has called it and not succeeded
   (`SuccessIsLosableIff`); saving "done" records such a success if and only if, in
   addition, the step was in doubt (`StaleSuccessIff`).
3. **A retry forgets the caller's keys.** `QueueOperation` locks the keys its caller
   passes in and does not save them; failing frees them, and a retry recomputes keys
   from the payload. `POST /api/admin/connections/007/discover` locks
   `connection:007` and `connection:7` (`internal/httpapi/operations.go:141`), the
   retry only the second (`LeadingZeroLosesKey`). A retry locks what was queued if
   and only if the caller's keys are among the recomputed ones
   (`RetryFromFailedRelocks`, and over all runs `OwnsAllKeysIff`).
4. **A stored plan can be refused after its own commit.** The commit checks the
   revisions of what was planned with, not who is a candidate. Completing the setup of
   another connection gives a free mailbox to a member of the group in between
   (`internal/core/setup.go:123`), and the check after the commit refuses the plan
   (`SetupSpoilsPlan`, `SetupSpoilsStatusPlan`). It accepts if and only if no other
   mailbox became a candidate (`MutationPlanAccepted`), for a member's status if and
   only if the candidates are the same (`MemberStatusPlanAccepted`).
5. **Offboarding misses mailboxes.** The group computation takes active personal
   mailboxes only, while the handover makes any owned mailbox active and personal
   (`internal/core/offboarding_operations.go:219-320` and `389-437`). A handed-over
   suspended or shared mailbox is a candidate afterwards but not a planned target
   (`LateMailboxIsMissed`). When nothing else changes between planning, departure
   (`:334`) and handover (`:376`), `OffboardTargetsExact` is the exact condition.
6. **One folder for drafts and sent mail loses the copy.** Nothing forbids the
   staging folder to be the Sent folder (`internal/core/folder_mapping.go:29-131`).
   Then the search for a Sent copy finds the draft, and the cleanup deletes it
   (`SameFolderLoses`); a copy is left if and only if the folders differ
   (`CleanupKeepsCopy`).
7. **A reused member id can leave the organisation without an owner.** `members.id`
   is a plain `INTEGER PRIMARY KEY`, so SQLite may hand out a deleted last id again.
   A self-update that read the old member can then commit on the new one, who has
   become owner (`ReusedIdLosesOwner`). A commit keeps the single owner if and only
   if its read is not outdated in this sense (`CommitKeepsOwner`); with fresh ids it
   never is (`ExactlyOneOwner`).
8. **The type walk need not end.** It stops at named structs that are declared
   already, but embedded structs are flattened without being declared. For
   `type A struct { X *struct{ A } }` the only cycle passes through the non-embedded
   field `X` of a named struct, and the walk never ends (`EmbeddedCycleRunsForever`).
   Rendering a type ends if and only if nothing it reaches unfolds into itself, where
   a named struct that is the type of a field is not unfolded (`FinishesIffNoCycle`).
9. **Reused mailbox and credential ids make an unchecked endpoint ready.**
   `DeleteMailbox` looks at `operations.target_mailbox_id`, which an offboarding leaves
   empty, and never at `operation_locks` (`internal/core/mailbox_lifecycle.go:81`). A
   rotation that passed its check before the mailbox was deleted can commit on a new
   mailbox and credential with the same ids (`ReusedIdIsReady`). What a commit writes
   resolves to what was checked if and only if row and credential still hold what the
   writer read (`CommitResolvesIff`); with fresh ids ready is always sound
   (`ReadyIsSound`).
10. **A late rename can mislead a reference.** `Rename` leaves the old declaration
    behind, and a type added later may take its name: no error, and a field of the
    renamed type is declared as the other (`LateRenameMisleads`). The output is wrong
    if and only if another declaration refers to the type by its old name and a later
    type takes that name (`LateRenameIsSafeIff`). The program itself never renames.

## What is assumed

- Providers are truthful: a success reply means the write took effect, one of the
  eight listed error codes means it did not, and a reconcile's read tells which.
  Any other reply, or none, may mean either.
- `SubmitSMTP` returns no error only when the message was accepted; a Sent copy
  that an append may have left behind is visible to the next search.
- Programs pass on the error of a remote step that ended unknown, and the journal is
  the only way they write to providers.
- Only Mailhearth deletes, moves or copies the draft and the Sent copy of a
  submission; what other mail clients do to them is not modelled.
- While a rotation runs, the operation's lock on the mailbox keeps other writers of
  that mailbox out, and the mailbox is not deleted, which no lock prevents.
- Between planning an offboarding, departure and handover nothing else changes the
  tables.
- Sealing, digests and IDNA conversion are functions; IDNA leaves its own results
  alone. An embedded Go field has type `T` or `*T` with `T` no pointer, as the Go
  specification demands.

## Model

| member | source | states |
|---|---|---|
| Text.UniqueInPlace | internal/core/member_creation.go:254-262 | overwriting the slice's own front gives the deduplication of its old content |
| Text.CanonicalShape | internal/core/operations.go:416-423 | sorting and deduplicating gives a strictly increasing list with exactly the same elements |
| Text.SameTargetsIsPermutation | internal/core/routing_operations.go:816-822 | the comparison accepts exactly permutations, counting duplicates |
| Text.SameTargetsIsSetEquality | internal/core/routing_operations.go:816-822 | on sorted lists without duplicates the comparison is equality of sets |
| Operations.RetryKeysMatch | internal/core/remote_operation_controls.go:16-38 | without a stored plan the keys locked when queueing are exactly those a retry recomputes and those the caller passed in |
| OperationStore.Store.QueueOperation | internal/core/operations.go:424-505 | one transaction: a repeated request gives the saved operation, other content or a foreign lock is refused, otherwise operation, request and all locks are stored together |
| OperationStore.Store.GatherKeys | internal/core/operations.go:409-423 | the caller's, the plan's and the payload's keys, appended, sorted and deduplicated |
| OperationStore.Store.FindOwner | internal/core/operations.go:438-449 | the first owner met, or none when no key is locked |
| OperationStore.Store.RemoteOperationStep | internal/core/domain_bindings.go:173-243 | one pass through a step row: done steps are skipped, doubtful ones refused, the row is running before the call and ends as the reply says; the call is made exactly while the step is neither done nor in doubt |
| OperationStore.PassIsARun | internal/core/domain_bindings.go:173-243 | the pass is a run of the steps the world is made of: check, mark, call, save |
| OperationStore.Store.FinishExecution | internal/core/operations.go:788-839 | the final row and locks; a committed success is left alone |
| OperationStore.Store.CompleteLocalOperation | internal/core/operations.go:853-922 | business commit, steps, status and locks at once, and only while running |
| OperationStore.Store.CompleteIntermediate | internal/core/operations.go:853-922 | the new mailbox is locked before its commit is recorded, or nothing changes; nobody else loses a lock |
| OperationStore.Store.StartOperations | internal/core/operations.go:567-575 | recovery turns running steps and operations into unknown ones and nothing else |
| OperationStore.Store.RetryRemote | internal/core/remote_operation_controls.go:235-355 | takes every key or changes nothing; failed steps become pending again |
| OperationStore.Store.RetryLocal | internal/core/operation_controls.go:141-225 | the same for operations that are one local transaction |
| OperationStore.Store.ControlOperation | internal/core/operation_controls.go:104-225 | cancel, reconcile and retry are dispatched by kind and refused outside their statuses |
| OperationStore.Store.ConfirmExternal | internal/core/offboarding_operations.go:666-780 | only pending external items may be reported, at the current mailbox revision; the last one closes the operation and frees its locks |
| OperationStore.Store.ReportLostCredentialCleanup | internal/core/credential_cleanup.go:32-105 | leaves unknown only through the reported step, when nothing else is in doubt |
| OperationInvariants.StepKeeps | internal/core/operations.go:634-839 | every step of anyone keeps the structure of rows, locks, requests, workers and reconciles |
| OperationEffects.InvokeSound | internal/core/domain_bindings.go:205-243 | the one step at which an effect can happen finds its row saved as running and the effect not yet there |
| OperationEffects.StepSound | internal/core/domain_bindings.go:173-243 | every truthful step keeps: no effect twice, none behind an open step, one behind each success |
| OperationEffects.EffectsAtMostOnce | internal/core/domain_bindings.go:173-243 | over every run with crashes, retries and current reconciles, each journalled write happens at most once |
| ReconcileRace.DangerIsExact | internal/core/remote_operation_controls.go:724 | saving a verdict makes a second effect possible if and only if the step is in doubt and the effect happened or is about to |
| ReconcileRace.DangerIsReachable | internal/core/remote_operation_controls.go:371-729 | two overlapping reconciles, a retry and a lost reply lead there from the empty state |
| ReconcileRace.StaleReconcileDoubles | internal/core/remote_operation_controls.go:371-729 | truthful providers alone do not give at-most-once |
| OperationTheorems.RowHistory | internal/core/remote_operation_controls.go:142-355 | what any step may do to any operation's row |
| OperationTheorems.ClosedForever | internal/core/operations.go:788-794 | a succeeded or cancelled operation never changes again, so a later error does not overwrite a success |
| OperationTheorems.InDoubtIsNotDropped | internal/core/remote_operation_controls.go:142-245 | an operation with a remote write in doubt stays running or unknown until the write is settled, or reported by an administrator |
| OperationTheorems.SuccessStays | internal/core/domain_bindings.go:173-243 | with current reconciles a succeeded step stays succeeded in every continuation |
| LostSuccess.SuccessIsLosableIff | internal/core/domain_bindings.go:235 | a recorded success can be lost if and only if a call of its step is about to be made, or was made and has not been answered by a success |
| LostSuccess.StaleSuccessIff | internal/core/remote_operation_controls.go:724 | saving "done" records a success that can be lost if and only if the step is in doubt and such a call is under way |
| LostSuccess.StaleVerdictLosesSuccess | internal/core/remote_operation_controls.go:371-729 | truthful providers alone do not keep a recorded success |
| OperationTheorems.LocksAreHeldKeys | internal/core/operations.go:498-502 | in every reachable state a key is locked by an operation if and only if that operation is live and holds it |
| OperationTheorems.LiveOwnsItsKeys | internal/core/operations.go:438-502 | a live operation owns every key that can be recomputed from its row, and every key it was queued with if the caller passed in no other |
| OperationTheorems.RetryFromFailedRelocks | internal/core/remote_operation_controls.go:297-355 | a retry from failed takes the recomputed keys, all free, or changes nothing; they are the queued ones if and only if the caller's are among them |
| CallerKeys.OwnsAllKeysIff | internal/core/operation_controls.go:201-219 | a live operation owns every key it was queued with, in all runs, if and only if it has a stored plan, and so never becomes failed, or the caller's keys are among the recomputed ones |
| CallerKeys.LeadingZeroLosesKey | internal/httpapi/operations.go:141 | with the path value 007 it does not |
| OperationTheorems.FailedHasNoEffects | internal/core/operations.go:810-818 | failed means no step other than execute and sieve.prepare has succeeded |
| OperationTheorems.CommittedExactlyOnce | internal/core/operation_controls.go:151-164 | a local operation commits at most once, then it is succeeded; what a reconcile records as not committed was not |
| OperationTheorems.OneWorkerPerOperation | internal/core/operations.go:634-645 | two workers never run the same operation |
| OperationTheorems.RequestIsIdempotent | internal/core/operations.go:424-437 | a repeated request gives its operation whatever happened since; other content is refused |
| SubmissionProofs.SubmitKeeps | internal/core/submissions.go:510-526 | the step that calls SMTP finds that it was never called |
| SubmissionProofs.HandedOverAtMostOnce | internal/core/submissions.go:416-588 | in every run SMTP is called at most once per submission, exactly once when recorded as accepted |
| SubmissionProofs.StatusesAreLegal | internal/core/submissions.go:401-561 | only legal combinations of the three statuses are reachable |
| SubmissionProofs.DraftUntilSent | internal/core/submissions.go:527-596 | until sent is recorded the staged draft is there with the reserved digest |
| SubmissionProofs.SentMeansCopied | internal/core/submissions.go:536-563 | in append mode with separate folders a sent submission has its Sent copy, with its digest, from then on |
| SubmissionProofs.OneSentCopy | internal/core/submissions.go:536-559 | a folder never holds two messages of one submission |
| SubmissionProofs.CleanupKeepsCopy | internal/core/submissions.go:590-596 | a copy is left after the cleanup if and only if staging and Sent folder differ |
| SubmissionProofs.DispatcherCap | internal/core/submissions.go:357-381 | at most four executions, never two in one mailbox |
| SubmissionProofs.FinalForever | internal/core/submissions.go:300-311 | sent, failed and SMTP-unknown rows never change again, in particular are never queued again |
| SubmissionProofs.OneRequestOneHandoff | internal/core/submissions.go:199-223 | one client request names one submission in every continuation, and it is handed over at most once |
| SubmissionOutbox.DispatchIsFair | internal/core/submissions.go:357-381 | one pass keeps the cap, starts no busy mailbox, and passes over only what has to wait |
| SubmissionOutbox.Outbox.ReserveSubmission | internal/core/submissions.go:199-223 | reserving is idempotent per mailbox, member and request id |
| SubmissionOutbox.Outbox.CompleteSubmissionStaging | internal/core/submissions.go:231-262 | the staging result is saved only on a preparing row |
| SubmissionOutbox.Outbox.StartSubmissions | internal/core/submissions.go:300-311 | three bulk updates in order are one recovery of each row |
| SubmissionOutbox.Outbox.DispatchQueued | internal/core/submissions.go:357-381 | the loop starts what the specification starts and keeps the cap |
| SubmissionOutbox.Outbox.RetrySubmissionSentCopy | internal/core/submissions.go:711-724 | only accepted rows with a failed copy are queued again |
| SubmissionOutbox.Outbox.ExecuteSubmission | internal/core/submissions.go:416-564 | SMTP is called if and only if the row was queued and not started; the other rows stay, and the row ends closed and legal |
| SubmissionOutbox.SameFolderLoses | internal/core/submissions.go:536-563 | with one folder for both, a run ends with a sent message of which no copy exists |
| Routing.SortedKeys | internal/core/routing_operations.go:483-519 | the keys of a map, in whatever order, come out sorted and once each |
| Routing.ComputeGroupCandidateTargets | internal/core/routing_operations.go:483-519 | the loop over the rows gives the specified result or the first constraint failure |
| Routing.ComputeMeaning | internal/core/routing_operations.go:483-519 | fails exactly when a candidate breaks the rule; otherwise the targets are the lower-cased candidate addresses and the versions those of the candidates |
| RoutingPlans.SameVersionsIsSetEquality | internal/core/routing_operations.go:824-853 | the length-plus-lookup test accepts exactly equal sets of mailbox versions |
| RoutingPlans.ValidateGroupCandidates | internal/core/routing_operations.go:824-853 | accepts if and only if every rule's plan matches the recomputation |
| RoutingPlans.AcceptedMeaning | internal/core/routing_operations.go:824-853 | acceptance means a permutation of the current targets and exactly the current mailbox versions |
| RoutingPlans.WhatIfMutation | internal/core/mailbox_mutations.go:173-208 | targets and versions under the hypothesis equal the recomputation after the commit, failures included |
| RoutingPlans.OtherGroupsKeepTargets | internal/core/mailbox_mutations.go:136-172 | groups of neither owner, which are not planned for, keep their targets |
| RoutingPlans.WhatIfMemberStatus | internal/core/member_status_operations.go:84-123 | the same for a member's status |
| PlanRaces.PlanAcceptedIff | internal/core/routing_operations.go:824-853 | planned on one state and committed on another, a plan is accepted if and only if the same mailboxes count |
| PlanRaces.MutationPlanAccepted | internal/core/mailbox_mutations.go:257-283 | a mailbox change committed under its guards: accepted if and only if no other mailbox became a candidate since planning |
| PlanRaces.MemberStatusPlanAccepted | internal/core/member_status_operations.go:168-193 | a status change: accepted if and only if the candidates are still the same |
| PlanRaces.SetupSpoilsPlan | internal/core/setup.go:123 | completing a connection's setup in between makes the check refuse a mailbox change that passed its guards |
| PlanRaces.SetupSpoilsStatusPlan | internal/core/setup.go:123 | and a status change |
| RoutingPlans.PlanAddition | internal/core/mailbox_additions.go:155-168 | refuses exactly when a rule does not take the mailbox; otherwise every rule has the address sorted in |
| RoutingPlans.AdditionIsIncremental | internal/core/mailbox_additions.go:132-171 | sorting the address in equals recomputing once the mailbox exists; the versions grow by the new mailbox |
| RoutingPlans.AdditionPlanAccepted | internal/core/mailbox_additions.go:252-296 | a plan accepted before the mailbox existed is accepted afterwards, address sorted in and mailbox appended |
| RoutingPlans.CreationIsIncremental | internal/core/member_creation.go:230-248 | for none, bind, create and attach the planned targets are those of the recomputation afterwards |
| RoutingPlans.BindIsIncremental | internal/core/member_creation.go:448-470 | the bind case, where the mailbox existed without owner |
| RoutingPlans.ObtainIsIncremental | internal/core/member_creation.go:491-508 | the create and attach case |
| RoutingPlans.JoinIsIncremental | internal/core/resource_guards.go:182-216 | a member without a mailbox changes no target |
| RoutingPlans.CreationPlanAccepted | internal/core/member_creation.go:491-514 | a plan accepted before the member was created is accepted afterwards, with the new address sorted in |
| Offboarding.PreparePlans | internal/core/offboarding_operations.go:112-210 | the plans cover exactly the mailboxes the leaver owns, at their revisions, with active new owners |
| Offboarding.ApplyHandover | internal/core/offboarding_operations.go:389-437 | in any order of the plans, all guarded updates go through or none is kept |
| Offboarding.PrepareOffboardGroup | internal/core/offboarding_operations.go:219-320 | the separate loop gives the specified targets |
| Offboarding.OffboardTargetsExact | internal/core/offboarding_operations.go:219-320 | agrees with the recomputation after departure and handover if and only if a counting mailbox breaks the rule, or each mailbox that becomes a candidate late fits it and shares its address with one that counts; a refusal before is one afterwards |
| Offboarding.SkippedGroupsKeepTargets | internal/core/offboarding_operations.go:219-320 | groups it skips keep their result |
| Offboarding.LateMailboxIsMissed | internal/core/offboarding_operations.go:376-477 | a handed-over suspended mailbox is a candidate afterwards and was not planned |
| EndpointStore.EndpointTables.UpdateEndpoints | internal/core/endpoint_views.go:163-246 | protocol by protocol, all rows are rewritten at the checked versions or nothing changes |
| EndpointStore.EndpointTables.ActivateManaged | internal/core/managed_mailboxes.go:439-500 | checked endpoints are pointed to the new credential; a row that moved on undoes everything |
| EndpointStore.EndpointTables.ConfigureConnection | internal/core/connection_candidates.go:161-225 | row by row passed checks become stale: no endpoint is ready or shown as passed afterwards, and the same read cannot be used twice |
| EndpointProofs.ReadyIsSound | internal/core/mailboxes.go:18-28 | whatever the writers interleave, with fresh ids, a ready endpoint resolves to exactly a network, user name and secret with which a check succeeded |
| EndpointProofs.ReadyIffShownPassed | internal/core/endpoint_views.go:106-108 | in every reachable state ready is the same as active, resolvable and shown as passed |
| ReusedIds.CommitResolvesIff | internal/core/endpoint_views.go:163-246 | whatever ids were reused, an endpoint a commit writes resolves to exactly what its writer checked if and only if row and credential still hold what the writer read |
| ReusedIds.ReusedIdIsReady | internal/core/mailbox_lifecycle.go:81-163 | with reused ids a run ends with a ready endpoint whose secret never passed a check |
| EndpointProofs.UpdateKeeps | internal/core/endpoint_views.go:163-246 | an update from stale reads keeps every recorded check true |
| EndpointProofs.AttachKeeps | internal/core/endpoints.go:287-381 | so does attaching a mailbox |
| EndpointProofs.ReactivateKeeps | internal/core/mailbox_lifecycle.go:238-269 | so does reactivation with the same configuration |
| EndpointProofs.ManagedKeeps | internal/core/managed_mailboxes.go:439-492 | so does activation, although it records the first connection read and checks the second |
| EndpointProofs.ConfigureKeeps | internal/core/connection_candidates.go:161-225 | so does changing the connection |
| Rotation.RevocationIsSafe | internal/core/managed_mailboxes.go:505-553 | at every crash point a credential is revoked only while pending, owned and used by no enabled endpoint; the enabled ones have a checked active replacement |
| Rotation.OneActiveCredential | internal/core/managed_mailboxes.go:439-500 | at most one managed credential of a mailbox is active |
| Rotation.GenerationsIncrease | internal/core/managed_mailboxes.go:333-400 | a managed credential issued later in a run has a greater generation than every credential before it, and no two managed ones share one |
| Rotation.VerifySavedCredential | internal/core/credential_reconciliation.go:25-101 | succeeded and failed are reported exactly when every endpoint tried, at least one, agrees |
| Rotation.MailboxCredentials.ActivateCandidate | internal/core/managed_mailboxes.go:439-500 | one transaction replaces the active credential and repoints exactly the checked endpoints |
| Rotation.MailboxCredentials.RevokeOld | internal/core/managed_mailboxes.go:505-553 | only pending owned credentials are revoked; it stops at the first that still authenticates |
| Ownership.ExactlyOneOwner | internal/core/setup.go:186-216 | after initialisation every reachable state has exactly one owner, who is active, if ids are not reused |
| Ownership.CommitKeepsOwner | internal/core/members.go:184-246 | for any ids, a commit keeps the single active owner if and only if its read is not outdated |
| Ownership.ReusedIdLosesOwner | internal/core/members.go:705-759 | deleting the last member and reusing the id lets a pending self-update remove the owner |
| Ownership.MemberTable.TransferOwnership | internal/core/members.go:644-702 | both compare-and-sets go through or the table is as before; there is one owner before and after |
| Ownership.MemberTable.UpdateMember | internal/core/members.go:184-246 | writes only at the revision that was read and only a manageable account |
| Ownership.MemberTable.DeleteMember | internal/core/members.go:705-759 | removes only an invited or departed row at the revision that was read, so whoever can sign in, and the single owner, stay |
| Forwarding.NormalizedForwarding | internal/core/forwarding_observations.go:14-77 | the loop gives the specified normal form or the first error |
| Forwarding.NormalizeMeans | internal/core/forwarding_observations.go:39-76 | the normal form has exactly the normalized addresses, each with its report, sorted, without the source |
| Forwarding.NormalizeTwice | internal/core/forwarding_observations.go:14-77 | normalizing a normal form changes nothing |
| ForwardingSync.ObserveResources | internal/core/forwarding_observations.go:164-211 | the nested loops give the specified fold |
| ForwardingSync.SeeMeans | internal/core/forwarding_observations.go:170-211 | the fold fails exactly on an unreadable resource; targets are what some resource names, a report is the agreed one or unknown, verified means every resource confirms |
| ForwardingSync.OrderDoesNotMatter | internal/core/forwarding_observations.go:160-221 | resources with distinct keys give the same observation in every order |
| ForwardingSync.Forwardings.SyncForwardingObservations | internal/core/forwarding_observations.go:136-258 | all rows are synced or none |
| ForwardingSync.SecondSyncChangesNothing | internal/core/forwarding_observations.go:241-256 | a second sync over the same observations changes no row and no revision |
| ForwardingSync.SyncedMeans | internal/core/forwarding_observations.go:233-249 | synced if and only if the desired targets are the observed ones, once each, and every resource confirms them in the desired mode |
| ApiTypes.Tally | internal/apitypes/apitypes.go:220-228 | after the loop each name has its least depth and the number of candidates there |
| ApiTypes.SelectFields | internal/apitypes/apitypes.go:220-235 | the loops select the candidates alone at the least depth of their name |
| ApiTypes.SurvivorsAre | internal/apitypes/apitypes.go:229-235 | all of those, once each, in declaration order |
| ApiTypes.SurvivorNamesDiffer | internal/apitypes/apitypes.go:229-235 | no JSON name is rendered twice |
| ApiTypeWalk.FinishesIffNoCycle | internal/apitypes/apitypes.go:101-199 | rendering a type ends if and only if nothing it reaches unfolds into itself through pointers, elements, anonymous and embedded structs |
| ApiTypeWalk.AcyclicFinishes | internal/apitypes/apitypes.go:146-155 | without such a cycle it ends whatever is declared already |
| ApiTypeWalk.EmbeddedCycleRunsForever | internal/apitypes/apitypes.go:183-199 | a cycle through an embedded struct never ends |
| ApiTypeProofs.ApiGenerator.TypeExpr | internal/apitypes/apitypes.go:101-159 | the mutating walk gives the specified expression and generator state |
| ApiTypeProofs.ApiGenerator.WalkFields | internal/apitypes/apitypes.go:181-219 | the candidates in declaration order, embedded structs flattened in place |
| ApiTypeProofs.ApiGenerator.DeclareType | internal/apitypes/apitypes.go:86-99 | the loop over the names refuses a second use; without an error names stay injective |
| ApiTypeProofs.SourceIsSound | internal/apitypes/apitypes.go:265-282 | renames and roots in any order, no type renamed after its declaration, no error: names stand for one type each, every reference of the output leads to the declaration of its type, and every declaration has its body |
| ApiTypeProofs.LateRenameIsSafeIff | internal/apitypes/apitypes.go:45-54 | after a late rename and more roots a reference of the output is wrong if and only if another declaration refers to the type by its old name and a later type takes that name |
| ApiTypeProofs.LateRenameMisleads | internal/apitypes/apitypes.go:86-99 | three calls without an error end with a field declared as another package's type |
| ApiTypeProofs.ApiGenerator.RenameType | internal/apitypes/apitypes.go:45-54 | refuses a name in use; without an error names stay injective and no declaration changes |

## Left out

- SQL, SQLite locking, JSON encoding and migrations: tables are maps or sequences of records, a transaction is one step.
- Provider adapters, IMAP, SMTP, ManageSieve, DNS and TLS clients: their outcomes are parameters of steps.
- Encryption, password hashing, digests and tokens: secrets and digests are plain strings.
- HTTP routes, sessions, rate limits, audit text, the web client and the setup wizard.
- Timeouts, tickers and wake channels: only the choice that a step is interrupted or a worker is lost. The expiry of primary passwords is not modelled.
- The validation of each operation kind's input, and what permissions contain: one boolean per check.
- The worker's choice of the oldest queued operation, and the order of submissions in a mailbox, which the dispatcher does not keep when four are running.
- Lower-casing and trimming of characters outside ASCII.
- Deleting a group and plans for single addresses; the revisions inside a stored plan.
- The external checklist of an offboarding beyond its status, its grants, and its remote calls one by one.
- The deletion of an original draft and the reply flags in the cleanup of a submission.
- More than one connection at a time, and API credentials, in the endpoint cache; the conditions under which a mailbox may be deleted.
- Importing a discovered forwarding.
- The text layout of the generated TypeScript; the content of a field's explicit type.
- OperationEffects.EffectsAtMostOnce: assumes that no execution was claimed between a reconcile's status check and the write of its verdict, because without that it is false; ReconcileRace.DangerIsExact has the exact condition.
- OperationTheorems.SuccessStays: makes the same assumption; LostSuccess.SuccessIsLosableIff and StaleSuccessIff have the exact condition.
- SubmissionProofs.SentMeansCopied: assumes separate folders, because with one folder it is false; SubmissionProofs.CleanupKeepsCopy has the exact condition.
- Ownership.ExactlyOneOwner: assumes ids are not reused, because otherwise it is false; Ownership.CommitKeepsOwner has the exact condition.
- OperationTheorems.LiveOwnsItsKeys: leaves out keys only the caller knows, because after a retry it is false of them; CallerKeys.OwnsAllKeysIff has the exact condition.
- EndpointProofs.ReadyIsSound: assumes fresh mailbox and credential ids, because otherwise it is false; ReusedIds.CommitResolvesIff has the exact condition for a commit.
- ApiTypeProofs.SourceIsSound: no type is renamed after its declaration, because that can mislead references; ApiTypeProofs.LateRenameIsSafeIff has the exact condition for one such rename.
- EndpointStore.EndpointTables.UpdateEndpoints: the insertion of new credentials is one step, and the retirement of credentials no endpoint uses is a separate step.
- EndpointProofs.AttachKeeps: attaching and reactivating are modelled on values; the loops that fill the rows are those of UpdateEndpoints.
- Rotation.RevocationIsSafe: an endpoint is enabled or not; networks and user names are in the endpoint cache model.
