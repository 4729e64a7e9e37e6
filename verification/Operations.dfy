/** The tables behind a durable operation and every transaction on them.

    `Journal` holds the three tables (operations with their steps, request
    ids, resource locks). Each function whose name ends in `Tx` is one database
    transaction: it either applies fully (`Done`) or leaves the tables alone
    (`Refused`). */
module Operations {

  import opened Wrappers
  import opened Text

  type OpId = nat
  type Key = string

  datatype Status = Queued | Running | Succeeded | Failed | Unknown | NeedsAction | Cancelled

  datatype StepStatus = StepPending | StepRunning | StepSucceeded | StepFailed | StepUnknown | StepReported

  /** Step names, grouped by who writes them: the overall `execute` step, the
      Sieve preparation, steps recorded by a local transaction, journalled
      remote writes, and items an administrator handles outside the system. */
  datatype StepKey =
    | Execute
    | SievePrepare
    | LocalStep(name: string)
    | RemoteStep(name: string)
    | ExternalStep(name: string)

  /** What an operation was asked to do, as far as locking and control look at it.
      `Local` kinds are one local transaction; `Planned` kinds store a prepared
      plan when queued and create rows whose keys are locked at once. `caller` are
      the keys the caller of `QueueOperation` passes in; nothing saves them. */
  datatype Payload =
    | Local(connection: nat, mailbox: nat, caller: seq<Key>)
    | Domain(connection: nat, domainName: string, binding: nat, caller: seq<Key>)
    | Plain(connection: nat, mailbox: nat, caller: seq<Key>)
    | Planned(connection: nat, mailbox: nat, offboard: bool, planKeys: seq<Key>, created: seq<Key>, caller: seq<Key>)

  /** `held` records every key the operation was queued with or locked since;
      it says nothing about whether the locks are still there. */
  datatype Operation = Operation(
    status: Status, payload: Payload, sealed: bool, steps: map<StepKey, StepStatus>, held: set<Key>)

  datatype RequestKey = RequestKey(actor: nat, requestId: string)

  datatype Journal = Journal(
    operations: map<OpId, Operation>, requests: map<RequestKey, Saved>, locks: map<Key, OpId>)

  datatype Outcome = Done(journal: Journal) | Refused(code: string)

  const PREPARE := LocalStep("prepare")
  const PROCESSING := LocalStep("member.processing")

  predicate Live(s: Status) {
    s in {Queued, Running, Unknown, NeedsAction}
  }

  predicate InDoubt(s: StepStatus) {
    s == StepRunning || s == StepUnknown
  }

  /** A step whose success means something outside this process has changed. */
  predicate Effective(k: StepKey) {
    k != Execute && k != SievePrepare
  }

  predicate HasEffects(op: Operation) {
    exists k | k in op.steps :: Effective(k) && op.steps[k] == StepSucceeded
  }

  /** Some step other than `execute` and `except` is running or unknown. */
  predicate InDoubtBesides(op: Operation, except: StepKey) {
    exists k | k in op.steps :: k != Execute && k != except && InDoubt(op.steps[k])
  }

  predicate AnyInDoubt(op: Operation) {
    exists k | k in op.steps :: InDoubt(op.steps[k])
  }

  // ----- resource keys --------------------------------------------------------

  function Digits(n: nat): string {
    (if n < 10 then "" else Digits(n / 10)) + ["0123456789"[n % 10]]
  }

  function ConnectionKeys(id: nat): seq<Key> {
    if id > 0 then ["connection:" + Digits(id)] else []
  }

  function MailboxKeys(id: nat): seq<Key> {
    if id > 0 then ["mailbox:" + Digits(id)] else []
  }

  function DomainKeys(p: Payload): seq<Key> {
    if p.Domain? then
      ["domain-name:" + Digits(p.connection) + ":" + p.domainName]
      + (if p.binding > 0 then ["domain-binding:" + Digits(p.binding)] else [])
    else []
  }

  function TargetMailbox(p: Payload): nat {
    if p.Domain? then 0 else p.mailbox
  }

  /** The keys `QueueOperation` checks and locks: gathered, sorted, deduplicated. */
  function QueueKeys(p: Payload): seq<Key> {
    Canonical(p.caller + (if p.Planned? then p.planKeys else []) + DomainKeys(p)
              + ConnectionKeys(p.connection) + MailboxKeys(TargetMailbox(p)))
  }

  /** The keys a retry recomputes; `planKeys` comes from the stored plan. */
  function RetryKeys(p: Payload, planKeys: seq<Key>): seq<Key> {
    Sort(ConnectionKeys(p.connection) + MailboxKeys(TargetMailbox(p)) + DomainKeys(p)
         + (if p.Planned? then planKeys else []))
  }

  function CreatedKeys(p: Payload): seq<Key> {
    if p.Planned? then p.created else []
  }

  /** All keys a payload is queued with. */
  function QueuedKeys(p: Payload): set<Key> {
    Elements(QueueKeys(p)) + Elements(CreatedKeys(p))
  }

  /** Without a stored plan a retry recomputes the keys it was queued with, but for
      those the caller passed in. */
  lemma RetryKeysMatch(p: Payload, planKeys: seq<Key>)
    requires !p.Planned?
    ensures QueuedKeys(p) == Elements(p.caller) + Elements(RetryKeys(p, planKeys))
    ensures RetryKeys(p, planKeys) == RetryKeys(p, [])
  {
    hide Sort, Canonical, ConnectionKeys, MailboxKeys, DomainKeys, TargetMailbox;
    var c, m, d := ConnectionKeys(p.connection), MailboxKeys(TargetMailbox(p)), DomainKeys(p);
    var queued, again := p.caller + [] + d + c + m, c + m + d + [];
    SortElements(again);
    CanonicalShape(queued);
    forall x ensures x in queued <==> x in p.caller || x in again {
      assert x in queued <==> x in p.caller || x in d || x in c || x in m;
      assert x in again <==> x in c || x in m || x in d;
    }
    assert Elements(queued) == Elements(p.caller) + Elements(again);
  }

  /** The keys a retry recovers, come what may. */
  function RecomputedKeys(p: Payload): set<Key> {
    if p.Planned? then QueuedKeys(p) else Elements(RetryKeys(p, []))
  }

  /** The queued keys are recovered exactly when the caller's are. */
  lemma QueuedAreRecomputed(p: Payload)
    ensures RecomputedKeys(p) <= QueuedKeys(p)
    ensures RecomputedKeys(p) == QueuedKeys(p) <==> p.Planned? || Elements(p.caller) <= RecomputedKeys(p)
  {
    hide QueuedKeys, RetryKeys;
    if !p.Planned? { RetryKeysMatch(p, []); }
  }

  /** What a retry leaves as the keys held: from `failed` the old locks are gone. */
  function HeldAgain(op: Operation, keys: set<Key>): set<Key> {
    if op.status == Failed then keys else op.held + keys
  }

  // ----- locks ----------------------------------------------------------------

  /** The owner met first when `keys` are looked up in order. */
  function FirstOwner(locks: map<Key, OpId>, keys: seq<Key>): (r: Option<OpId>)
    ensures r.None? <==> forall k | k in keys :: k !in locks
    ensures r.Some? ==> exists k | k in keys :: k in locks && locks[k] == r.value
  {
    if keys == [] then None
    else if keys[0] in locks then Some(locks[keys[0]])
    else
      var r := FirstOwner(locks, keys[1..]);
      assert forall k :: k in keys <==> k == keys[0] || k in keys[1..];
      r
  }

  /** The same lookup, ignoring locks that `self` owns. */
  function FirstOther(locks: map<Key, OpId>, keys: seq<Key>, self: OpId): (r: Option<OpId>)
    ensures r.None? <==> forall k | k in keys :: k in locks ==> locks[k] == self
    ensures r.Some? ==> r.value != self && exists k | k in keys :: k in locks && locks[k] == r.value
  {
    if keys == [] then None
    else if keys[0] in locks && locks[keys[0]] != self then Some(locks[keys[0]])
    else
      var r := FirstOther(locks, keys[1..], self);
      assert forall k :: k in keys <==> k == keys[0] || k in keys[1..];
      r
  }

  function Acquire(locks: map<Key, OpId>, keys: set<Key>, id: OpId): map<Key, OpId> {
    map k | k in locks.Keys + keys :: if k in keys then id else locks[k]
  }

  function Release(locks: map<Key, OpId>, id: OpId): map<Key, OpId> {
    map k | k in locks && locks[k] != id :: locks[k]
  }

  // ----- queueing -------------------------------------------------------------

  datatype QueueResult = Created | Repeated(id: OpId) | DigestConflict | InProgress(owner: OpId) | Rejected

  predicate Distinct(keys: seq<Key>) {
    forall i, j | 0 <= i < j < |keys| :: keys[i] != keys[j]
  }

  /** Row keys are inserted without a conflict clause, before the queue keys are. */
  predicate CreatedFree(j: Journal, p: Payload) {
    && Distinct(CreatedKeys(p))
    && forall k | k in CreatedKeys(p) :: k !in j.locks && k !in QueueKeys(p)
  }

  function FirstSteps(p: Payload): map<StepKey, StepStatus> {
    var base := map[Execute := StepPending];
    if p.Planned? then
      if p.offboard then base[PREPARE := StepSucceeded][PROCESSING := StepPending] else base[PREPARE := StepSucceeded]
    else base
  }

  function NewOperation(p: Payload): Operation {
    Operation(Queued, p, true, FirstSteps(p), QueuedKeys(p))
  }

  /** `valid` is the outcome of the version and permission checks and of the
      reservation itself. */
  function QueueTx(j: Journal, rk: RequestKey, digest: string, id: OpId, p: Payload, valid: bool): (Journal, QueueResult) {
    if rk in j.requests then
      (j, if j.requests[rk].digest == digest then Repeated(j.requests[rk].id) else DigestConflict)
    else
      var owner := FirstOwner(j.locks, QueueKeys(p));
      if owner.Some? then (j, InProgress(owner.value))
      else if !valid || !CreatedFree(j, p) || id in j.operations then (j, Rejected)
      else
        (Journal(j.operations[id := NewOperation(p)], j.requests[rk := Saved(id, digest)],
                 Acquire(j.locks, QueuedKeys(p), id)),
         Created)
  }

  // ----- one execution --------------------------------------------------------

  function SetStep(op: Operation, k: StepKey, s: StepStatus): Operation {
    op.(steps := op.steps[k := s])
  }

  /** `UPDATE … SET status=to WHERE status=from` over the steps of one operation. */
  function MoveSteps(op: Operation, from: set<StepStatus>, to: StepStatus): Operation {
    op.(steps := map k | k in op.steps :: if op.steps[k] in from then to else op.steps[k])
  }

  function PutRow(j: Journal, id: OpId, op: Operation): Journal {
    j.(operations := j.operations[id := op])
  }

  function ClaimTx(j: Journal, id: OpId): Outcome {
    if id in j.operations && j.operations[id].status == Queued
    then Done(PutRow(j, id, j.operations[id].(status := Running)))
    else Refused("not_queued")
  }

  function BeginExecute(op: Operation): Operation {
    if Execute in op.steps then SetStep(op, Execute, StepRunning) else op
  }

  /** `INSERT … ON CONFLICT DO NOTHING`. */
  function InsertStep(op: Operation, k: StepKey, s: StepStatus): Operation {
    if k in op.steps then op else SetStep(op, k, s)
  }

  /** A step a local transaction records as done; `member.processing` was
      inserted pending when the operation was queued. */
  function RecordStep(op: Operation, k: StepKey): Operation {
    if k in op.steps && k != PROCESSING then op else SetStep(op, k, StepSucceeded)
  }

  /** The intermediate form of `completeLocalOperation`: lock the mailbox, then
      record `local.commit` (or `mailbox.reserve`). */
  function CommitIntermediateTx(j: Journal, id: OpId, k: StepKey, mailbox: Option<Key>): Outcome
    requires id in j.operations
  {
    var op := j.operations[id];
    if mailbox.Some? && op.status == Running then
      if FirstOther(j.locks, [mailbox.value], id).Some? then Refused("operation_in_progress")
      else
        Done(Journal(j.operations[id := RecordStep(op, k).(held := op.held + {mailbox.value})], j.requests,
                     Acquire(j.locks, {mailbox.value}, id)))
    else Done(PutRow(j, id, RecordStep(op, k)))
  }

  /** The full form: business data, steps, status and locks in one transaction. */
  function CommitLocalTx(j: Journal, id: OpId): Outcome
    requires id in j.operations
  {
    var op := j.operations[id];
    if op.status != Running then Refused("operation_in_progress")
    else
      Done(Journal(j.operations[id := MoveSteps(op, {StepRunning}, StepSucceeded).(status := Succeeded, sealed := false)],
                   j.requests, Release(j.locks, id)))
  }

  /** How a program ended. `Typed` carries the provider's error code. */
  datatype RunError = NoError | Typed(code: string) | OutcomeUnknown | Untyped

  const DEFINITIVE := {"invalid", "not_found", "forbidden", "provider_auth_failed", "external_action_required",
                       "unsupported_operation", "verification_required", "target_constraint_failed"}

  predicate Definitive(err: RunError) {
    err.Typed? && err.code in DEFINITIVE
  }

  /** The step status a remote call's reply is journalled as. */
  function ReplyStatus(err: RunError): StepStatus {
    if err.NoError? then StepSucceeded else if Definitive(err) then StepFailed else StepUnknown
  }

  /** The operation status an execution ends in. `interrupted` says that the
      execution's context had ended. */
  function Classify(op: Operation, err: RunError, interrupted: bool): Status {
    if err.NoError? then Succeeded
    else if interrupted || err.OutcomeUnknown? then Unknown
    else if HasEffects(op) then NeedsAction
    else Failed
  }

  function ExecuteStatus(s: Status): StepStatus {
    match s
    case Succeeded => StepSucceeded
    case Unknown => StepUnknown
    case _ => StepFailed
  }

  function FinishTx(j: Journal, id: OpId, s: Status): Journal
    requires id in j.operations
  {
    var op := j.operations[id];
    var next := SetStep(op, Execute, ExecuteStatus(s)).(status := s, sealed := op.sealed && s != Succeeded);
    Journal(j.operations[id := next], j.requests,
            if s == Unknown || s == NeedsAction then j.locks else Release(j.locks, id))
  }

  function RecoverOperation(op: Operation): Operation {
    var next := MoveSteps(op, {StepRunning}, StepUnknown);
    if op.status == Running then next.(status := Unknown) else next
  }

  function RecoverTx(j: Journal): Journal {
    j.(operations := map id | id in j.operations :: RecoverOperation(j.operations[id]))
  }

  // ----- control --------------------------------------------------------------

  function CloseRow(j: Journal, id: OpId, op: Operation): Outcome {
    Done(Journal(j.operations[id := op], j.requests, Release(j.locks, id)))
  }

  /** Cancel for operations that write to providers. */
  function CancelRemoteTx(j: Journal, id: OpId): Outcome
    requires id in j.operations
  {
    var op := j.operations[id];
    if op.payload.Local? || !op.sealed then Refused("operation_not_retryable")
    else if op.status !in {Queued, Failed, NeedsAction} || AnyInDoubt(op) then Refused("operation_not_cancellable")
    else if op.payload.Planned? && op.payload.offboard
            && !(PROCESSING in op.steps && op.steps[PROCESSING] == StepSucceeded)
    then Refused("operation_not_cancellable")
    else CloseRow(j, id, op.(status := Cancelled, sealed := false))
  }

  /** The closing transaction of a reconcile, after the step verdicts were saved. */
  function ReconcileRemoteTx(j: Journal, id: OpId): Outcome
    requires id in j.operations
  {
    var op := j.operations[id];
    if op.payload.Local? || !op.sealed then Refused("operation_not_retryable")
    else if op.status != Unknown then Refused("operation_not_reconcilable")
    else if InDoubtBesides(op, Execute) then Refused("verification_required")
    else Done(PutRow(j, id, SetStep(op, Execute, StepFailed).(status := NeedsAction)))
  }

  /** Retry; `valid` is the outcome of the permission and version checks. */
  function RetryRemoteTx(j: Journal, id: OpId, planKeys: seq<Key>, valid: bool): Outcome
    requires id in j.operations
  {
    var op := j.operations[id];
    var keys := RetryKeys(op.payload, planKeys);
    if op.payload.Local? || !op.sealed then Refused("operation_not_retryable")
    else if op.status !in {Failed, NeedsAction} || AnyInDoubt(op) then Refused("operation_not_retryable")
    else if !valid then Refused("revision_conflict")
    else if FirstOther(j.locks, keys, id).Some? then Refused("operation_in_progress")
    else
      Done(Journal(j.operations[id := MoveSteps(op, {StepFailed}, StepPending)
                                      .(status := Queued, held := HeldAgain(op, Elements(keys)))],
                   j.requests, Acquire(j.locks, Elements(keys), id)))
  }

  function CancelLocalTx(j: Journal, id: OpId): Outcome
    requires id in j.operations
  {
    var op := j.operations[id];
    if !op.payload.Local? || op.status !in {Queued, Failed} then Refused("operation_not_cancellable")
    else CloseRow(j, id, op.(status := Cancelled, sealed := false))
  }

  function ReconcileLocalTx(j: Journal, id: OpId): Outcome
    requires id in j.operations
  {
    var op := j.operations[id];
    if !op.payload.Local? || op.status != Unknown then Refused("operation_not_reconcilable")
    else CloseRow(j, id, MoveSteps(op, {StepUnknown}, StepFailed).(status := Failed))
  }

  function RetryLocalTx(j: Journal, id: OpId, valid: bool): Outcome
    requires id in j.operations
  {
    var op := j.operations[id];
    var keys := RetryKeys(op.payload, []);
    if !op.payload.Local? || op.status != Failed || !op.sealed then Refused("operation_not_retryable")
    else if !valid then Refused("revision_conflict")
    else if FirstOther(j.locks, keys, id).Some? then Refused("operation_in_progress")
    else
      Done(Journal(j.operations[id := MoveSteps(op, {StepFailed, StepPending}, StepPending)
                                      .(status := Queued, held := HeldAgain(op, Elements(keys)))],
                   j.requests, Acquire(j.locks, Elements(keys), id)))
  }

  /** Every listed item is named once, is external and is still waiting. */
  predicate Confirmable(op: Operation, items: seq<StepKey>) {
    && items != []
    && (forall i | 0 <= i < |items| :: items[i].ExternalStep? && items[i] in op.steps && op.steps[items[i]] == StepPending)
    && (forall i, k | 0 <= i < k < |items| :: items[i] != items[k])
  }

  function ReportAll(op: Operation, items: seq<StepKey>): Operation {
    op.(steps := map k | k in op.steps :: if k in items then StepReported else op.steps[k])
  }

  /** All steps but `execute` are done or reported. */
  predicate Settled(op: Operation) {
    forall k | k in op.steps :: k == Execute || op.steps[k] in {StepSucceeded, StepReported}
  }

  /** `current` is the outcome of the revision compare-and-set some kinds make when
      the last item closes the operation. */
  function ConfirmTx(j: Journal, id: OpId, items: seq<StepKey>, current: bool): Outcome
    requires id in j.operations
  {
    var op := j.operations[id];
    if op.status != NeedsAction then Refused("revision_conflict")
    else if AnyInDoubt(op) then Refused("verification_required")
    else if !Confirmable(op, items) then Refused("invalid")
    else
      var next := ReportAll(op, items);
      if Settled(next) && !current then Refused("revision_conflict")
      else if Settled(next) then CloseRow(j, id, SetStep(next, Execute, StepSucceeded).(status := Succeeded, sealed := false))
      else Done(PutRow(j, id, next))
  }

  /** The administrator's report about a lost credential: gives up on the
      operation and says so, without claiming that the system verified it.
      `eligible`: it is a credential creation, nothing was saved for it and the
      confirmed address is the recorded one. */
  function CleanupTx(j: Journal, id: OpId, k: StepKey, eligible: bool): Outcome
    requires id in j.operations
  {
    var op := j.operations[id];
    if op.status != Unknown then Refused("revision_conflict")
    else if !k.RemoteStep? || k !in op.steps then Refused("not_found")
    else if op.steps[k] != StepUnknown || !eligible || InDoubtBesides(op, k) then Refused("verification_required")
    else
      CloseRow(j, id, SetStep(SetStep(op, k, StepReported), Execute, StepFailed).(status := Cancelled, sealed := false))
  }

  // ----- journalled remote writes ---------------------------------------------

  datatype Check = AlreadyDone | Doubtful | Ready

  /** The first read of `remoteOperationStep`, which also inserts the step. */
  function CheckStep(op: Operation, k: StepKey): (Operation, Check) {
    if k !in op.steps then (SetStep(op, k, StepPending), Ready)
    else if op.steps[k] == StepSucceeded then (op, AlreadyDone)
    else if InDoubt(op.steps[k]) then (op, Doubtful)
    else (op, Ready)
  }

  /** The call is made for a step that is new, pending, failed, or reported. */
  predicate MayCall(op: Operation, k: StepKey) {
    k !in op.steps || op.steps[k] in {StepPending, StepFailed, StepReported}
  }

  /** The row after one pass through `remoteOperationStep` that nothing interrupts:
      `err` is the reply of the call, `saved` whether it could be saved. */
  function PassStep(op: Operation, k: StepKey, permitted: bool, err: RunError, saved: bool): Operation {
    if MayCall(op, k) && op.status == Running && permitted
    then SetStep(op, k, if saved then ReplyStatus(err) else StepRunning)
    else InsertStep(op, k, StepPending)
  }

  /** A reconcile's write, guarded by `status IN ('unknown','running')`. */
  function SaveVerdict(op: Operation, k: StepKey, done: bool): Operation {
    if k in op.steps && InDoubt(op.steps[k]) then SetStep(op, k, if done then StepSucceeded else StepFailed) else op
  }
}
