/** The promises of the operation protocol, for every run. */
module OperationTheorems {

  import opened Wrappers
  import opened Text
  import opened Operations
  import opened OperationRuns
  import opened OperationInvariants
  import opened OperationEffects

  // ----- what one step may do to a row ----------------------------------------

  /** The saved reply of a remote call is written without looking at the step again. */
  predicate Overwrites(w: World, e: Event, id: OpId, k: StepKey) {
    e.SaveReply? && e.worker in w.workers && w.workers[e.worker].op == id && w.workers[e.worker].phase.Replied?
    && w.workers[e.worker].phase.key == k
  }

  ghost predicate History(w: World, e: Event, id: OpId, op: Operation, next: Operation) {
    // closed operations never change
    && (op.status in {Succeeded, Cancelled} ==> next == op)
    // while a remote write is in doubt, the only way on is to say so
    && (forall k | k in op.steps && k != Execute && InDoubt(op.steps[k]) && next.status !in {Running, Unknown} ::
          e == Cleanup(id, k, true) && next.status == Cancelled && k in next.steps && next.steps[k] == StepReported)
    // a recorded success is only ever replaced by a reply saved over it
    && (forall k | k in op.steps && k != Execute && op.steps[k] == StepSucceeded :: k in next.steps
          && (next.steps[k] == StepSucceeded || Overwrites(w, e, id, k)))
    // a remote step starts only from pending or failed
    && (forall k | k in next.steps && k.RemoteStep? && next.steps[k] == StepRunning :: k in op.steps
          && (op.steps[k] == StepRunning || (e.Mark? && op.status == Running && op.steps[k] in {StepPending, StepFailed})))
    // keys are only added, except that a retry from failed starts again
    && next.payload == op.payload && (op.held <= next.held || op.status == Failed)
  }

  lemma SameHistory(w: World, e: Event, id: OpId, op: Operation)
    requires RowOk(op)
    ensures History(w, e, id, op, op)
  {
  }

  /** Row `id` is as before. */
  ghost predicate Untouched(j: Journal, next: Journal, id: OpId) {
    id in j.operations ==> id in next.operations && next.operations[id] == j.operations[id]
  }

  lemma OtherJournalRows(w: World, e: Event, id: OpId)
    requires JournalMove(e) && WorkerAt(w, e.worker)
    ensures w.workers[e.worker].op != id ==> Untouched(w.journal, WorkerStep(w, e).journal, id)
    ensures WorkerStep(w, e).journal.requests == w.journal.requests
  {
    hide CheckStep, Definitive, ReplyStatus, BeginExecute, Times;
  }

  lemma OtherProgramRows(w: World, e: Event, id: OpId)
    requires ProgramMove(e) && WorkerAt(w, e.worker)
    ensures w.workers[e.worker].op != id ==> Untouched(w.journal, WorkerStep(w, e).journal, id)
    ensures WorkerStep(w, e).journal.requests == w.journal.requests
  {
    hide FirstOther, Acquire, Release, HasEffects, MoveSteps, Classify, RecordStep, InsertStep, ExecuteStatus;
  }

  lemma OtherAdminRows(w: World, e: Event, id: OpId)
    requires AdminMove(e) && e.id in w.journal.operations
    ensures e.id != id ==> Untouched(w.journal, AdminStep(w, e).journal, id)
    ensures AdminStep(w, e).journal.requests == w.journal.requests
  {
    hide FirstOther, Acquire, Release, RetryKeys, InDoubtBesides, AnyInDoubt, Confirmable, MoveSteps, ReportAll, Settled, SetStep;
  }

  /** Workers and administrators touch only the operation they work on. */
  lemma OtherRows(w: World, e: Event, id: OpId)
    requires id in w.journal.operations
    requires if JournalMove(e) || ProgramMove(e) then WorkerAt(w, e.worker) && w.workers[e.worker].op != id
             else AdminMove(e) && e.id in w.journal.operations && e.id != id
    ensures id in Step(w, e).journal.operations && Row(Step(w, e), id) == Row(w, id)
  {
    hide WorkerStep, AdminStep;
    if JournalMove(e) { OtherJournalRows(w, e, id); }
    else if ProgramMove(e) { OtherProgramRows(w, e, id); }
    else { OtherAdminRows(w, e, id); }
  }

  /** A running operation's row with one step set. */
  lemma SetHistory(w: World, e: Event, id: OpId, op: Operation, k: StepKey, s: StepStatus, held: set<Key>)
    requires op.status == Running && op.held <= held
    requires k != Execute && k in op.steps && op.steps[k] == StepSucceeded ==> s == StepSucceeded || Overwrites(w, e, id, k)
    requires k.RemoteStep? && s == StepRunning ==> e.Mark? && k in op.steps && op.steps[k] in {StepPending, StepFailed}
    ensures History(w, e, id, op, SetStep(op, k, s).(held := held))
  {
  }

  lemma JournalHistory(w: World, e: Event)
    requires Structure(w) && JournalMove(e) && WorkerAt(w, e.worker)
    ensures var id := w.workers[e.worker].op;
            id in WorkerStep(w, e).journal.operations && History(w, e, id, Row(w, id), Row(WorkerStep(w, e), id))
  {
    hide Structure, Definitive, History, RowOk, InDoubtBesides, HasEffects;
    var id := w.workers[e.worker].op;
    var op, phase := Row(w, id), w.workers[e.worker].phase;
    WorkerFacts(w, e.worker);
    SameHistory(w, e, id, op);
    match e
    case Begin(_) => if phase.Claimed? { SetHistory(w, e, id, op, Execute, StepRunning, op.held); }
    case Check(_, k) => if phase.Program? && k !in op.steps { SetHistory(w, e, id, op, k, StepPending, op.held); }
    case Refuse(_) =>
    case Mark(_) => if phase.Checked? { SetHistory(w, e, id, op, phase.key, StepRunning, op.held); }
    case Invoke(_, _, _) =>
    case SaveReply(_, saved) =>
      if phase.Replied? && saved { SetHistory(w, e, id, op, phase.key, ReplyStatus(phase.err), op.held); }
  }

  lemma CommitHistory(w: World, e: Event, id: OpId, op: Operation)
    requires op.status == Running && !InDoubtBesides(op, Execute)
    ensures History(w, e, id, op, MoveSteps(op, {StepRunning}, StepSucceeded).(status := Succeeded, sealed := false))
  {
    var next := MoveSteps(op, {StepRunning}, StepSucceeded);
    assert forall k | k in op.steps && k != Execute :: next.steps[k] == op.steps[k];
  }

  lemma SealHistory(w: World, e: Event, id: OpId, op: Operation, s: Status)
    requires WorkerOk(op, Sealing(s))
    ensures History(w, e, id, op, SealedRow(op, s))
  {
  }

  /** The moves that record a step while the program goes on. */
  lemma RecordHistory(w: World, e: Event)
    requires Structure(w) && (e.Record? || e.CommitPart? || e.AwaitExternal?) && WorkerAt(w, e.worker)
    ensures var id := w.workers[e.worker].op;
            id in WorkerStep(w, e).journal.operations && History(w, e, id, Row(w, id), Row(WorkerStep(w, e), id))
  {
    hide Structure, FirstOther, Acquire, History, InDoubtBesides, HasEffects;
    var id := w.workers[e.worker].op;
    var op, phase := Row(w, id), w.workers[e.worker].phase;
    WorkerFacts(w, e.worker);
    SameHistory(w, e, id, op);
    hide RowOk;
    match e
    case Record(_, k) => if phase.Program? { SetHistory(w, e, id, op, k, StepSucceeded, op.held); }
    case CommitPart(_, k, mailbox) =>
      if phase.Program? && k.LocalStep? && !op.payload.Local? {
        var held := if mailbox.Some? then op.held + {mailbox.value} else op.held;
        SetHistory(w, e, id, op, k, StepSucceeded, held);
        HeldHistory(w, e, id, op, held);
      }
    case AwaitExternal(_, k) => if phase.Program? && k !in op.steps { SetHistory(w, e, id, op, k, StepPending, op.held); }
  }

  lemma ProgramHistory(w: World, e: Event)
    requires Structure(w) && ProgramMove(e) && WorkerAt(w, e.worker)
    ensures var id := w.workers[e.worker].op;
            id in WorkerStep(w, e).journal.operations && History(w, e, id, Row(w, id), Row(WorkerStep(w, e), id))
  {
    hide Structure, Release, History, InDoubtBesides, HasEffects, MoveSteps, Classify, Definitive;
    var id := w.workers[e.worker].op;
    var op, phase := Row(w, id), w.workers[e.worker].phase;
    WorkerFacts(w, e.worker);
    SameHistory(w, e, id, op);
    hide RowOk;
    match e
    case Record(_, _) => RecordHistory(w, e);
    case CommitPart(_, _, _) => RecordHistory(w, e);
    case AwaitExternal(_, _) => RecordHistory(w, e);
    case CommitAll(_) => if phase.Program? { CommitHistory(w, e, id, op); }
    case Return(_, _) =>
    case Conclude(_, _) =>
    case Seal(_) => if phase.Sealing? { SealHistory(w, e, id, op, phase.status); }
  }

  lemma HeldHistory(w: World, e: Event, id: OpId, op: Operation, held: set<Key>)
    requires op.status == Running && op.held <= held
    ensures History(w, e, id, op, op.(held := held))
  {
  }

  lemma CloseHistory(w: World, e: Event, id: OpId, op: Operation)
    requires RowOk(op) && op.status in {Queued, Failed, NeedsAction}
    ensures History(w, e, id, op, op.(status := Cancelled, sealed := false))
  {
  }

  lemma ReconcileHistory(w: World, e: Event, id: OpId, op: Operation)
    requires RowOk(op) && op.status == Unknown && !InDoubtBesides(op, Execute)
    ensures History(w, e, id, op, SetStep(op, Execute, StepFailed).(status := NeedsAction))
  {
  }

  lemma LocalReconcileHistory(w: World, e: Event, id: OpId, op: Operation)
    requires RowOk(op) && op.status == Unknown && op.payload.Local?
    ensures History(w, e, id, op, MoveSteps(op, {StepUnknown}, StepFailed).(status := Failed))
  {
    hide InDoubtBesides, HasEffects, AnyInDoubt;
  }

  lemma RetryHistory(w: World, e: Event, id: OpId, op: Operation, from: set<StepStatus>, held: set<Key>)
    requires RowOk(op) && op.status in {Failed, NeedsAction} && (op.held <= held || op.status == Failed) && from <= {StepFailed, StepPending}
    ensures History(w, e, id, op, MoveSteps(op, from, StepPending).(status := Queued, held := held))
  {
  }

  lemma ConfirmHistory(w: World, e: Event, id: OpId, op: Operation, items: seq<StepKey>)
    requires RowOk(op) && op.status == NeedsAction && Confirmable(op, items)
    ensures History(w, e, id, op, ReportAll(op, items))
    ensures History(w, e, id, op, SetStep(ReportAll(op, items), Execute, StepSucceeded).(status := Succeeded, sealed := false))
  {
    var next := ReportAll(op, items);
    assert forall k | k in op.steps :: next.steps[k] == op.steps[k] || (k in items && op.steps[k] == StepPending);
  }

  lemma CleanupHistory(w: World, id: OpId, op: Operation, k: StepKey)
    requires RowOk(op) && op.status == Unknown && k.RemoteStep? && k in op.steps && op.steps[k] == StepUnknown
    ensures History(w, Cleanup(id, k, true), id, op,
              SetStep(SetStep(op, k, StepReported), Execute, StepFailed).(status := Cancelled, sealed := false))
  {
    assert !InDoubtBesides(op, k);
  }

  ghost predicate HistoryTx(w: World, e: Event, id: OpId, o: Outcome) {
    id in w.journal.operations && (o.Done? ==>
      id in o.journal.operations && History(w, e, id, w.journal.operations[id], o.journal.operations[id]))
  }

  lemma SameTxHistory(w: World, e: Event, id: OpId)
    requires id in w.journal.operations && RowOk(Row(w, id))
    ensures HistoryTx(w, e, id, Done(w.journal))
  {
    hide History, RowOk;
    SameHistory(w, e, id, Row(w, id));
  }

  lemma CancelTxHistory(w: World, e: Event, id: OpId)
    requires id in w.journal.operations && RowOk(Row(w, id))
    ensures HistoryTx(w, e, id, CancelRemoteTx(w.journal, id)) && HistoryTx(w, e, id, CancelLocalTx(w.journal, id))
  {
    hide History, RowOk, Release, AnyInDoubt;
    var op := Row(w, id);
    if op.status in {Queued, Failed, NeedsAction} { CloseHistory(w, e, id, op); }
  }

  lemma ReconcileTxHistory(w: World, e: Event, id: OpId)
    requires id in w.journal.operations && RowOk(Row(w, id))
    ensures HistoryTx(w, e, id, ReconcileRemoteTx(w.journal, id))
  {
    hide History, RowOk, InDoubtBesides;
    var op := Row(w, id);
    if op.status == Unknown && !InDoubtBesides(op, Execute) { ReconcileHistory(w, e, id, op); }
  }

  lemma LocalReconcileTxHistory(w: World, e: Event, id: OpId)
    requires id in w.journal.operations && RowOk(Row(w, id))
    ensures HistoryTx(w, e, id, ReconcileLocalTx(w.journal, id))
  {
    hide History, RowOk, Release, MoveSteps;
    var op := Row(w, id);
    if op.payload.Local? && op.status == Unknown { LocalReconcileHistory(w, e, id, op); }
  }

  lemma RetryTxHistory(w: World, e: Event, id: OpId, planKeys: seq<Key>, valid: bool)
    requires id in w.journal.operations && RowOk(Row(w, id))
    ensures HistoryTx(w, e, id, RetryRemoteTx(w.journal, id, planKeys, valid))
    ensures HistoryTx(w, e, id, RetryLocalTx(w.journal, id, valid))
  {
    hide History, RowOk, FirstOther, Acquire, RetryKeys, AnyInDoubt;
    var op := Row(w, id);
    if op.status in {Failed, NeedsAction} {
      RetryHistory(w, e, id, op, {StepFailed}, HeldAgain(op, Elements(RetryKeys(op.payload, planKeys))));
      RetryHistory(w, e, id, op, {StepFailed, StepPending}, HeldAgain(op, Elements(RetryKeys(op.payload, []))));
    }
  }

  lemma ReportHistory(w: World, e: Event, id: OpId)
    requires id in w.journal.operations && RowOk(Row(w, id))
    ensures e.Confirm? ==> HistoryTx(w, e, id, ConfirmTx(w.journal, id, e.items, e.current))
    ensures e.Cleanup? && e.id == id ==> HistoryTx(w, e, id, CleanupTx(w.journal, id, e.key, e.eligible))
  {
    hide History, RowOk, Release, Confirmable, InDoubtBesides, AnyInDoubt, ReportAll, Settled;
    var op := Row(w, id);
    if e.Confirm? && ConfirmTx(w.journal, id, e.items, e.current).Done? { ConfirmHistory(w, e, id, op, e.items); }
    if e.Cleanup? && CleanupTx(w.journal, id, e.key, e.eligible).Done? { CleanupHistory(w, id, op, e.key); }
  }

  lemma AdminHistory(w: World, e: Event)
    requires Structure(w) && AdminMove(e) && e.id in w.journal.operations
    ensures HistoryTx(w, e, e.id, Done(AdminStep(w, e).journal))
  {
    hide Structure, HistoryTx, RowOk, KeysOk, LocksOk, CancelRemoteTx, CancelLocalTx, ReconcileRemoteTx, ReconcileLocalTx, RetryRemoteTx, RetryLocalTx,
         ConfirmTx, CleanupTx;
    RowFacts(w, e.id);
    SameTxHistory(w, e, e.id);
    match e
    case RetryRemote(id, planKeys, valid) => RetryTxHistory(w, e, id, planKeys, valid);
    case RetryLocal(id, valid) => RetryTxHistory(w, e, id, [], valid);
    case Confirm(id, _, _) => ReportHistory(w, e, id);
    case Cleanup(id, _, _) => ReportHistory(w, e, id);
    case CancelRemote(id) => CancelTxHistory(w, e, id);
    case ReconcileRemote(id) => ReconcileTxHistory(w, e, id);
    case CancelLocal(id) => CancelTxHistory(w, e, id);
    case ReconcileLocal(id) => LocalReconcileTxHistory(w, e, id);
  }

  lemma VerdictHistory(w: World, e: Event, id: OpId, op: Operation, k: StepKey, done: bool)
    requires RowOk(op)
    ensures History(w, e, id, op, SaveVerdict(op, k, done))
  {
  }

  lemma RecoverHistory(w: World, e: Event, id: OpId, op: Operation)
    requires RowOk(op)
    ensures History(w, e, id, op, RecoverOperation(op))
  {
    if op.status in {Succeeded, Cancelled} { assert RecoverOperation(op).steps == op.steps; }
  }

  lemma ClaimHistory(w: World, e: Event, id: OpId, op: Operation)
    requires RowOk(op) && op.status == Queued
    ensures History(w, e, id, op, op.(status := Running))
  {
  }

  /** What any one step of anybody does to any operation's row. */
  lemma RowHistory(w: World, e: Event, id: OpId)
    requires Structure(w) && id in w.journal.operations
    ensures id in Step(w, e).journal.operations && History(w, e, id, Row(w, id), Row(Step(w, e), id))
  {
    hide Structure, RowOk, KeysOk, LocksOk, History, WorkerStep, AdminStep, SaveVerdict, RecoverOperation, FirstOwner, QueueKeys, QueuedKeys,
         CreatedFree, NewOperation;
    RowFacts(w, id);
    var op := Row(w, id);
    SameHistory(w, e, id, op);
    if JournalMove(e) || ProgramMove(e) {
      if WorkerAt(w, e.worker) {
        if w.workers[e.worker].op != id { OtherRows(w, e, id); }
        else if JournalMove(e) { JournalHistory(w, e); } else { ProgramHistory(w, e); }
      }
    }
    else if AdminMove(e) {
      if e.id in w.journal.operations { if e.id == id { AdminHistory(w, e); } else { OtherRows(w, e, id); } }
    }
    else if e.WriteVerdict? {
      if ReaderAt(w, e.reader) && w.readers[e.reader].verdict.Some? {
        VerdictHistory(w, e, id, op, w.readers[e.reader].verdict.value.key, w.readers[e.reader].verdict.value.done);
      }
    }
    else if e.Restart? { RecoverHistory(w, e, id, op); }
    else if e.Claim? && e.id == id && op.status == Queued { ClaimHistory(w, e, id, op); }
  }

  // ----- over whole runs ------------------------------------------------------

  lemma ReachedStructure(es: seq<Event>)
    ensures Structure(Run(START, es))
  {
    hide Structure, Run;
    StartStructure();
    RunKeeps(START, es);
  }

  lemma {:induction false} ClosedStays(w: World, es: seq<Event>, id: OpId)
    requires Structure(w) && id in w.journal.operations && Row(w, id).status in {Succeeded, Cancelled}
    ensures id in Run(w, es).journal.operations && Row(Run(w, es), id) == Row(w, id)
    decreases |es|
  {
    hide Structure, Step;
    if es != [] {
      RowHistory(w, es[0], id);
      StepKeeps(w, es[0]);
      ClosedStays(Step(w, es[0]), es[1..], id);
    }
  }

  /** A succeeded or cancelled operation never changes again; in particular a
      success that was committed is not overwritten by a later error. */
  lemma {:induction false} ClosedForever(es: seq<Event>, more: seq<Event>, id: OpId)
    requires var w := Run(START, es); id in w.journal.operations && Row(w, id).status in {Succeeded, Cancelled}
    ensures var w, later := Run(START, es), Run(Run(START, es), more);
            id in later.journal.operations && Row(later, id) == Row(w, id)
  {
    hide Structure, Run;
    ReachedStructure(es);
    ClosedStays(Run(START, es), more, id);
  }

  /** While a remote write is in doubt its operation is running or unknown, and
      any step that takes it out of there is the administrator's report about
      that very write. */
  lemma {:induction false} InDoubtIsNotDropped(es: seq<Event>, e: Event, id: OpId, k: StepKey)
    requires var w := Run(START, es);
             id in w.journal.operations && k in Row(w, id).steps && k != Execute && InDoubt(Row(w, id).steps[k])
    ensures var w := Run(START, es); Row(w, id).status in {Running, Unknown} && id in Step(w, e).journal.operations
    ensures var next := Row(Step(Run(START, es), e), id);
            next.status in {Running, Unknown}
            || (e == Cleanup(id, k, true) && next.status == Cancelled && k in next.steps && next.steps[k] == StepReported)
  {
    hide Run, Structure, Step, KeysOk, LocksOk, RowOk, History;
    var w := Run(START, es);
    ReachedStructure(es);
    RowFacts(w, id);
    RowHistory(w, e, id);
    DoubtIsLive(Row(w, id), k);
    HistoryInDoubt(w, e, id, Row(w, id), Row(Step(w, e), id), k);
  }

  lemma HistoryInDoubt(w: World, e: Event, id: OpId, op: Operation, next: Operation, k: StepKey)
    requires History(w, e, id, op, next) && k in op.steps && k != Execute && InDoubt(op.steps[k])
    ensures next.status in {Running, Unknown}
         || (e == Cleanup(id, k, true) && next.status == Cancelled && k in next.steps && next.steps[k] == StepReported)
  {
    hide Overwrites;
  }

  lemma DoubtIsLive(op: Operation, k: StepKey)
    requires RowOk(op) && k in op.steps && InDoubt(op.steps[k])
    ensures op.status in {Running, Unknown}
  {
    assert AnyInDoubt(op);
  }

  lemma {:induction false} SuccessKept(w: World, es: seq<Event>, id: OpId, k: StepKey)
    requires Sound(true, w) && TruthfulRun(w, es) && FreshRun(w, es)
    requires id in w.journal.operations && k != Execute && k in Row(w, id).steps && Row(w, id).steps[k] == StepSucceeded
    ensures id in Run(w, es).journal.operations && k in Row(Run(w, es), id).steps
    ensures Row(Run(w, es), id).steps[k] == StepSucceeded
    decreases |es|
  {
    hide Sound, Step, Truthful, Fresh;
    if es != [] {
      SoundStructure(true, w);
      RowHistory(w, es[0], id);
      if Overwrites(w, es[0], id, k) { NotOverwritten(w, es[0].worker); }
      if es[0].WriteVerdict? { assert Careful(true, w, es[0]); }
      StepSound(true, w, es[0]);
      SuccessKept(Step(w, es[0]), es[1..], id, k);
    }
  }

  /** While reconciles are fresh, a succeeded step stays succeeded forever. */
  lemma {:induction false} SuccessStays(es: seq<Event>, more: seq<Event>, id: OpId, k: StepKey)
    requires TruthfulRun(START, es) && FreshRun(START, es) && TruthfulRun(Run(START, es), more) && FreshRun(Run(START, es), more)
    requires var w := Run(START, es);
             id in w.journal.operations && k != Execute && k in Row(w, id).steps && Row(w, id).steps[k] == StepSucceeded
    ensures var later := Run(Run(START, es), more);
            id in later.journal.operations && k in Row(later, id).steps && Row(later, id).steps[k] == StepSucceeded
  {
    hide Run, Sound, Step, Truthful, Fresh, TruthfulRun, FreshRun;
    StartSound(true);
    FreshRunCareful(true, START, es);
    RunSound(true, START, es);
    SuccessKept(Run(START, es), more, id, k);
  }

  lemma NotOverwritten(w: World, n: nat)
    requires Sound(true, w) && n in w.workers && w.workers[n].phase.Replied?
    ensures var op := w.workers[n].op;
            op in w.journal.operations && w.workers[n].phase.key in Row(w, op).steps && Row(w, op).steps[w.workers[n].phase.key] == StepRunning
  {
    hide Structure, RowSound;
  }

  /** In every reachable state the locks are exactly the keys of the operations
      that are queued, running, unknown or need action, each with its owner. */
  lemma LocksAreHeldKeys(es: seq<Event>, key: Key, id: OpId)
    ensures var j := Run(START, es).journal;
            (key in j.locks && j.locks[key] == id)
            <==> (id in j.operations && Live(j.operations[id].status) && key in j.operations[id].held)
  {
    hide RowsOk, WorkersOk, ReadersOk, RequestsOk, LocksOk, Run, Live;
    StartStructure();
    RunKeeps(START, es);
    LocksMean(Run(START, es).journal, key, id);
  }

  lemma LocksMean(j: Journal, key: Key, id: OpId)
    requires LocksOk(j)
    ensures (key in j.locks && j.locks[key] == id) <==> (id in j.operations && Live(j.operations[id].status) && key in j.operations[id].held)
  {
  }

  /** ... and those keys include all a retry can recompute; so they include all it
      was queued with when the caller passed in no others. */
  lemma {:induction false} LiveOwnsItsKeys(es: seq<Event>, id: OpId, key: Key)
    requires var j := Run(START, es).journal; id in j.operations && Live(j.operations[id].status)
    requires var p := Run(START, es).journal.operations[id].payload;
             key in RecomputedKeys(p) || (key in QueuedKeys(p) && Elements(p.caller) <= RecomputedKeys(p))
    ensures var j := Run(START, es).journal; key in j.locks && j.locks[key] == id
  {
    hide QueuedKeys, RecomputedKeys, Run, LocksOk, RowOk, KeysOk;
    StartStructure();
    RunKeeps(START, es);
    RowFacts(Run(START, es), id);
    var op := Run(START, es).journal.operations[id];
    RecomputedAreHeld(op);
    QueuedAreRecomputed(op.payload);
    LocksAreHeldKeys(es, key, id);
  }

  lemma RecomputedAreHeld(op: Operation)
    requires KeysOk(op)
    ensures RecomputedKeys(op.payload) <= op.held
  {
    hide RecomputedKeys, QueuedKeys;
  }

  function Retried(j: Journal, id: OpId, planKeys: seq<Key>, valid: bool): Outcome
    requires id in j.operations
  {
    if j.operations[id].payload.Local? then RetryLocalTx(j, id, valid) else RetryRemoteTx(j, id, planKeys, valid)
  }

  /** Queued again, holding `keys`, all of them free before and taken now. */
  ghost predicate Relocked(j: Journal, id: OpId, after: Journal, keys: set<Key>) {
    && id in j.operations && id in after.operations
    && after.operations[id].status == Queued && after.operations[id].held == keys
    && after.locks == Acquire(j.locks, keys, id)
    && (forall k | k in keys :: k !in j.locks)
  }

  /** A retry from failed takes back exactly the keys it can recompute, or changes
      nothing. Those are the keys the operation was queued with if and only if a
      retry recomputes all the keys the caller passed in. */
  lemma RetryFromFailedRelocks(es: seq<Event>, id: OpId, planKeys: seq<Key>, valid: bool)
    requires var j := Run(START, es).journal; id in j.operations && j.operations[id].status == Failed
    ensures var j := Run(START, es).journal;
            var o := Retried(j, id, planKeys, valid);
            o.Done? ==> Relocked(j, id, o.journal, Elements(RetryKeys(j.operations[id].payload, planKeys)))
    ensures var p := Run(START, es).journal.operations[id].payload;
            Elements(RetryKeys(p, planKeys)) == QueuedKeys(p) <==> Elements(p.caller) <= Elements(RetryKeys(p, planKeys))
  {
    hide QueuedKeys, Run, RetryKeys, RowOk, KeysOk, LocksOk, Retried, Relocked, RecomputedKeys;
    StartStructure();
    RunKeeps(START, es);
    var j := Run(START, es).journal;
    RowFacts(Run(START, es), id);
    FailedOwnsNothing(j, id);
    RetryHolds(j.operations[id], planKeys);
    RelockedTx(j, id, planKeys, valid);
    QueuedAreRecomputed(j.operations[id].payload);
  }

  lemma RelockedTx(j: Journal, id: OpId, planKeys: seq<Key>, valid: bool)
    requires id in j.operations && j.operations[id].status == Failed && !j.operations[id].payload.Planned?
    requires forall k | k in j.locks :: j.locks[k] != id
    ensures var o := Retried(j, id, planKeys, valid);
            o.Done? ==> Relocked(j, id, o.journal, Elements(RetryKeys(j.operations[id].payload, planKeys)))
  {
    hide QueuedKeys, RetryKeys, MoveSteps, AnyInDoubt, Acquire;
    RetryKeysMatch(j.operations[id].payload, planKeys);
  }

  lemma FailedOwnsNothing(j: Journal, id: OpId)
    requires LocksOk(j) && id in j.operations && !Live(j.operations[id].status)
    ensures forall k | k in j.locks :: j.locks[k] != id
  {
  }

  /** Failed means that nothing outside is recorded to have changed. */
  lemma {:induction false} FailedHasNoEffects(es: seq<Event>, id: OpId)
    requires var j := Run(START, es).journal; id in j.operations && j.operations[id].status == Failed
    ensures !HasEffects(Run(START, es).journal.operations[id])
  {
    hide KeysOk, LocksOk, Run;
    StartStructure();
    RunKeeps(START, es);
    RowFacts(Run(START, es), id);
  }

  /** What a reconcile of a local operation records, "nothing was committed", is
      true; and what committed is recorded as succeeded. */
  lemma {:induction false} CommittedExactlyOnce(es: seq<Event>, id: OpId)
    requires id in Run(START, es).journal.operations
    ensures var w := Run(START, es);
            id in w.remotes && w.remotes[id].committed <= 1 && (w.remotes[id].committed == 1 ==> Row(w, id).status == Succeeded)
    ensures ReconcileLocalTx(Run(START, es).journal, id).Done? ==> Run(START, es).remotes[id].committed == 0
  {
    hide RowOk, KeysOk, LocksOk, Run;
    StartStructure();
    RunKeeps(START, es);
    RowFacts(Run(START, es), id);
  }

  lemma {:induction false} OneWorkerPerOperation(es: seq<Event>, a: nat, b: nat)
    requires var w := Run(START, es); a in w.workers && b in w.workers && w.workers[a].op == w.workers[b].op
    ensures a == b
  {
    hide RowOk, WorkerOk, KeysOk, LocksOk, Run;
    StartStructure();
    RunKeeps(START, es);
  }

  // ----- requests -------------------------------------------------------------

  lemma {:induction false} RequestsStay(w: World, es: seq<Event>, rk: RequestKey)
    requires rk in w.journal.requests
    ensures rk in Run(w, es).journal.requests && Run(w, es).journal.requests[rk] == w.journal.requests[rk]
    decreases |es|
  {
    hide Step;
    if es != [] {
      RequestStep(w, es[0], rk);
      RequestsStay(Step(w, es[0]), es[1..], rk);
    }
  }

  lemma RequestStep(w: World, e: Event, rk: RequestKey)
    requires rk in w.journal.requests
    ensures rk in Step(w, e).journal.requests && Step(w, e).journal.requests[rk] == w.journal.requests[rk]
  {
    hide WorkerStep, AdminStep, FirstOwner, Acquire, QueueKeys, QueuedKeys, CreatedFree, NewOperation, RecoverOperation, SaveVerdict, Unsettled;
    if JournalMove(e) { if WorkerAt(w, e.worker) { OtherJournalRows(w, e, 0); } }
    else if ProgramMove(e) { if WorkerAt(w, e.worker) { OtherProgramRows(w, e, 0); } }
    else if AdminMove(e) { if e.id in w.journal.operations { OtherAdminRows(w, e, 0); } }
  }

  /** Once a request made an operation, repeating it any time later, whatever
      happened in between, gives that operation; other content is refused. */
  lemma {:induction false} RequestIsIdempotent(es: seq<Event>, more: seq<Event>, rk: RequestKey, again: string, id: OpId, p: Payload, valid: bool)
    requires rk in Run(START, es).journal.requests
    ensures var saved, j := Run(START, es).journal.requests[rk], Run(Run(START, es), more).journal;
            QueueTx(j, rk, again, id, p, valid) == (j, if again == saved.digest then Repeated(saved.id) else DigestConflict)
  {
    hide Run, FirstOwner, QueueKeys, QueuedKeys, CreatedFree;
    RequestsStay(Run(START, es), more, rk);
  }
}
