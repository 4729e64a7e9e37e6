/** How often a journalled remote write takes effect.

    The journal makes every write happen at most once as long as no reconcile
    saves a verdict it read before the operation was started again. The last
    part shows that this condition is exact. */
module OperationEffects {

  import opened Wrappers
  import opened Operations
  import opened OperationRuns
  import opened OperationInvariants

  /** The journal would let the step's call be made. */
  predicate Open(op: Operation, k: StepKey) {
    k !in op.steps || op.steps[k] == StepPending || op.steps[k] == StepFailed
  }

  /** No write happened twice, and one that may be made did not happen. With
      `strict`, one recorded as done did. */
  ghost predicate RowSound(strict: bool, op: Operation, r: Remote) {
    forall k: StepKey | k.RemoteStep? ::
      && Times(r, k) <= 1
      && (Open(op, k) ==> Times(r, k) == 0)
      && (strict && !Open(op, k) && op.steps[k] == StepSucceeded ==> Times(r, k) == 1)
  }

  ghost predicate PhaseSound(strict: bool, op: Operation, r: Remote, phase: Phase) {
    match phase
    case Marked(k) => k in op.steps && op.steps[k] == StepRunning && Times(r, k) == 0
    case Replied(k, err) =>
      && (Definitive(err) ==> Times(r, k) == 0)
      && (strict ==> k in op.steps && op.steps[k] == StepRunning && (err.NoError? ==> Times(r, k) == 1))
    case _ => true
  }

  /** A verdict of "done" stays right; "not done" is right while nothing was started since. */
  ghost predicate ReaderSound(reader: Reader, r: Remote) {
    reader.verdict.Some? ==>
      && (reader.verdict.value.done ==> Times(r, reader.verdict.value.key) > 0)
      && (!reader.verdict.value.done && reader.claims == r.claims ==> Times(r, reader.verdict.value.key) == 0)
  }

  ghost predicate Sound(strict: bool, w: World) {
    && Structure(w)
    && (forall id | id in w.journal.operations :: id in w.remotes && RowSound(strict, w.journal.operations[id], w.remotes[id]))
    && (forall n | n in w.workers :: w.workers[n].op in w.journal.operations && w.workers[n].op in w.remotes
          && PhaseSound(strict, w.journal.operations[w.workers[n].op], w.remotes[w.workers[n].op], w.workers[n].phase))
    && (forall r | r in w.readers :: w.readers[r].op in w.remotes && ReaderSound(w.readers[r], w.remotes[w.readers[r].op]))
  }

  /** The reconcile is about to reopen a step whose effect happened or is about to. */
  ghost predicate Dangerous(w: World, r: nat) {
    && ReaderAt(w, r) && w.readers[r].op in w.remotes && w.readers[r].verdict.Some? && !w.readers[r].verdict.value.done
    && var id, k := w.readers[r].op, w.readers[r].verdict.value.key;
       && k in Row(w, id).steps && InDoubt(Row(w, id).steps[k])
       && (Times(w.remotes[id], k) > 0 || exists n | n in w.workers :: w.workers[n] == Worker(id, Marked(k)))
  }

  ghost predicate Careful(strict: bool, w: World, e: Event) {
    e.WriteVerdict? ==> if strict then Fresh(w, e) else !Dangerous(w, e.reader)
  }

  lemma FreshIsHarmless(strict: bool, w: World, e: Event)
    requires Sound(strict, w) && Fresh(w, e) && e.WriteVerdict?
    ensures !Dangerous(w, e.reader)
  {
    hide RowOk, WorkerOk, RowsOk, LocksOk, WorkersOk, RequestsOk;
  }

  // ----- one row --------------------------------------------------------------

  /** A row move that opens no step and marks none as done. */
  ghost predicate Calm(op: Operation, next: Operation) {
    && (forall k: StepKey | k.RemoteStep? && Open(next, k) :: Open(op, k))
    && (forall k: StepKey | k.RemoteStep? && !Open(next, k) && next.steps[k] == StepSucceeded ::
          !Open(op, k) && op.steps[k] == StepSucceeded)
  }

  lemma CalmSound(strict: bool, op: Operation, next: Operation, r: Remote, r': Remote)
    requires RowSound(strict, op, r) && Calm(op, next) && r'.effects == r.effects
    ensures RowSound(strict, next, r')
  {
    forall k: StepKey | k.RemoteStep?
      ensures Times(r', k) <= 1 && (Open(next, k) ==> Times(r', k) == 0)
      ensures strict && !Open(next, k) && next.steps[k] == StepSucceeded ==> Times(r', k) == 1
    {
      assert Times(r', k) == Times(r, k);
    }
  }

  // ----- worker moves ---------------------------------------------------------

  lemma SoundFacts(strict: bool, w: World, n: nat)
    requires Sound(strict, w) && WorkerAt(w, n)
    ensures var id := w.workers[n].op;
            && RowSound(strict, Row(w, id), w.remotes[id]) && PhaseSound(strict, Row(w, id), w.remotes[id], w.workers[n].phase)
            && RowOk(Row(w, id)) && WorkerOk(Row(w, id), w.workers[n].phase)
  {
    hide RowOk, WorkerOk, Structure, RowSound, PhaseSound;
    WorkerFacts(w, n);
  }

  /** A worker on the operation means no reconcile of it is still current. */
  lemma PlaceSound(strict: bool, w: World, n: nat, op: Operation, locks: map<Key, OpId>, phase: Option<Phase>, remote: Remote)
    requires Sound(strict, w) && WorkerAt(w, n)
    requires Structure(Place(w, n, op, locks, phase, remote))
    requires RowSound(strict, op, remote) && (phase.Some? ==> PhaseSound(strict, op, remote, phase.value))
    requires remote.claims == w.remotes[w.workers[n].op].claims
    requires forall k :: Times(remote, k) >= Times(w.remotes[w.workers[n].op], k)
    ensures Sound(strict, Place(w, n, op, locks, phase, remote))
  {
    hide RowOk, WorkerOk, RowsOk, LocksOk, RequestsOk, RowSound, PhaseSound;
  }

  lemma AdvanceSound(strict: bool, w: World, n: nat, op: Operation, phase: Phase)
    requires Sound(strict, w) && WorkerAt(w, n) && Structure(Advance(w, n, op, phase))
    requires RowSound(strict, op, w.remotes[w.workers[n].op]) && PhaseSound(strict, op, w.remotes[w.workers[n].op], phase)
    ensures Sound(strict, Advance(w, n, op, phase))
  {
    hide Structure, RowSound, PhaseSound;
    var id := w.workers[n].op;
    assert w.remotes[id := w.remotes[id]] == w.remotes;
    PlaceSound(strict, w, n, op, w.journal.locks, Some(phase), w.remotes[id]);
  }

  lemma MarkSound(strict: bool, op: Operation, r: Remote, k: StepKey)
    requires RowSound(strict, op, r) && WorkerOk(op, Checked(k))
    ensures RowSound(strict, SetStep(op, k, StepRunning), r) && PhaseSound(strict, SetStep(op, k, StepRunning), r, Marked(k))
  {
    CalmSound(strict, op, SetStep(op, k, StepRunning), r, r);
    assert Open(op, k);
  }

  lemma ReplySound(strict: bool, op: Operation, r: Remote, k: StepKey, err: RunError)
    requires RowSound(strict, op, r) && WorkerOk(op, Replied(k, err)) && PhaseSound(strict, op, r, Replied(k, err))
    ensures RowSound(strict, SetStep(op, k, ReplyStatus(err)), r)
  {
    var next := SetStep(op, k, ReplyStatus(err));
    forall x: StepKey | x.RemoteStep?
      ensures Times(r, x) <= 1 && (Open(next, x) ==> Times(r, x) == 0)
      ensures strict && !Open(next, x) && next.steps[x] == StepSucceeded ==> Times(r, x) == 1
    {
      assert x != k ==> (Open(next, x) <==> Open(op, x));
    }
  }

  lemma JournalMoveSound(strict: bool, w: World, e: Event)
    requires Sound(strict, w) && JournalMove(e) && WorkerAt(w, e.worker) && Truthful(w, e)
    ensures Sound(strict, WorkerStep(w, e))
  {
    hide Structure, RowOk, RowSound, Sound, Definitive;
    var n := e.worker;
    var id := w.workers[n].op;
    var op, phase, r := Row(w, id), w.workers[n].phase, w.remotes[id];
    assert Structure(w) by { SoundStructure(strict, w); }
    JournalMoveKeeps(w, e);
    SoundFacts(strict, w, n);
    match e
    case Begin(_) =>
      if phase.Claimed? { CalmSound(strict, op, BeginExecute(op), r, r); AdvanceSound(strict, w, n, BeginExecute(op), Program); }
    case Check(_, k) =>
      if phase.Program? && k.RemoteStep? && !op.payload.Local? {
        var (next, found) := CheckStep(op, k);
        CheckRow(op, k);
        CalmSound(strict, op, next, r, r);
        if found == Ready { AdvanceSound(strict, w, n, next, Checked(k)); }
      }
    case Refuse(_) => if phase.Checked? { AdvanceSound(strict, w, n, op, Program); }
    case Mark(_) =>
      if phase.Checked? {
        MarkSound(strict, op, r, phase.key);
        AdvanceSound(strict, w, n, SetStep(op, phase.key, StepRunning), Marked(phase.key));
      }
    case Invoke(_, applied, err) => if phase.Marked? { InvokeSound(strict, w, n, applied, err); }
    case SaveReply(_, saved) =>
      if phase.Replied? {
        ReplySound(strict, op, r, phase.key, phase.err);
        var s := ReplyStatus(phase.err);
        if !saved { AdvanceSound(strict, w, n, op, Finishing(OutcomeUnknown)); }
        else { AdvanceSound(strict, w, n, SetStep(op, phase.key, s), if s == StepUnknown then Finishing(OutcomeUnknown) else Program); }
      }
  }

  lemma SoundStructure(strict: bool, w: World)
    requires Sound(strict, w)
    ensures Structure(w)
  {
    hide Structure, RowSound, PhaseSound;
  }

  /** The one place where an effect can happen: its step is saved as running and
      the effect has not happened before. */
  lemma InvokeSound(strict: bool, w: World, n: nat, applied: bool, err: RunError)
    requires Sound(strict, w) && WorkerAt(w, n) && w.workers[n].phase.Marked? && Truthful(w, Invoke(n, applied, err))
    ensures Sound(strict, WorkerStep(w, Invoke(n, applied, err)))
  {
    hide Structure, RowOk, Sound;
    var id := w.workers[n].op;
    var op, k, r := Row(w, id), w.workers[n].phase.key, w.remotes[id];
    SoundStructure(strict, w);
    InvokeKeeps(w, n, applied, err);
    SoundFacts(strict, w, n);
    var after := if applied then r.(effects := r.effects[k := Times(r, k) + 1]) else r;
    assert forall x :: x != k ==> Times(after, x) == Times(r, x);
    assert RowSound(strict, op, after);
    PlaceSound(strict, w, n, op, w.journal.locks, Some(Replied(k, err)), after);
  }

  lemma RecordSound(strict: bool, w: World, e: Event)
    requires Sound(strict, w) && (e.Record? || e.AwaitExternal?) && WorkerAt(w, e.worker)
    ensures Sound(strict, WorkerStep(w, e))
  {
    hide Structure, RowOk, RowSound, Sound;
    var n := e.worker;
    var id := w.workers[n].op;
    var op, phase, r := Row(w, id), w.workers[n].phase, w.remotes[id];
    SoundStructure(strict, w);
    ProgramMoveKeeps(w, e);
    SoundFacts(strict, w, n);
    match e
    case Record(_, k) =>
      if phase.Program? && (k.LocalStep? || k.SievePrepare?) && !op.payload.Local? {
        CalmSound(strict, op, RecordStep(op, k), r, r);
        AdvanceSound(strict, w, n, RecordStep(op, k), Program);
      }
    case AwaitExternal(_, k) =>
      if phase.Program? && k.ExternalStep? && !op.payload.Local? {
        CalmSound(strict, op, InsertStep(op, k, StepPending), r, r);
        AdvanceSound(strict, w, n, InsertStep(op, k, StepPending), Program);
      }
  }

  lemma ProgramMoveSound(strict: bool, w: World, e: Event)
    requires Sound(strict, w) && ProgramMove(e) && WorkerAt(w, e.worker)
    ensures Sound(strict, WorkerStep(w, e))
  {
    hide Structure, RowOk, RowSound, Sound, Classify, HasEffects, InDoubtBesides;
    var n := e.worker;
    var id := w.workers[n].op;
    var op, phase, r := Row(w, id), w.workers[n].phase, w.remotes[id];
    SoundStructure(strict, w);
    ProgramMoveKeeps(w, e);
    SoundFacts(strict, w, n);
    match e
    case Record(_, _) => RecordSound(strict, w, e);
    case CommitPart(_, k, mailbox) =>
      if phase.Program? && k.LocalStep? && !op.payload.Local? { CommitPartSound(strict, w, n, k, mailbox); }
    case AwaitExternal(_, _) => RecordSound(strict, w, e);
    case CommitAll(_) => if phase.Program? { CommitAllSound(strict, w, n); }
    case Return(_, err) => if phase.Program? { AdvanceSound(strict, w, n, op, Finishing(err)); }
    case Conclude(_, interrupted) =>
      if phase.Finishing? {
        if op.status == Succeeded { RetireSound(strict, w, n); }
        else { AdvanceSound(strict, w, n, op, Sealing(Classify(op, phase.err, interrupted))); }
      }
    case Seal(_) => if phase.Sealing? { SealSound(strict, w, n); }
  }

  lemma RetireSound(strict: bool, w: World, n: nat)
    requires Sound(strict, w)
    ensures Sound(strict, Retire(w, n))
  {
    hide Structure, RowSound, PhaseSound;
    LoseKeeps(w, n);
  }

  lemma CommitPartSound(strict: bool, w: World, n: nat, k: StepKey, mailbox: Option<Key>)
    requires Sound(strict, w) && WorkerAt(w, n) && w.workers[n].phase.Program? && k.LocalStep?
    requires !Row(w, w.workers[n].op).payload.Local?
    ensures Sound(strict, WorkerStep(w, CommitPart(n, k, mailbox)))
  {
    hide Structure, RowOk, RowSound, Sound, WorkerOk;
    var id := w.workers[n].op;
    var op, r := Row(w, id), w.remotes[id];
    SoundStructure(strict, w);
    CommitPartKeeps(w, n, k, mailbox);
    SoundFacts(strict, w, n);
    assert w.workers[n := Worker(id, Program)] == w.workers && w.remotes[id := r] == w.remotes;
    match CommitIntermediateTx(w.journal, id, k, mailbox)
    case Refused(_) =>
    case Done(j) =>
      CalmSound(strict, op, j.operations[id], r, r);
      assert j.operations == w.journal.operations[id := j.operations[id]];
      PlaceSound(strict, w, n, j.operations[id], j.locks, Some(Program), r);
  }

  lemma CommitAllSound(strict: bool, w: World, n: nat)
    requires Sound(strict, w) && WorkerAt(w, n) && w.workers[n].phase.Program?
    ensures Sound(strict, WorkerStep(w, CommitAll(n)))
  {
    hide Structure, RowSound, Sound;
    var id := w.workers[n].op;
    var op, r := Row(w, id), w.remotes[id];
    SoundStructure(strict, w);
    CommitAllKeeps(w, n);
    SoundFacts(strict, w, n);
    var next := MoveSteps(op, {StepRunning}, StepSucceeded).(status := Succeeded, sealed := false);
    assert forall k | k in op.steps && k != Execute :: next.steps[k] == op.steps[k];
    var after := r.(committed := r.committed + 1);
    CalmSound(strict, op, next, r, after);
    PlaceSound(strict, w, n, next, Release(w.journal.locks, id), Some(Finishing(NoError)), after);
  }

  lemma SealSound(strict: bool, w: World, n: nat)
    requires Sound(strict, w) && WorkerAt(w, n) && w.workers[n].phase.Sealing?
    ensures Sound(strict, WorkerStep(w, Seal(n)))
  {
    hide Structure, RowOk, RowSound, Sound;
    var id := w.workers[n].op;
    var op, s, r := Row(w, id), w.workers[n].phase.status, w.remotes[id];
    SoundStructure(strict, w);
    SealKeeps(w, n);
    SoundFacts(strict, w, n);
    CalmSound(strict, op, SealedRow(op, s), r, r);
    assert w.remotes[id := r] == w.remotes;
    PlaceSound(strict, w, n, SealedRow(op, s), FinishTx(w.journal, id, s).locks, None, r);
  }

  // ----- administrators, reconciles, crashes ----------------------------------

  /** A move on a row no worker holds. */
  lemma SettleSound(strict: bool, w: World, id: OpId, op: Operation, journal: Journal)
    requires Sound(strict, w) && id in w.journal.operations && Idle(w, id)
    requires journal.operations == w.journal.operations[id := op] && Structure(w.(journal := journal))
    requires Calm(Row(w, id), op)
    ensures Sound(strict, w.(journal := journal))
  {
    hide Structure, RowSound, PhaseSound, ReaderSound, Calm;
    CalmSound(strict, Row(w, id), op, w.remotes[id], w.remotes[id]);
  }

  lemma NoWorker(w: World, id: OpId)
    requires Structure(w) && id in w.journal.operations && Row(w, id).status !in {Running, Succeeded}
    ensures Idle(w, id)
  {
    hide RowOk, WorkerOk, LocksOk;
    forall n | n in w.workers ensures w.workers[n].op != id {
      WorkerFacts(w, n);
      NotQueued(Row(w, w.workers[n].op), w.workers[n].phase);
    }
  }

  /** What an administrator's transaction may do to the tables. */
  ghost predicate CalmTx(j: Journal, id: OpId, o: Outcome)
    requires id in j.operations
  {
    o.Done? ==>
      && id in o.journal.operations && o.journal.operations == j.operations[id := o.journal.operations[id]]
      && Calm(j.operations[id], o.journal.operations[id]) && j.operations[id].status !in {Running, Succeeded}
  }

  lemma CancelCalm(j: Journal, id: OpId)
    requires id in j.operations && RowOk(j.operations[id])
    ensures CalmTx(j, id, CancelRemoteTx(j, id)) && CalmTx(j, id, CancelLocalTx(j, id))
  {
    hide Release;
  }

  lemma ReconcileCalm(j: Journal, id: OpId)
    requires id in j.operations && RowOk(j.operations[id])
    ensures CalmTx(j, id, ReconcileRemoteTx(j, id)) && CalmTx(j, id, ReconcileLocalTx(j, id))
  {
    hide Release;
  }

  lemma RetryCalm(j: Journal, id: OpId, planKeys: seq<Key>, valid: bool)
    requires id in j.operations && RowOk(j.operations[id])
    ensures CalmTx(j, id, RetryRemoteTx(j, id, planKeys, valid)) && CalmTx(j, id, RetryLocalTx(j, id, valid))
  {
    hide Acquire, FirstOther, RetryKeys;
  }

  lemma ReportCalm(j: Journal, id: OpId, items: seq<StepKey>, current: bool, k: StepKey, eligible: bool)
    requires id in j.operations && RowOk(j.operations[id])
    ensures CalmTx(j, id, ConfirmTx(j, id, items, current)) && CalmTx(j, id, CleanupTx(j, id, k, eligible))
  {
    hide Release, Calm, RowOk, ReportAll, Settled, InDoubtBesides, AnyInDoubt, Confirmable;
    var op := j.operations[id];
    if ConfirmTx(j, id, items, current).Done? { ConfirmRowCalm(op, items); }
    if CleanupTx(j, id, k, eligible).Done? { CleanupRowCalm(op, k); }
  }

  lemma ConfirmRowCalm(op: Operation, items: seq<StepKey>)
    requires Confirmable(op, items)
    ensures Calm(op, ReportAll(op, items))
    ensures Calm(op, SetStep(ReportAll(op, items), Execute, StepSucceeded).(status := Succeeded, sealed := false))
  {
  }

  lemma CleanupRowCalm(op: Operation, k: StepKey)
    ensures Calm(op, SetStep(SetStep(op, k, StepReported), Execute, StepFailed).(status := Cancelled, sealed := false))
  {
  }

  lemma AdminCalm(w: World, e: Event)
    requires Structure(w) && AdminMove(e) && e.id in w.journal.operations && AdminStep(w, e) != w
    ensures var j := AdminStep(w, e).journal;
            AdminStep(w, e) == w.(journal := j) && CalmTx(w.journal, e.id, Done(j))
  {
    hide Structure, CalmTx, RowOk, KeysOk, LocksOk, CancelRemoteTx, CancelLocalTx, ReconcileRemoteTx, ReconcileLocalTx, RetryRemoteTx, RetryLocalTx,
         ConfirmTx, CleanupTx;
    RowFacts(w, e.id);
    var j := w.journal;
    match e
    case CancelRemote(id) => CancelCalm(j, id);
    case ReconcileRemote(id) => ReconcileCalm(j, id);
    case RetryRemote(id, planKeys, valid) => RetryCalm(j, id, planKeys, valid);
    case CancelLocal(id) => CancelCalm(j, id);
    case ReconcileLocal(id) => ReconcileCalm(j, id);
    case RetryLocal(id, valid) => RetryCalm(j, id, [], valid);
    case Confirm(id, items, current) => ReportCalm(j, id, items, current, Execute, false);
    case Cleanup(id, k, eligible) => ReportCalm(j, id, [], true, k, eligible);
  }

  lemma AdminSound(strict: bool, w: World, e: Event)
    requires Sound(strict, w) && AdminMove(e) && e.id in w.journal.operations
    ensures Sound(strict, AdminStep(w, e))
  {
    hide Structure, RowSound, PhaseSound, AdminStep, Calm;
    if AdminStep(w, e) != w {
      AdminCalm(w, e);
      AdminKeeps(w, e);
      NoWorker(w, e.id);
      var j := AdminStep(w, e).journal;
      SettleSound(strict, w, e.id, j.operations[e.id], j);
    }
  }

  lemma ReaderMoveSound(strict: bool, w: World, e: Event)
    requires Sound(strict, w) && ReaderMove(e) && ReaderAt(w, e.reader) && Truthful(w, e) && Careful(strict, w, e)
    ensures Sound(strict, ReaderStep(w, e))
  {
    hide Structure, RowSound, PhaseSound;
    ReaderKeeps(w, e);
    var reader := w.readers[e.reader];
    if e.WriteVerdict? && reader.verdict.Some? { WriteSound(strict, w, e.reader); }
  }

  lemma WriteSound(strict: bool, w: World, r: nat)
    requires Sound(strict, w) && ReaderAt(w, r) && w.readers[r].verdict.Some? && Careful(strict, w, WriteVerdict(r))
    ensures Sound(strict, ReaderStep(w, WriteVerdict(r)))
  {
    hide RowOk, WorkerOk, RowsOk, WorkersOk, LocksOk, RequestsOk, RowSound, PhaseSound, Structure;
    SoundStructure(strict, w);
    ReaderKeeps(w, WriteVerdict(r));
    if strict { FreshIsHarmless(strict, w, WriteVerdict(r)); }
    var id, v := w.readers[r].op, w.readers[r].verdict.value;
    var op := Row(w, id);
    var next := SaveVerdict(op, v.key, v.done);
    assert ReaderSound(w.readers[r], w.remotes[id]);
    assert v.key.RemoteStep? by { ReaderKey(w, r); }
    var harmless := !(v.key in op.steps && InDoubt(op.steps[v.key])) || v.done || Times(w.remotes[id], v.key) == 0;
    assert harmless;
    VerdictSound(strict, op, w.remotes[id], v.key, v.done);
    forall n | n in w.workers && w.workers[n].op == id ensures PhaseSound(strict, next, w.remotes[id], w.workers[n].phase) {
      assert PhaseSound(strict, op, w.remotes[id], w.workers[n].phase);
      if strict { FreshIsIdle(w, r); assert false; }
      else { VerdictPhaseSound(w, r, n); }
    }
  }

  lemma ReaderKey(w: World, r: nat)
    requires Structure(w) && r in w.readers && w.readers[r].verdict.Some?
    ensures w.readers[r].verdict.value.key.RemoteStep?
  {
    hide RowsOk, WorkersOk, LocksOk, RequestsOk;
  }

  lemma FreshIsIdle(w: World, r: nat)
    requires Structure(w) && ReaderAt(w, r) && w.readers[r].op in w.remotes && Fresh(w, WriteVerdict(r))
    ensures Idle(w, w.readers[r].op)
  {
    hide RowsOk, WorkersOk, LocksOk, RequestsOk;
  }

  lemma VerdictSound(strict: bool, op: Operation, r: Remote, k: StepKey, done: bool)
    requires RowSound(strict, op, r) && k.RemoteStep?
    requires k in op.steps && InDoubt(op.steps[k]) ==> if done then Times(r, k) > 0 else Times(r, k) == 0
    ensures RowSound(strict, SaveVerdict(op, k, done), r)
  {
    var next := SaveVerdict(op, k, done);
    forall x: StepKey | x.RemoteStep?
      ensures Times(r, x) <= 1 && (Open(next, x) ==> Times(r, x) == 0)
      ensures strict && !Open(next, x) && next.steps[x] == StepSucceeded ==> Times(r, x) == 1
    {
      assert x != k ==> (Open(next, x) <==> Open(op, x));
      assert Times(r, x) <= 1;
    }
  }

  lemma VerdictPhaseSound(w: World, r: nat, n: nat)
    requires Sound(false, w) && ReaderAt(w, r) && w.readers[r].verdict.Some? && !Dangerous(w, r)
    requires n in w.workers && w.workers[n].op == w.readers[r].op
    ensures var v, id := w.readers[r].verdict.value, w.readers[r].op;
            PhaseSound(false, SaveVerdict(Row(w, id), v.key, v.done), w.remotes[id], w.workers[n].phase)
  {
    hide Structure, RowSound;
    var v, id := w.readers[r].verdict.value, w.readers[r].op;
    assert ReaderSound(w.readers[r], w.remotes[id]);
    var phase := w.workers[n].phase;
    if phase.Marked? && phase.key == v.key { assert w.workers[n] == Worker(id, Marked(v.key)); }
  }

  lemma QueueSound(strict: bool, w: World, rk: RequestKey, digest: string, id: OpId, p: Payload, valid: bool)
    requires Sound(strict, w)
    ensures Sound(strict, QueueStep(w, rk, digest, id, p, valid))
  {
    hide Structure, RowSound, PhaseSound, ReaderSound, QueuedKeys, QueueKeys, FirstOwner, CreatedFree, Acquire;
    SoundStructure(strict, w);
    QueueKeeps(w, rk, digest, id, p, valid);
    NewSound(strict, p);
    NewId(w, id);
  }

  lemma NewId(w: World, id: OpId)
    requires Structure(w)
    ensures id in w.remotes <==> id in w.journal.operations
  {
    hide RowOk, KeysOk, WorkersOk, ReadersOk, LocksOk, RequestsOk;
  }

  lemma NewSound(strict: bool, p: Payload)
    ensures RowSound(strict, NewOperation(p), Remote(map[], 0, 0))
  {
    hide QueuedKeys;
    var s := FirstSteps(p);
    assert forall k | k in s :: k == Execute || k == PREPARE || k == PROCESSING;
  }

  lemma ClaimSound(strict: bool, w: World, n: nat, id: OpId)
    requires Sound(strict, w)
    ensures Sound(strict, ClaimStep(w, n, id))
  {
    hide Structure, PhaseSound, RowSound;
    SoundStructure(strict, w);
    ClaimKeeps(w, n, id);
    NewId(w, id);
    if ClaimStep(w, n, id) != w {
      var op, r := Row(w, id), w.remotes[id];
      var after := r.(claims := r.claims + 1);
      CalmSound(strict, op, op.(status := Running), r, after);
      assert PhaseSound(strict, op.(status := Running), after, Claimed) by { ClaimedSound(strict, op.(status := Running), after); }
      NoWorker(w, id);
      forall q | q in w.readers && w.readers[q].op == id ensures ReaderSound(w.readers[q], after) {
        assert ReaderSound(w.readers[q], r);
        ReaderClaims(w, q);
        assert forall k :: Times(after, k) == Times(r, k);
      }
    }
  }

  lemma ClaimedSound(strict: bool, op: Operation, r: Remote)
    ensures PhaseSound(strict, op, r, Claimed)
  {
  }

  lemma ReaderClaims(w: World, r: nat)
    requires Structure(w) && r in w.readers
    ensures w.readers[r].op in w.remotes && w.readers[r].claims <= w.remotes[w.readers[r].op].claims
  {
    hide RowsOk, WorkersOk, LocksOk, RequestsOk;
  }

  lemma OpenReaderSound(strict: bool, w: World, r: nat, id: OpId)
    requires Sound(strict, w)
    ensures Sound(strict, OpenReaderStep(w, r, id))
  {
    hide Structure, PhaseSound, RowSound;
    OpenReaderKeeps(w, r, id);
  }

  lemma RestartSound(strict: bool, w: World)
    requires Sound(strict, w)
    ensures Sound(strict, World(RecoverTx(w.journal), map[], map[], w.remotes))
  {
    hide Structure, PhaseSound, RowSound, RecoverOperation;
    RestartKeeps(w);
    forall id | id in w.journal.operations
      ensures RowSound(strict, RecoverOperation(w.journal.operations[id]), w.remotes[id])
    {
      RecoverCalm(w.journal.operations[id]);
      CalmSound(strict, w.journal.operations[id], RecoverOperation(w.journal.operations[id]), w.remotes[id], w.remotes[id]);
    }
  }

  lemma RecoverCalm(op: Operation)
    ensures Calm(op, RecoverOperation(op))
  {
  }

  // ----- every run ------------------------------------------------------------

  lemma StepSound(strict: bool, w: World, e: Event)
    requires Sound(strict, w) && Truthful(w, e) && Careful(strict, w, e)
    ensures Sound(strict, Step(w, e))
  {
    hide Sound, WorkerStep, AdminStep, ReaderStep, QueueStep, ClaimStep, OpenReaderStep, RecoverTx, Careful;
    if JournalMove(e) { if WorkerAt(w, e.worker) { JournalMoveSound(strict, w, e); } }
    else if ProgramMove(e) { if WorkerAt(w, e.worker) { ProgramMoveSound(strict, w, e); } }
    else if AdminMove(e) { if e.id in w.journal.operations { AdminSound(strict, w, e); } }
    else if ReaderMove(e) { if ReaderAt(w, e.reader) { ReaderMoveSound(strict, w, e); } }
    else {
      match e
      case Queue(rk, digest, id, p, valid) => QueueSound(strict, w, rk, digest, id, p, valid);
      case Claim(n, id) => ClaimSound(strict, w, n, id);
      case OpenReader(r, id) => OpenReaderSound(strict, w, r, id);
      case Lose(n) => RetireSound(strict, w, n);
      case Restart => RestartSound(strict, w);
    }
  }

  ghost predicate CarefulRun(strict: bool, w: World, es: seq<Event>)
    decreases |es|
  {
    es == [] || (Careful(strict, w, es[0]) && CarefulRun(strict, Step(w, es[0]), es[1..]))
  }

  lemma {:induction false} RunSound(strict: bool, w: World, es: seq<Event>)
    requires Sound(strict, w) && TruthfulRun(w, es) && CarefulRun(strict, w, es)
    ensures Sound(strict, Run(w, es))
    decreases |es|
  {
    hide Sound, Step, Careful, Truthful;
    if es != [] {
      StepSound(strict, w, es[0]);
      RunSound(strict, Step(w, es[0]), es[1..]);
    }
  }

  lemma {:induction false} FreshRunCareful(strict: bool, w: World, es: seq<Event>)
    requires Sound(strict, w) && TruthfulRun(w, es) && FreshRun(w, es)
    ensures CarefulRun(strict, w, es)
    decreases |es|
  {
    hide Sound, Step, Truthful;
    if es != [] {
      if es[0].WriteVerdict? { FreshIsHarmless(strict, w, es[0]); }
      StepSound(strict, w, es[0]);
      FreshRunCareful(strict, Step(w, es[0]), es[1..]);
    }
  }

  ghost predicate AtMostOnce(w: World) {
    forall id, k: StepKey | id in w.remotes && k.RemoteStep? :: Times(w.remotes[id], k) <= 1
  }

  lemma SoundIsAtMostOnce(strict: bool, w: World)
    requires Sound(strict, w)
    ensures AtMostOnce(w)
  {
    hide RowOk, KeysOk, WorkersOk, ReadersOk, LocksOk, RequestsOk, PhaseSound, ReaderSound;
    forall id, k: StepKey | id in w.remotes && k.RemoteStep? ensures Times(w.remotes[id], k) <= 1 {
      assert RowSound(strict, w.journal.operations[id], w.remotes[id]);
    }
  }

  lemma StartSound(strict: bool)
    ensures Sound(strict, START)
  {
  }

  /** Over every run with crashes, retries and reconciles, each journalled write
      happens at most once per operation. */
  lemma {:induction false} EffectsAtMostOnce(es: seq<Event>)
    requires TruthfulRun(START, es) && FreshRun(START, es)
    ensures AtMostOnce(Run(START, es))
  {
    StartSound(true);
    FreshRunCareful(true, START, es);
    RunSound(true, START, es);
    SoundIsAtMostOnce(true, Run(START, es));
  }
}
