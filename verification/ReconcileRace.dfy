/** A reconcile reads the provider first and saves its verdict later, guarded only
    by the step still being unknown or running. This module shows when that loses
    the at-most-once property, and that it can. */
module ReconcileRace {

  import opened Wrappers
  import opened Text
  import opened Operations
  import opened OperationRuns
  import opened OperationInvariants
  import opened OperationEffects

  /** Some run with truthful providers and fresh reconciles goes from `w` to `to`. */
  ghost predicate Leads(w: World, to: World) {
    exists es :: TruthfulRun(w, es) && FreshRun(w, es) && Run(w, es) == to
  }

  ghost predicate CanDouble(w: World) {
    exists to :: Leads(w, to) && !AtMostOnce(to)
  }

  lemma LeadsHere(w: World)
    ensures Leads(w, w)
  {
    assert Run(w, []) == w && TruthfulRun(w, []) && FreshRun(w, []);
  }

  lemma LeadsStep(w: World, e: Event, to: World)
    requires Truthful(w, e) && Fresh(w, e) && Leads(Step(w, e), to)
    ensures Leads(w, to)
  {
    hide Step, Truthful, Fresh;
    var es :| TruthfulRun(Step(w, e), es) && FreshRun(Step(w, e), es) && Run(Step(w, e), es) == to;
    var all := [e] + es;
    assert all[1..] == es;
    assert TruthfulRun(w, all) && FreshRun(w, all) && Run(w, all) == to;
  }

  // ----- the road from a wrongly reopened step to a second effect -------------

  /** The step is recorded as failed, its effect has happened, nothing else is in
      doubt, nobody is working, and the operation is in `status`. */
  ghost predicate Reopened(w: World, id: OpId, k: StepKey, status: Status, step: StepStatus) {
    && Structure(w) && id in w.journal.operations && id in w.remotes && w.workers == map[]
    && Row(w, id).status == status && !Row(w, id).payload.Local? && k.RemoteStep? && k in Row(w, id).steps
    && Row(w, id).steps[k] == step && !InDoubtBesides(Row(w, id), Execute) && Times(w.remotes[id], k) > 0
  }

  lemma ReconcileIt(w: World, id: OpId, k: StepKey)
    requires Reopened(w, id, k, Unknown, StepFailed)
    ensures Reopened(Step(w, ReconcileRemote(id)), id, k, NeedsAction, StepFailed)
  {
    hide Structure, KeysOk, LocksOk;
    StepKeeps(w, ReconcileRemote(id));
    RowFacts(w, id);
    var op := Row(w, id);
    var next := SetStep(op, Execute, StepFailed);
    assert forall x | x in next.steps && x != Execute :: x in op.steps && next.steps[x] == op.steps[x];
  }

  /** A live operation owns every key a retry without plan keys asks for. */
  lemma RetryIsFree(w: World, id: OpId)
    requires Structure(w) && id in w.journal.operations && Row(w, id).status == NeedsAction
    ensures FirstOther(w.journal.locks, RetryKeys(Row(w, id).payload, []), id).None?
  {
    hide RowOk, RowsOk, WorkersOk, ReadersOk, RequestsOk, RetryKeys, QueuedKeys, RecomputedKeys;
    var op := Row(w, id);
    RowFacts(w, id);
    RetryKeysWithin(op.payload);
    forall k | k in RetryKeys(op.payload, []) ensures k in w.journal.locks && w.journal.locks[k] == id {
      assert k in Elements(RetryKeys(op.payload, []));
    }
  }

  lemma RetryKeysWithin(p: Payload)
    ensures Elements(RetryKeys(p, [])) <= RecomputedKeys(p)
  {
    if p.Planned? {
      hide Sort, Canonical, ConnectionKeys, MailboxKeys, DomainKeys, TargetMailbox, CreatedKeys;
      var c, m, d := ConnectionKeys(p.connection), MailboxKeys(TargetMailbox(p)), DomainKeys(p);
      var a, b := c + m + d + [], p.caller + p.planKeys + d + c + m;
      SortElements(a);
      CanonicalShape(b);
      forall x | x in a ensures x in b {
        assert x in c || x in m || x in d;
      }
      assert Elements(a) <= Elements(b);
    }
  }

  lemma RetryIt(w: World, id: OpId, k: StepKey)
    requires Reopened(w, id, k, NeedsAction, StepFailed)
    ensures Reopened(Step(w, RetryRemote(id, [], true)), id, k, Queued, StepPending)
  {
    hide Structure, KeysOk, LocksOk, RetryKeys, FirstOther, Acquire;
    StepKeeps(w, RetryRemote(id, [], true));
    RowFacts(w, id);
    RetryIsFree(w, id);
    var op := Row(w, id);
    assert !AnyInDoubt(op);
  }

  /** Worker 0 is at `phase` of the operation and the step is still not done. */
  ghost predicate Going(w: World, id: OpId, k: StepKey, phase: Phase) {
    && WorkerAt(w, 0) && w.workers[0] == Worker(id, phase) && Times(w.remotes[id], k) > 0 && k.RemoteStep?
    && Row(w, id).status == Running && !Row(w, id).payload.Local? && Execute in Row(w, id).steps
    && k in Row(w, id).steps && (phase == Marked(k) || Row(w, id).steps[k] == StepPending)
  }

  lemma ClaimIt(w: World, id: OpId, k: StepKey)
    requires Reopened(w, id, k, Queued, StepPending)
    ensures Going(Step(w, Claim(0, id)), id, k, Claimed)
  {
    hide Structure, KeysOk, LocksOk;
    RowFacts(w, id);
  }

  lemma BeginIt(w: World, id: OpId, k: StepKey)
    requires Going(w, id, k, Claimed)
    ensures Going(Step(w, Begin(0)), id, k, Program)
  {
  }

  lemma CheckIt(w: World, id: OpId, k: StepKey)
    requires Going(w, id, k, Program)
    ensures Going(Step(w, Check(0, k)), id, k, Checked(k))
  {
  }

  lemma MarkIt(w: World, id: OpId, k: StepKey)
    requires Going(w, id, k, Checked(k))
    ensures Going(Step(w, Mark(0)), id, k, Marked(k))
  {
  }

  lemma CallIt(w: World, id: OpId, k: StepKey)
    requires Going(w, id, k, Marked(k))
    ensures !AtMostOnce(Step(w, Invoke(0, true, Untyped)))
  {
    TwiceIsNotOnce(Step(w, Invoke(0, true, Untyped)), id, k);
  }

  /** Claim, begin, check, mark and call: the write happens again. */
  lemma RunItAgain(w: World, id: OpId, k: StepKey)
    requires Reopened(w, id, k, Queued, StepPending)
    ensures CanDouble(w)
  {
    hide Reopened, Going, Step, AtMostOnce, Leads, CanDouble;
    var w1 := Step(w, Claim(0, id));
    ClaimIt(w, id, k);
    var w2 := Step(w1, Begin(0));
    BeginIt(w1, id, k);
    var w3 := Step(w2, Check(0, k));
    CheckIt(w2, id, k);
    var w4 := Step(w3, Mark(0));
    MarkIt(w3, id, k);
    CallIt(w4, id, k);
    DoubledHere(Step(w4, Invoke(0, true, Untyped)));
    DoublesLater(w4, Invoke(0, true, Untyped));
    DoublesLater(w3, Mark(0));
    DoublesLater(w2, Check(0, k));
    DoublesLater(w1, Begin(0));
    DoublesLater(w, Claim(0, id));
  }

  lemma DoubledHere(w: World)
    requires !AtMostOnce(w)
    ensures CanDouble(w)
  {
    LeadsHere(w);
  }

  lemma TwiceIsNotOnce(w: World, id: OpId, k: StepKey)
    requires id in w.remotes && k.RemoteStep? && Times(w.remotes[id], k) > 1
    ensures !AtMostOnce(w)
  {
  }

  lemma DoublesLater(w: World, e: Event)
    requires Truthful(w, e) && Fresh(w, e) && CanDouble(Step(w, e))
    ensures CanDouble(w)
  {
    hide Step, Truthful, Fresh, Leads, AtMostOnce;
    var to :| Leads(Step(w, e), to) && !AtMostOnce(to);
    LeadsStep(w, e, to);
  }

  lemma ReopenedDoubles(w: World, id: OpId, k: StepKey)
    requires Reopened(w, id, k, Unknown, StepFailed)
    ensures CanDouble(w)
  {
    hide Reopened, CanDouble, Step;
    var w1 := Step(w, ReconcileRemote(id));
    ReconcileIt(w, id, k);
    RetryIt(w1, id, k);
    RunItAgain(Step(w1, RetryRemote(id, [], true)), id, k);
    DoublesLater(w1, RetryRemote(id, [], true));
    DoublesLater(w, ReconcileRemote(id));
  }

  /** A crash turns the state into the one above. */
  lemma CrashReopens(w: World, id: OpId, k: StepKey)
    requires Structure(w) && id in w.journal.operations && id in w.remotes && Times(w.remotes[id], k) > 0
    requires Row(w, id).status in {Running, Unknown} && !Row(w, id).payload.Local?
    requires k.RemoteStep? && k in Row(w, id).steps && Row(w, id).steps[k] == StepFailed && !InDoubtBesides(Row(w, id), Execute)
    ensures Reopened(Step(w, Restart), id, k, Unknown, StepFailed)
  {
    hide Structure, WorkerStep, AdminStep, ReaderStep, QueueStep, ClaimStep, OpenReaderStep, Times;
    StepKeeps(w, Restart);
    var op := Row(w, id);
    assert forall x | x in op.steps && x != Execute :: RecoverOperation(op).steps[x] == op.steps[x];
  }

  lemma CrashDoubles(w: World, id: OpId, k: StepKey)
    requires Structure(w) && id in w.journal.operations && id in w.remotes && Times(w.remotes[id], k) > 0
    requires Row(w, id).status in {Running, Unknown} && !Row(w, id).payload.Local?
    requires k.RemoteStep? && k in Row(w, id).steps && Row(w, id).steps[k] == StepFailed && !InDoubtBesides(Row(w, id), Execute)
    ensures CanDouble(w)
  {
    hide Reopened, CanDouble, Step, InDoubtBesides, Structure;
    CrashReopens(w, id, k);
    ReopenedDoubles(Step(w, Restart), id, k);
    DoublesLater(w, Restart);
  }

  /** What a wrong verdict leaves behind. */
  lemma WrittenRow(op: Operation, k: StepKey)
    requires RowOk(op) && k.RemoteStep? && k in op.steps && InDoubt(op.steps[k])
    ensures var next := SaveVerdict(op, k, false);
            && next.status in {Running, Unknown} && !next.payload.Local? && k in next.steps && next.steps[k] == StepFailed
            && !InDoubtBesides(next, Execute)
  {
    assert AnyInDoubt(op);
    assert !InDoubtBesides(op, k);
    var next := SaveVerdict(op, k, false);
    assert forall x | x in next.steps && x != k :: x in op.steps && next.steps[x] == op.steps[x];
  }

  lemma DangerousDoubles(w: World, r: nat)
    requires Sound(false, w) && Dangerous(w, r)
    ensures CanDouble(Step(w, WriteVerdict(r)))
  {
    hide Structure, CanDouble, RowOk, RowSound, InDoubtBesides, KeysOk, LocksOk;
    var id, k := w.readers[r].op, w.readers[r].verdict.value.key;
    SoundStructure(false, w);
    ReaderKey(w, r);
    RowFacts(w, id);
    WrittenRow(Row(w, id), k);
    StepKeeps(w, WriteVerdict(r));
    var w1 := Step(w, WriteVerdict(r));
    assert Row(w1, id) == SaveVerdict(Row(w, id), k, false) && w1.remotes == w.remotes && w1.workers == w.workers;
    if Times(w.remotes[id], k) > 0 {
      CrashDoubles(w1, id, k);
    } else {
      var n :| n in w.workers && w.workers[n] == Worker(id, Marked(k));
      var e := Invoke(n, true, Untyped);
      StepKeeps(w1, e);
      CalledRow(w1, n);
      CrashDoubles(Step(w1, e), id, k);
      DoublesLater(w1, e);
    }
  }

  lemma CalledRow(w: World, n: nat)
    requires Structure(w) && WorkerAt(w, n) && w.workers[n].phase.Marked?
    ensures var next := Step(w, Invoke(n, true, Untyped));
            var id, k := w.workers[n].op, w.workers[n].phase.key;
            && id in next.journal.operations && id in next.remotes && Row(next, id) == Row(w, id)
            && Times(next.remotes[id], k) == Times(w.remotes[id], k) + 1
  {
    hide Structure;
  }

  /** Exactly the dangerous writes lose the property: saving a verdict can lead to
      a second effect if and only if it reopens a step whose effect has happened
      or whose call is about to be made. */
  lemma DangerIsExact(w: World, r: nat)
    requires Sound(false, w)
    ensures CanDouble(Step(w, WriteVerdict(r))) <==> Dangerous(w, r)
  {
    hide Sound, Step, Dangerous;
    if Dangerous(w, r) {
      DangerousDoubles(w, r);
    } else {
      StepSound(false, w, WriteVerdict(r));
      var w1 := Step(w, WriteVerdict(r));
      forall to | Leads(w1, to) ensures AtMostOnce(to) {
        var es :| TruthfulRun(w1, es) && FreshRun(w1, es) && Run(w1, es) == to;
        FreshRunCareful(false, w1, es);
        RunSound(false, w1, es);
        SoundIsAtMostOnce(false, to);
      }
    }
  }

  // ----- and such a write can come about --------------------------------------

  const WRITE := RemoteStep("mailbox.resetPassword")
  const REQUEST := RequestKey(1, "r")

  function Both(execute: StepStatus, step: StepStatus): map<StepKey, StepStatus> {
    map[Execute := execute, WRITE := step]
  }

  function TheRow(s: Status, steps: map<StepKey, StepStatus>): Operation {
    Operation(s, Plain(0, 0, []), true, steps, {})
  }

  /** One operation, with at most the two steps above. */
  function Scene(op: Operation, workers: map<nat, Worker>, readers: map<nat, Reader>, remote: Remote): World {
    World(Journal(map[0 := op], map[REQUEST := Saved(0, "d")], map[]), workers, readers, map[0 := remote])
  }

  predicate Does(w: World, e: Event, to: World) {
    Truthful(w, e) && Fresh(w, e) && Step(w, e) == to
  }

  lemma LeadsOn(w: World, e: Event, mid: World, to: World)
    requires Does(w, e, mid) && Leads(mid, to)
    ensures Leads(w, to)
  {
    hide Step, Truthful, Fresh;
    LeadsStep(w, e, to);
  }

  lemma NoKeys()
    ensures FirstOwner(map[], QueueKeys(Plain(0, 0, []))).None? && QueuedKeys(Plain(0, 0, [])) == {} && CreatedKeys(Plain(0, 0, [])) == []
    ensures RetryKeys(Plain(0, 0, []), []) == []
  {
    assert QueueKeys(Plain(0, 0, [])) == [];
  }

  function At(phase: Phase): map<nat, Worker> {
    map[0 := Worker(0, phase)]
  }

  lemma DoQueue()
    ensures Does(START, Queue(REQUEST, "d", 0, Plain(0, 0, []), true),
                 Scene(TheRow(Queued, map[Execute := StepPending]), map[], map[], Remote(map[], 0, 0)))
  {
    hide QueueKeys, QueuedKeys, CreatedKeys, FirstOwner;
    NoKeys();
    assert Acquire(map[], {}, 0) == map[];
  }

  lemma DoClaim(steps: map<StepKey, StepStatus>, readers: map<nat, Reader>, r: Remote)
    ensures Does(Scene(TheRow(Queued, steps), map[], readers, r), Claim(0, 0),
                 Scene(TheRow(Running, steps), At(Claimed), readers, r.(claims := r.claims + 1)))
  {
    hide WorkerStep, AdminStep, ReaderStep, QueueStep, OpenReaderStep, RecoverTx;
  }

  /** A worker's move on the one operation. */
  lemma DoMove(op: Operation, next: Operation, phase: Phase, after: Phase, readers: map<nat, Reader>, r: Remote, r': Remote, e: Event)
    requires (JournalMove(e) || ProgramMove(e)) && e.worker == 0
    requires var w := Scene(op, At(phase), readers, r);
             WorkerStep(w, e) == Advance(w, 0, next, after).(remotes := w.remotes[0 := r']) && Truthful(w, e)
    ensures Does(Scene(op, At(phase), readers, r), e, Scene(next, At(after), readers, r'))
  {
    hide WorkerStep, AdminStep, ReaderStep, QueueStep, ClaimStep, OpenReaderStep, RecoverTx, Truthful, Advance;
    Advanced(op, next, phase, after, readers, r, r');
  }

  lemma Advanced(op: Operation, next: Operation, phase: Phase, after: Phase, readers: map<nat, Reader>, r: Remote, r': Remote)
    ensures var w := Scene(op, At(phase), readers, r);
            Advance(w, 0, next, after).(remotes := w.remotes[0 := r']) == Scene(next, At(after), readers, r')
  {
    var w := Scene(op, At(phase), readers, r);
    assert w.workers[0 := Worker(0, after)] == At(after);
    assert w.journal.operations[0 := next] == map[0 := next];
  }

  lemma DoBegin(steps: map<StepKey, StepStatus>, readers: map<nat, Reader>, r: Remote)
    requires Execute in steps
    ensures Does(Scene(TheRow(Running, steps), At(Claimed), readers, r), Begin(0),
                 Scene(TheRow(Running, steps[Execute := StepRunning]), At(Program), readers, r))
  {
    DoMove(TheRow(Running, steps), TheRow(Running, steps[Execute := StepRunning]), Claimed, Program, readers, r, r, Begin(0));
  }

  lemma DoCheck(steps: map<StepKey, StepStatus>, readers: map<nat, Reader>, r: Remote)
    requires WRITE !in steps || steps[WRITE] == StepPending
    ensures Does(Scene(TheRow(Running, steps), At(Program), readers, r), Check(0, WRITE),
                 Scene(TheRow(Running, steps[WRITE := StepPending]), At(Checked(WRITE)), readers, r))
  {
    assert WRITE in steps ==> steps[WRITE := StepPending] == steps;
    DoMove(TheRow(Running, steps), TheRow(Running, steps[WRITE := StepPending]), Program, Checked(WRITE), readers, r, r, Check(0, WRITE));
  }

  lemma DoMark(readers: map<nat, Reader>, r: Remote)
    ensures Does(Scene(TheRow(Running, Both(StepRunning, StepPending)), At(Checked(WRITE)), readers, r), Mark(0),
                 Scene(TheRow(Running, Both(StepRunning, StepRunning)), At(Marked(WRITE)), readers, r))
  {
    assert Both(StepRunning, StepPending)[WRITE := StepRunning] == Both(StepRunning, StepRunning);
    DoMove(TheRow(Running, Both(StepRunning, StepPending)), TheRow(Running, Both(StepRunning, StepRunning)), Checked(WRITE), Marked(WRITE),
           readers, r, r, Mark(0));
  }

  lemma DoCall(readers: map<nat, Reader>, r: Remote, applied: bool)
    ensures Does(Scene(TheRow(Running, Both(StepRunning, StepRunning)), At(Marked(WRITE)), readers, r), Invoke(0, applied, Untyped),
                 Scene(TheRow(Running, Both(StepRunning, StepRunning)), At(Replied(WRITE, Untyped)), readers,
                       if applied then r.(effects := r.effects[WRITE := Times(r, WRITE) + 1]) else r))
  {
    var op := TheRow(Running, Both(StepRunning, StepRunning));
    DoMove(op, op, Marked(WRITE), Replied(WRITE, Untyped), readers, r,
           if applied then r.(effects := r.effects[WRITE := Times(r, WRITE) + 1]) else r, Invoke(0, applied, Untyped));
  }

  lemma DoSave(readers: map<nat, Reader>, r: Remote)
    ensures Does(Scene(TheRow(Running, Both(StepRunning, StepRunning)), At(Replied(WRITE, Untyped)), readers, r), SaveReply(0, true),
                 Scene(TheRow(Running, Both(StepRunning, StepUnknown)), At(Finishing(OutcomeUnknown)), readers, r))
  {
    assert Both(StepRunning, StepRunning)[WRITE := StepUnknown] == Both(StepRunning, StepUnknown);
    DoMove(TheRow(Running, Both(StepRunning, StepRunning)), TheRow(Running, Both(StepRunning, StepUnknown)), Replied(WRITE, Untyped),
           Finishing(OutcomeUnknown), readers, r, r, SaveReply(0, true));
  }

  lemma DoFinish(r: Remote)
    ensures var op := TheRow(Running, Both(StepRunning, StepUnknown));
            Does(Scene(op, At(Finishing(OutcomeUnknown)), map[], r), Conclude(0, false), Scene(op, At(Sealing(Unknown)), map[], r))
  {
    var op := TheRow(Running, Both(StepRunning, StepUnknown));
    DoMove(op, op, Finishing(OutcomeUnknown), Sealing(Unknown), map[], r, r, Conclude(0, false));
  }

  lemma DoSeal(r: Remote)
    ensures Does(Scene(TheRow(Running, Both(StepRunning, StepUnknown)), At(Sealing(Unknown)), map[], r), Seal(0),
                 Scene(TheRow(Unknown, Both(StepUnknown, StepUnknown)), map[], map[], r))
  {
    hide AdminStep, ReaderStep, QueueStep, ClaimStep, OpenReaderStep, RecoverTx;
    assert Both(StepRunning, StepUnknown)[Execute := StepUnknown] == Both(StepUnknown, StepUnknown);
    assert At(Sealing(Unknown)) - {0} == map[];
  }

  const STALE := Reader(0, 1, {}, Some(Verdict(WRITE, false)))

  function InDoubtWith(readers: map<nat, Reader>): World {
    Scene(TheRow(Unknown, Both(StepUnknown, StepUnknown)), map[], readers, Remote(map[], 1, 0))
  }

  lemma DoOpen(r: nat, readers: map<nat, Reader>)
    requires r !in readers
    ensures Does(InDoubtWith(readers), OpenReader(r, 0), InDoubtWith(readers[r := Reader(0, 1, {}, None)]))
  {
  }

  lemma DoView(r: nat, readers: map<nat, Reader>)
    ensures Does(InDoubtWith(readers[r := Reader(0, 1, {}, None)]), ViewSteps(r), InDoubtWith(readers[r := Reader(0, 1, {WRITE}, None)]))
  {
    hide WorkerStep, AdminStep, QueueStep, ClaimStep, OpenReaderStep, RecoverTx;
    var op := TheRow(Unknown, Both(StepUnknown, StepUnknown));
    assert Unsettled(op) == {WRITE};
    assert readers[r := Reader(0, 1, {}, None)][r := Reader(0, 1, {WRITE}, None)] == readers[r := Reader(0, 1, {WRITE}, None)];
  }

  lemma DoRead(r: nat, readers: map<nat, Reader>)
    ensures Does(InDoubtWith(readers[r := Reader(0, 1, {WRITE}, None)]), ReadStep(r, WRITE, false), InDoubtWith(readers[r := STALE]))
  {
    assert {WRITE} - {WRITE} == {};
    assert readers[r := Reader(0, 1, {WRITE}, None)][r := STALE] == readers[r := STALE];
  }

  /** Reconcile `r` starts on the unknown operation and reads "not done". */
  lemma ReadNotDone(r: nat, readers: map<nat, Reader>, to: World)
    requires r !in readers && Leads(InDoubtWith(readers[r := STALE]), to)
    ensures Leads(InDoubtWith(readers), to)
  {
    hide Leads, Does, InDoubtWith;
    DoOpen(r, readers);
    DoView(r, readers);
    DoRead(r, readers);
    LeadsOn(InDoubtWith(readers[r := Reader(0, 1, {WRITE}, None)]), ReadStep(r, WRITE, false), InDoubtWith(readers[r := STALE]), to);
    LeadsOn(InDoubtWith(readers[r := Reader(0, 1, {}, None)]), ViewSteps(r), InDoubtWith(readers[r := Reader(0, 1, {WRITE}, None)]), to);
    LeadsOn(InDoubtWith(readers), OpenReader(r, 0), InDoubtWith(readers[r := Reader(0, 1, {}, None)]), to);
  }

  lemma DoWrite(readers: map<nat, Reader>)
    requires 1 in readers && readers[1] == STALE
    ensures Does(Scene(TheRow(Unknown, Both(StepUnknown, StepUnknown)), map[], readers, Remote(map[], 1, 0)), WriteVerdict(1),
                 Scene(TheRow(Unknown, Both(StepUnknown, StepFailed)), map[], readers[1 := STALE.(verdict := None)], Remote(map[], 1, 0)))
  {
    hide WorkerStep, AdminStep, QueueStep, ClaimStep, OpenReaderStep, RecoverTx;
    assert Both(StepUnknown, StepUnknown)[WRITE := StepFailed] == Both(StepUnknown, StepFailed);
  }

  lemma DoReconcile(readers: map<nat, Reader>, r: Remote)
    ensures Does(Scene(TheRow(Unknown, Both(StepUnknown, StepFailed)), map[], readers, r), ReconcileRemote(0),
                 Scene(TheRow(NeedsAction, Both(StepFailed, StepFailed)), map[], readers, r))
  {
    hide WorkerStep, ReaderStep, QueueStep, ClaimStep, OpenReaderStep, RecoverTx;
    assert Both(StepUnknown, StepFailed)[Execute := StepFailed] == Both(StepFailed, StepFailed);
  }

  lemma RetriedRow()
    ensures var op := TheRow(NeedsAction, Both(StepFailed, StepFailed));
            MoveSteps(op, {StepFailed}, StepPending) == TheRow(NeedsAction, Both(StepPending, StepPending)) && !AnyInDoubt(op)
    ensures Acquire(map[], {}, 0) == map[]
  {
  }

  lemma RetryTxIs(j: Journal)
    requires j == Journal(map[0 := TheRow(NeedsAction, Both(StepFailed, StepFailed))], map[REQUEST := Saved(0, "d")], map[])
    ensures RetryRemoteTx(j, 0, [], true)
         == Done(Journal(map[0 := TheRow(Queued, Both(StepPending, StepPending))], map[REQUEST := Saved(0, "d")], map[]))
  {
    hide RetryKeys, Acquire, MoveSteps, AnyInDoubt;
    NoKeys();
    RetriedRow();
    assert HeldAgain(j.operations[0], Elements([])) == {};
  }

  lemma DoRetry(readers: map<nat, Reader>, r: Remote)
    ensures Does(Scene(TheRow(NeedsAction, Both(StepFailed, StepFailed)), map[], readers, r), RetryRemote(0, [], true),
                 Scene(TheRow(Queued, Both(StepPending, StepPending)), map[], readers, r))
  {
    hide RetryRemoteTx, WorkerStep, ReaderStep, QueueStep, ClaimStep, OpenReaderStep, RecoverTx;
    RetryTxIs(Scene(TheRow(NeedsAction, Both(StepFailed, StepFailed)), map[], readers, r).journal);
  }

  /** The call is made, happens or not, and no usable reply arrives. */
  lemma LostCall(readers: map<nat, Reader>, r: Remote, applied: bool, to: World)
    requires var after := if applied then r.(effects := r.effects[WRITE := Times(r, WRITE) + 1]) else r;
             Leads(Scene(TheRow(Running, Both(StepRunning, StepUnknown)), At(Finishing(OutcomeUnknown)), readers, after), to)
    ensures Leads(Scene(TheRow(Running, Both(StepRunning, StepPending)), At(Checked(WRITE)), readers, r), to)
  {
    hide Leads, Does;
    var after := if applied then r.(effects := r.effects[WRITE := Times(r, WRITE) + 1]) else r;
    var running := TheRow(Running, Both(StepRunning, StepRunning));
    DoMark(readers, r);
    DoCall(readers, r, applied);
    DoSave(readers, after);
    LeadsOn(Scene(running, At(Replied(WRITE, Untyped)), readers, after), SaveReply(0, true),
            Scene(TheRow(Running, Both(StepRunning, StepUnknown)), At(Finishing(OutcomeUnknown)), readers, after), to);
    LeadsOn(Scene(running, At(Marked(WRITE)), readers, r), Invoke(0, applied, Untyped),
            Scene(running, At(Replied(WRITE, Untyped)), readers, after), to);
    LeadsOn(Scene(TheRow(Running, Both(StepRunning, StepPending)), At(Checked(WRITE)), readers, r), Mark(0),
            Scene(running, At(Marked(WRITE)), readers, r), to);
  }

  /** Claimed, begun and checked. */
  lemma Started(steps: map<StepKey, StepStatus>, readers: map<nat, Reader>, r: Remote, to: World)
    requires Execute in steps && (WRITE !in steps || steps[WRITE] == StepPending) && steps.Keys <= {Execute, WRITE}
    requires Leads(Scene(TheRow(Running, Both(StepRunning, StepPending)), At(Checked(WRITE)), readers, r.(claims := r.claims + 1)), to)
    ensures Leads(Scene(TheRow(Queued, steps), map[], readers, r), to)
  {
    hide Leads, Does;
    var claimed := r.(claims := r.claims + 1);
    var begun := steps[Execute := StepRunning];
    DoClaim(steps, readers, r);
    DoBegin(steps, readers, claimed);
    DoCheck(begun, readers, claimed);
    assert begun[WRITE := StepPending] == Both(StepRunning, StepPending);
    LeadsOn(Scene(TheRow(Running, begun), At(Program), readers, claimed), Check(0, WRITE),
            Scene(TheRow(Running, Both(StepRunning, StepPending)), At(Checked(WRITE)), readers, claimed), to);
    LeadsOn(Scene(TheRow(Running, steps), At(Claimed), readers, claimed), Begin(0),
            Scene(TheRow(Running, begun), At(Program), readers, claimed), to);
    LeadsOn(Scene(TheRow(Queued, steps), map[], readers, r), Claim(0, 0), Scene(TheRow(Running, steps), At(Claimed), readers, claimed), to);
  }

  /** Reconcile 1 completes and the operation is queued again. */
  lemma Requeued(readers: map<nat, Reader>, to: World)
    requires 1 in readers && readers[1] == STALE
    requires Leads(Scene(TheRow(Queued, Both(StepPending, StepPending)), map[], readers[1 := STALE.(verdict := None)], Remote(map[], 1, 0)), to)
    ensures Leads(Scene(TheRow(Unknown, Both(StepUnknown, StepUnknown)), map[], readers, Remote(map[], 1, 0)), to)
  {
    hide Leads, Does;
    var r, after := Remote(map[], 1, 0), readers[1 := STALE.(verdict := None)];
    DoWrite(readers);
    DoReconcile(after, r);
    DoRetry(after, r);
    LeadsOn(Scene(TheRow(NeedsAction, Both(StepFailed, StepFailed)), map[], after, r), RetryRemote(0, [], true),
            Scene(TheRow(Queued, Both(StepPending, StepPending)), map[], after, r), to);
    LeadsOn(Scene(TheRow(Unknown, Both(StepUnknown, StepFailed)), map[], after, r), ReconcileRemote(0),
            Scene(TheRow(NeedsAction, Both(StepFailed, StepFailed)), map[], after, r), to);
    LeadsOn(Scene(TheRow(Unknown, Both(StepUnknown, StepUnknown)), map[], readers, r), WriteVerdict(1),
            Scene(TheRow(Unknown, Both(StepUnknown, StepFailed)), map[], after, r), to);
  }

  /** From the start to the unknown operation of a first, lost call. */
  lemma FirstLoss(to: World)
    requires Leads(Scene(TheRow(Unknown, Both(StepUnknown, StepUnknown)), map[], map[], Remote(map[], 1, 0)), to)
    ensures Leads(START, to)
  {
    hide Leads, Does;
    var r := Remote(map[], 1, 0);
    var op := TheRow(Running, Both(StepRunning, StepUnknown));
    DoFinish(r);
    DoSeal(r);
    LeadsOn(Scene(op, At(Sealing(Unknown)), map[], r), Seal(0), Scene(TheRow(Unknown, Both(StepUnknown, StepUnknown)), map[], map[], r), to);
    LeadsOn(Scene(op, At(Finishing(OutcomeUnknown)), map[], r), Conclude(0, false), Scene(op, At(Sealing(Unknown)), map[], r), to);
    LostCall(map[], r, false, to);
    Started(map[Execute := StepPending], map[], Remote(map[], 0, 0), to);
    DoQueue();
    LeadsOn(START, Queue(REQUEST, "d", 0, Plain(0, 0, []), true),
            Scene(TheRow(Queued, map[Execute := StepPending]), map[], map[], Remote(map[], 0, 0)), to);
  }

  /** The readers after the second reconcile has saved its verdict. */
  function OneStale(): map<nat, Reader> {
    map[0 := STALE, 1 := STALE.(verdict := None)]
  }

  function Danger(): World {
    Scene(TheRow(Running, Both(StepRunning, StepUnknown)), At(Finishing(OutcomeUnknown)), OneStale(), Remote(map[WRITE := 1], 2, 0))
  }

  lemma DangerHere()
    ensures Dangerous(Danger(), 0)
  {
  }

  lemma SecondLoss(to: World)
    requires Leads(Danger(), to)
    ensures Leads(Scene(TheRow(Queued, Both(StepPending, StepPending)), map[], OneStale(), Remote(map[], 1, 0)), to)
  {
    hide Leads, Does, OneStale;
    LostCall(OneStale(), Remote(map[], 2, 0), true, to);
    Started(Both(StepPending, StepPending), OneStale(), Remote(map[], 1, 0), to);
  }

  /** The second call happened, its reply was lost, and reconcile 0 still holds
      the verdict it read before the retry. */
  lemma DangerIsReachable() returns (w: World)
    ensures Leads(START, w) && Dangerous(w, 0)
  {
    hide Leads, Dangerous, Does, Scene, TheRow, Both, At;
    w := Danger();
    DangerHere();
    LeadsHere(w);
    SecondLoss(w);
    var pair := map[0 := STALE][1 := STALE];
    assert pair[1 := STALE.(verdict := None)] == OneStale();
    Requeued(pair, w);
    ReadNotDone(1, map[0 := STALE], w);
    assert map[][0 := STALE] == map[0 := STALE];
    ReadNotDone(0, map[], w);
    FirstLoss(w);
  }

  ghost predicate CanDoubleStale(w: World) {
    exists es :: TruthfulRun(w, es) && !AtMostOnce(Run(w, es))
  }

  lemma {:induction false} StaleRun(w: World, es: seq<Event>, to: World)
    requires TruthfulRun(w, es) && Run(w, es) == to && CanDoubleStale(to)
    ensures CanDoubleStale(w)
    decreases |es|
  {
    hide Step, Truthful, AtMostOnce;
    if es != [] {
      StaleRun(Step(w, es[0]), es[1..], to);
      var rest :| TruthfulRun(Step(w, es[0]), rest) && !AtMostOnce(Run(Step(w, es[0]), rest));
      var all := [es[0]] + rest;
      assert all[1..] == rest;
      assert TruthfulRun(w, all) && Run(w, all) == Run(Step(w, es[0]), rest);
    }
  }

  /** So truthful providers alone do not give at-most-once: two overlapping
      reconciles of one operation, a retry and a lost reply are enough. */
  lemma StaleReconcileDoubles()
    ensures exists es :: TruthfulRun(START, es) && !AtMostOnce(Run(START, es))
  {
    hide Step, Truthful, Fresh, AtMostOnce, Sound, Dangerous;
    var w := DangerIsReachable();
    var es :| TruthfulRun(START, es) && FreshRun(START, es) && Run(START, es) == w;
    StartSound(false);
    FreshRunCareful(false, START, es);
    RunSound(false, START, es);
    DangerousDoubles(w, 0);
    var w1 := Step(w, WriteVerdict(0));
    var to :| Leads(w1, to) && !AtMostOnce(to);
    var more :| TruthfulRun(w1, more) && FreshRun(w1, more) && Run(w1, more) == to;
    var all := [WriteVerdict(0)] + more;
    assert all[1..] == more;
    assert Truthful(w, WriteVerdict(0)) by { WritesAreTruthful(w); }
    assert TruthfulRun(w, all) && !AtMostOnce(Run(w, all));
    StaleRun(START, es, w);
  }

  lemma WritesAreTruthful(w: World)
    ensures Truthful(w, WriteVerdict(0))
  {
  }
}
