/** What every reachable state of the operation tables satisfies, whatever the
    providers answer and however late a reconcile writes. */
module OperationInvariants {

  import opened Wrappers
  import opened Text
  import opened Operations
  import opened OperationRuns

  // ----- one row --------------------------------------------------------------

  /** A local transaction of this operation has recorded something. */
  ghost predicate HasRecord(op: Operation) {
    exists k | k in op.steps :: k.LocalStep? && op.steps[k] == StepSucceeded
  }

  ghost predicate RowOk(op: Operation) {
    && Execute in op.steps
    // nothing is in doubt outside running and unknown, and at most one remote write is
    && (op.status !in {Running, Unknown} ==> !AnyInDoubt(op))
    && (forall k | k in op.steps && k != Execute && InDoubt(op.steps[k]) :: k.RemoteStep? && !InDoubtBesides(op, k))
    // failed means that no effect is recorded
    && (op.status == Failed ==> !HasEffects(op))
    // the request is kept exactly while the operation may still be run
    && (op.sealed <==> op.status !in {Succeeded, Cancelled})
    && (op.payload.Local? ==> op.steps.Keys == {Execute})
    && (forall k | k in op.steps && k.LocalStep? :: op.steps[k] == StepSucceeded || (k == PROCESSING && op.steps[k] == StepPending))
    && (op.payload.Planned? ==> PREPARE in op.steps)
    && (forall k | k in op.steps && k.RemoteStep? && op.steps[k] == StepReported :: op.status == Cancelled)
    && ExecuteOk(op.status, op.steps[Execute])
  }

  predicate ExecuteOk(s: Status, x: StepStatus) {
    match s
    case Queued => x == StepPending
    case Running => x == StepPending || x == StepRunning
    case Succeeded => x == StepSucceeded
    case Failed => x == StepFailed || x == StepPending
    case Unknown => x == StepUnknown || x == StepPending
    case NeedsAction => x == StepFailed
    case Cancelled => x == StepPending || x == StepFailed
  }

  predicate Executing(op: Operation) {
    Execute in op.steps && op.steps[Execute] == StepRunning
  }

  /** What a worker's position says about its operation's row. */
  ghost predicate WorkerOk(op: Operation, phase: Phase) {
    match phase
    case Claimed => op.status == Running && !InDoubtBesides(op, Execute)
    case Program => op.status == Running && !InDoubtBesides(op, Execute) && Executing(op)
    case Checked(k) =>
      && op.status == Running && !InDoubtBesides(op, Execute) && Executing(op)
      && !op.payload.Local? && k.RemoteStep? && k in op.steps && op.steps[k] in {StepPending, StepFailed}
    case Marked(k) => OnlyDoubt(op, k)
    case Replied(k, _) => OnlyDoubt(op, k)
    case Finishing(err) =>
      || op.status == Succeeded
      || (op.status == Running && (err.OutcomeUnknown? || !InDoubtBesides(op, Execute)))
    case Sealing(s) =>
      && op.status == Running && s in {Succeeded, Failed, Unknown, NeedsAction}
      && (s == Unknown || !InDoubtBesides(op, Execute))
      && (s == Failed ==> !HasEffects(op))
  }

  ghost predicate OnlyDoubt(op: Operation, k: StepKey) {
    && op.status == Running && Executing(op)
    && !op.payload.Local? && k.RemoteStep? && k in op.steps && !InDoubtBesides(op, k)
    && op.steps[k] in {StepRunning, StepSucceeded, StepFailed}
  }

  /** At least the recomputed keys are held; others than those and the caller's only
      once it recorded something. */
  ghost predicate KeysOk(op: Operation) {
    && RecomputedKeys(op.payload) <= op.held
    && (op.held == QueuedKeys(op.payload) || op.held == RecomputedKeys(op.payload) || HasRecord(op))
  }

  /** How a move may change what `KeysOk` looks at. */
  ghost predicate Kept(op: Operation, next: Operation) {
    && next.payload == op.payload && op.held <= next.held
    && (HasRecord(op) ==> HasRecord(next))
    && (next.held == op.held || HasRecord(next))
  }

  /** How a retry from failed does: only what it recomputed is held. */
  ghost predicate Restarted(op: Operation, next: Operation) {
    next.payload == op.payload && next.held == RecomputedKeys(op.payload)
  }

  lemma KeptKeys(op: Operation, next: Operation)
    requires KeysOk(op) && (Kept(op, next) || Restarted(op, next))
    ensures KeysOk(next)
  {
    hide QueuedKeys, RecomputedKeys;
  }

  // ----- locks ----------------------------------------------------------------

  /** A live operation owns all its keys; nobody else owns any. */
  ghost predicate LocksOk(j: Journal) {
    && (forall k | k in j.locks ::
          j.locks[k] in j.operations && Live(j.operations[j.locks[k]].status) && k in j.operations[j.locks[k]].held)
    && (forall id, k | id in j.operations && k in j.operations[id].held && Live(j.operations[id].status) ::
          k in j.locks && j.locks[k] == id)
  }

  lemma ReleaseKeeps(j: Journal, id: OpId, op: Operation)
    requires LocksOk(j) && !Live(op.status)
    ensures LocksOk(Journal(j.operations[id := op], j.requests, Release(j.locks, id)))
  {
  }

  lemma AcquireKeeps(j: Journal, id: OpId, op: Operation, keys: set<Key>)
    requires LocksOk(j) && Live(op.status)
    requires forall k | k in keys && k in j.locks :: j.locks[k] == id
    requires op.held == if id in j.operations && Live(j.operations[id].status) then j.operations[id].held + keys else keys
    ensures LocksOk(Journal(j.operations[id := op], j.requests, Acquire(j.locks, keys, id)))
  {
  }

  lemma LocksAlone(j: Journal, requests: map<RequestKey, Saved>)
    requires LocksOk(j)
    ensures LocksOk(j.(requests := requests))
  {
  }

  lemma SameKeysKeep(j: Journal, id: OpId, op: Operation)
    requires LocksOk(j) && id in j.operations
    requires Live(op.status) <==> Live(j.operations[id].status)
    requires op.held == j.operations[id].held
    ensures LocksOk(PutRow(j, id, op))
  {
  }

  // ----- the whole state ------------------------------------------------------

  ghost predicate RequestsOk(j: Journal) {
    && (forall rk | rk in j.requests :: j.requests[rk].id in j.operations)
    && (forall a, b | a in j.requests && b in j.requests && j.requests[a].id == j.requests[b].id :: a == b)
  }

  ghost predicate RowsOk(w: World) {
    && w.remotes.Keys == w.journal.operations.Keys
    && (forall id | id in w.journal.operations :: RowOk(w.journal.operations[id]) && KeysOk(w.journal.operations[id]))
    && (forall id | id in w.remotes ::
          w.remotes[id].committed <= 1 && (w.remotes[id].committed == 1 ==> w.journal.operations[id].status == Succeeded))
  }

  ghost predicate WorkersOk(w: World) {
    && (forall n | n in w.workers ::
          w.workers[n].op in w.journal.operations && WorkerOk(w.journal.operations[w.workers[n].op], w.workers[n].phase))
    && (forall a, b | a in w.workers && b in w.workers && a != b :: w.workers[a].op != w.workers[b].op)
  }

  ghost predicate Idle(w: World, id: OpId) {
    forall n | n in w.workers :: w.workers[n].op != id
  }

  /** A reconcile whose operation was not claimed since it began has it to itself. */
  ghost predicate ReadersOk(w: World) {
    forall r | r in w.readers ::
      && w.readers[r].op in w.remotes
      && (forall k | k in w.readers[r].todo :: k != Execute)
      && (w.readers[r].verdict.Some? ==> w.readers[r].verdict.value.key.RemoteStep?)
      && w.readers[r].claims <= w.remotes[w.readers[r].op].claims
      && (w.readers[r].claims == w.remotes[w.readers[r].op].claims ==> Idle(w, w.readers[r].op))
  }

  ghost predicate Structure(w: World) {
    RowsOk(w) && WorkersOk(w) && ReadersOk(w) && LocksOk(w.journal) && RequestsOk(w.journal)
  }

  lemma WorkerFacts(w: World, n: nat)
    requires Structure(w) && WorkerAt(w, n)
    ensures RowOk(Row(w, w.workers[n].op)) && WorkerOk(Row(w, w.workers[n].op), w.workers[n].phase)
    ensures var id := w.workers[n].op;
            w.remotes[id].committed <= 1 && (w.remotes[id].committed == 1 ==> Row(w, id).status == Succeeded)
  {
    hide RowOk, WorkerOk, LocksOk, KeysOk;
  }

  // ----- worker moves, row by row ---------------------------------------------

  lemma BeginRow(op: Operation)
    requires RowOk(op) && WorkerOk(op, Claimed)
    ensures RowOk(BeginExecute(op)) && WorkerOk(BeginExecute(op), Program)
    ensures Kept(op, BeginExecute(op))
  {
  }

  lemma CheckRow(op: Operation, k: StepKey)
    requires RowOk(op) && WorkerOk(op, Program) && k.RemoteStep? && !op.payload.Local?
    ensures var (next, found) := CheckStep(op, k);
            RowOk(next) && (found == Ready ==> WorkerOk(next, Checked(k))) && found != Doubtful
    ensures Kept(op, CheckStep(op, k).0)
  {
  }

  lemma MarkRow(op: Operation, k: StepKey)
    requires RowOk(op) && WorkerOk(op, Checked(k))
    ensures RowOk(SetStep(op, k, StepRunning)) && WorkerOk(SetStep(op, k, StepRunning), Marked(k))
    ensures Kept(op, SetStep(op, k, StepRunning))
  {
  }

  lemma ReplyRow(op: Operation, k: StepKey, err: RunError)
    requires RowOk(op) && WorkerOk(op, Replied(k, err))
    ensures WorkerOk(op, Finishing(OutcomeUnknown))
    ensures var next := SetStep(op, k, ReplyStatus(err));
            RowOk(next) && WorkerOk(next, if ReplyStatus(err) == StepUnknown then Finishing(OutcomeUnknown) else Program)
    ensures Kept(op, SetStep(op, k, ReplyStatus(err)))
  {
  }

  lemma RecordRow(op: Operation, k: StepKey)
    requires RowOk(op) && WorkerOk(op, Program) && (k.LocalStep? || k.SievePrepare?) && !op.payload.Local?
    ensures RowOk(RecordStep(op, k)) && WorkerOk(RecordStep(op, k), Program)
    ensures Kept(op, RecordStep(op, k))
  {
  }

  lemma RecordMade(op: Operation, k: StepKey)
    requires RowOk(op) && k.LocalStep?
    ensures HasRecord(RecordStep(op, k))
  {
    assert RecordStep(op, k).steps[k] == StepSucceeded;
  }

  lemma ExternalRow(op: Operation, k: StepKey)
    requires RowOk(op) && WorkerOk(op, Program) && k.ExternalStep? && !op.payload.Local?
    ensures RowOk(InsertStep(op, k, StepPending)) && WorkerOk(InsertStep(op, k, StepPending), Program)
    ensures Kept(op, InsertStep(op, k, StepPending))
  {
  }

  lemma HeldRow(op: Operation, held: set<Key>, phase: Phase)
    requires RowOk(op) && WorkerOk(op, phase)
    requires HasRecord(op) && op.held <= held
    ensures RowOk(op.(held := held)) && WorkerOk(op.(held := held), phase)
    ensures Kept(op, op.(held := held))
  {
    assert forall k :: InDoubtBesides(op, k) <==> InDoubtBesides(op.(held := held), k);
  }

  lemma CommitRow(op: Operation)
    requires RowOk(op) && WorkerOk(op, Program)
    ensures var next := MoveSteps(op, {StepRunning}, StepSucceeded).(status := Succeeded, sealed := false);
            RowOk(next) && WorkerOk(next, Finishing(NoError))
    ensures Kept(op, MoveSteps(op, {StepRunning}, StepSucceeded).(status := Succeeded, sealed := false))
  {
  }

  lemma ConcludeRow(op: Operation, err: RunError, interrupted: bool)
    requires WorkerOk(op, Finishing(err)) && op.status == Running
    ensures WorkerOk(op, Sealing(Classify(op, err, interrupted)))
  {
  }

  function SealedRow(op: Operation, s: Status): Operation {
    SetStep(op, Execute, ExecuteStatus(s)).(status := s, sealed := op.sealed && s != Succeeded)
  }

  lemma SealRow(op: Operation, s: Status)
    requires RowOk(op) && WorkerOk(op, Sealing(s))
    ensures RowOk(SealedRow(op, s))
    ensures Kept(op, SealedRow(op, s))
  {
    var next := SealedRow(op, s);
    assert forall k | k in next.steps && k != Execute :: k in op.steps && next.steps[k] == op.steps[k];
  }

  // ----- worker moves ---------------------------------------------------------

  /** The one shape of every worker move: its row, the locks, its own phase (none
      when it is done) and its operation's remote record. */
  function Place(w: World, n: nat, op: Operation, locks: map<Key, OpId>, phase: Option<Phase>, remote: Remote): World
    requires WorkerAt(w, n)
  {
    var id := w.workers[n].op;
    World(Journal(w.journal.operations[id := op], w.journal.requests, locks),
          if phase.None? then w.workers - {n} else w.workers[n := Worker(id, phase.value)],
          w.readers, w.remotes[id := remote])
  }

  lemma PlaceKeeps(w: World, n: nat, op: Operation, locks: map<Key, OpId>, phase: Option<Phase>, remote: Remote)
    requires Structure(w) && WorkerAt(w, n)
    requires RowOk(op) && Kept(Row(w, w.workers[n].op), op) && (phase.Some? ==> WorkerOk(op, phase.value))
    requires LocksOk(Place(w, n, op, locks, phase, remote).journal)
    requires remote.claims == w.remotes[w.workers[n].op].claims
    requires remote.committed <= 1 && (remote.committed == 1 ==> op.status == Succeeded)
    ensures Structure(Place(w, n, op, locks, phase, remote))
  {
    hide RowOk, WorkerOk, LocksOk, KeysOk, Kept, RowsOk, WorkersOk, ReadersOk, RequestsOk, Place;
    PlacedRows(w, n, op, locks, phase, remote);
    PlacedOthers(w, n, op, locks, phase, remote);
  }

  lemma PlacedRows(w: World, n: nat, op: Operation, locks: map<Key, OpId>, phase: Option<Phase>, remote: Remote)
    requires RowsOk(w) && WorkerAt(w, n) && RowOk(op) && Kept(Row(w, w.workers[n].op), op)
    requires remote.committed <= 1 && (remote.committed == 1 ==> op.status == Succeeded)
    ensures RowsOk(Place(w, n, op, locks, phase, remote))
  {
    hide RowOk, KeysOk, Kept;
    KeptKeys(Row(w, w.workers[n].op), op);
  }

  lemma PlacedOthers(w: World, n: nat, op: Operation, locks: map<Key, OpId>, phase: Option<Phase>, remote: Remote)
    requires WorkersOk(w) && ReadersOk(w) && RequestsOk(w.journal) && WorkerAt(w, n)
    requires phase.Some? ==> WorkerOk(op, phase.value)
    requires remote.claims == w.remotes[w.workers[n].op].claims
    requires Kept(Row(w, w.workers[n].op), op)
    ensures var w' := Place(w, n, op, locks, phase, remote); WorkersOk(w') && ReadersOk(w') && RequestsOk(w'.journal)
  {
    hide WorkerOk;
  }

  /** A move within the row, which stays live with the same keys. */
  lemma AdvanceKeeps(w: World, n: nat, op: Operation, phase: Phase)
    requires Structure(w) && WorkerAt(w, n)
    requires op.held == Row(w, w.workers[n].op).held && op.status == Row(w, w.workers[n].op).status
    requires RowOk(op) && Kept(Row(w, w.workers[n].op), op) && WorkerOk(op, phase)
    ensures Structure(Advance(w, n, op, phase))
  {
    hide RowOk, WorkerOk, LocksOk, KeysOk, Kept;
    var id := w.workers[n].op;
    SameKeysKeep(w.journal, id, op);
    assert w.remotes[id := w.remotes[id]] == w.remotes;
    PlaceKeeps(w, n, op, w.journal.locks, Some(phase), w.remotes[id]);
  }

  lemma JournalMoveKeeps(w: World, e: Event)
    requires Structure(w) && JournalMove(e) && WorkerAt(w, e.worker)
    ensures Structure(WorkerStep(w, e))
  {
    hide Structure, RowOk;
    var n := e.worker;
    var id := w.workers[n].op;
    var op, phase := Row(w, id), w.workers[n].phase;
    WorkerFacts(w, n);
    match e
    case Begin(_) =>
      if phase.Claimed? { BeginRow(op); AdvanceKeeps(w, n, BeginExecute(op), Program); }
    case Check(_, k) =>
      if phase.Program? && k.RemoteStep? && !op.payload.Local? {
        CheckRow(op, k);
        var (next, found) := CheckStep(op, k);
        if found == Ready { AdvanceKeeps(w, n, next, Checked(k)); }
      }
    case Refuse(_) => if phase.Checked? { AdvanceKeeps(w, n, op, Program); }
    case Mark(_) =>
      if phase.Checked? {
        MarkRow(op, phase.key);
        AdvanceKeeps(w, n, SetStep(op, phase.key, StepRunning), Marked(phase.key));
      }
    case Invoke(_, applied, err) => if phase.Marked? { InvokeKeeps(w, n, applied, err); }
    case SaveReply(_, saved) =>
      if phase.Replied? {
        ReplyRow(op, phase.key, phase.err);
        var s := ReplyStatus(phase.err);
        if !saved { AdvanceKeeps(w, n, op, Finishing(OutcomeUnknown)); }
        else { AdvanceKeeps(w, n, SetStep(op, phase.key, s), if s == StepUnknown then Finishing(OutcomeUnknown) else Program); }
      }
  }

  lemma InvokeKeeps(w: World, n: nat, applied: bool, err: RunError)
    requires Structure(w) && WorkerAt(w, n) && w.workers[n].phase.Marked?
    ensures Structure(WorkerStep(w, Invoke(n, applied, err)))
  {
    hide RowOk, LocksOk, RowsOk, WorkersOk, ReadersOk, RequestsOk, KeysOk;
    var id := w.workers[n].op;
    var op, k, remote := Row(w, id), w.workers[n].phase.key, w.remotes[id];
    WorkerFacts(w, n);
    var after := if applied then remote.(effects := remote.effects[k := Times(remote, k) + 1]) else remote;
    SameKeysKeep(w.journal, id, op);
    PlaceKeeps(w, n, op, w.journal.locks, Some(Replied(k, err)), after);
  }

  lemma ProgramMoveKeeps(w: World, e: Event)
    requires Structure(w) && ProgramMove(e) && WorkerAt(w, e.worker)
    ensures Structure(WorkerStep(w, e))
  {
    hide Structure, RowOk;
    var n := e.worker;
    var op, phase := Row(w, w.workers[n].op), w.workers[n].phase;
    WorkerFacts(w, n);
    match e
    case Record(_, k) =>
      if phase.Program? && (k.LocalStep? || k.SievePrepare?) && !op.payload.Local? {
        RecordRow(op, k);
        AdvanceKeeps(w, n, RecordStep(op, k), Program);
      }
    case CommitPart(_, k, mailbox) =>
      if phase.Program? && k.LocalStep? && !op.payload.Local? { CommitPartKeeps(w, n, k, mailbox); }
    case AwaitExternal(_, k) =>
      if phase.Program? && k.ExternalStep? && !op.payload.Local? {
        ExternalRow(op, k);
        AdvanceKeeps(w, n, InsertStep(op, k, StepPending), Program);
      }
    case CommitAll(_) => if phase.Program? { CommitAllKeeps(w, n); }
    case Return(_, err) => if phase.Program? { AdvanceKeeps(w, n, op, Finishing(err)); }
    case Conclude(_, interrupted) =>
      if phase.Finishing? { ConcludeKeeps(w, n, interrupted); }
    case Seal(_) => if phase.Sealing? { SealKeeps(w, n); }
  }

  lemma ConcludeKeeps(w: World, n: nat, interrupted: bool)
    requires Structure(w) && WorkerAt(w, n) && w.workers[n].phase.Finishing?
    ensures Structure(WorkerStep(w, Conclude(n, interrupted)))
  {
    hide RowOk, LocksOk, KeysOk;
    var op, phase := Row(w, w.workers[n].op), w.workers[n].phase;
    WorkerFacts(w, n);
    if op.status == Running {
      ConcludeRow(op, phase.err, interrupted);
      AdvanceKeeps(w, n, op, Sealing(Classify(op, phase.err, interrupted)));
    } else {
      hide WorkerOk;
      assert Structure(Retire(w, n));
    }
  }

  lemma CommitPartKeeps(w: World, n: nat, k: StepKey, mailbox: Option<Key>)
    requires Structure(w) && WorkerAt(w, n) && w.workers[n].phase.Program? && k.LocalStep?
    requires !Row(w, w.workers[n].op).payload.Local?
    ensures Structure(WorkerStep(w, CommitPart(n, k, mailbox)))
  {
    hide RowOk, LocksOk, RowsOk, WorkersOk, ReadersOk, RequestsOk, KeysOk;
    var id := w.workers[n].op;
    var op := Row(w, id);
    WorkerFacts(w, n);
    RecordRow(op, k);
    var next := RecordStep(op, k);
    assert w.workers[n := Worker(id, Program)] == w.workers && w.remotes[id := w.remotes[id]] == w.remotes;
    if mailbox.Some? {
      if FirstOther(w.journal.locks, [mailbox.value], id).None? {
        assert HasRecord(next) by { RecordMade(op, k); }
        HeldRow(next, op.held + {mailbox.value}, Program);
        var locked := next.(held := op.held + {mailbox.value});
        assert mailbox.value in [mailbox.value];
        AcquireKeeps(w.journal, id, locked, {mailbox.value});
        PlaceKeeps(w, n, locked, Acquire(w.journal.locks, {mailbox.value}, id), Some(Program), w.remotes[id]);
      }
    } else {
      SameKeysKeep(w.journal, id, next);
      PlaceKeeps(w, n, next, w.journal.locks, Some(Program), w.remotes[id]);
    }
  }

  lemma CommitAllIs(w: World, n: nat)
    requires WorkerAt(w, n) && w.workers[n].phase.Program? && Row(w, w.workers[n].op).status == Running
    ensures var id := w.workers[n].op;
            var next := MoveSteps(Row(w, id), {StepRunning}, StepSucceeded).(status := Succeeded, sealed := false);
            WorkerStep(w, CommitAll(n))
            == Place(w, n, next, Release(w.journal.locks, id), Some(Finishing(NoError)), w.remotes[id].(committed := w.remotes[id].committed + 1))
  {
    hide MoveSteps, Release;
  }

  lemma CommitAllKeeps(w: World, n: nat)
    requires Structure(w) && WorkerAt(w, n) && w.workers[n].phase.Program?
    ensures Structure(WorkerStep(w, CommitAll(n)))
  {
    hide RowOk, LocksOk, KeysOk, RowsOk, WorkersOk, ReadersOk, RequestsOk, WorkerStep, MoveSteps, Release, Kept;
    var id := w.workers[n].op;
    var op, remote := Row(w, id), w.remotes[id];
    WorkerFacts(w, n);
    CommitRow(op);
    CommitAllIs(w, n);
    var next := MoveSteps(op, {StepRunning}, StepSucceeded).(status := Succeeded, sealed := false);
    ReleaseKeeps(w.journal, id, next);
    PlaceKeeps(w, n, next, Release(w.journal.locks, id), Some(Finishing(NoError)), remote.(committed := remote.committed + 1));
  }

  lemma SealKeeps(w: World, n: nat)
    requires Structure(w) && WorkerAt(w, n) && w.workers[n].phase.Sealing?
    ensures Structure(WorkerStep(w, Seal(n)))
  {
    hide RowOk, LocksOk, KeysOk;
    var id := w.workers[n].op;
    var op, s := Row(w, id), w.workers[n].phase.status;
    WorkerFacts(w, n);
    SealRow(op, s);
    var next := SealedRow(op, s);
    if Live(s) { SameKeysKeep(w.journal, id, next); } else { ReleaseKeeps(w.journal, id, next); }
    assert w.remotes[id := w.remotes[id]] == w.remotes;
    PlaceKeeps(w, n, next, FinishTx(w.journal, id, s).locks, None, w.remotes[id]);
  }

  // ----- administrators -------------------------------------------------------

  /** The shape of every administrator's transaction. */
  lemma SettleKeeps(w: World, id: OpId, op: Operation, locks: map<Key, OpId>)
    requires Structure(w) && id in w.journal.operations && Row(w, id).status !in {Running, Succeeded}
    requires RowOk(op) && (Kept(Row(w, id), op) || Restarted(Row(w, id), op))
    requires LocksOk(Journal(w.journal.operations[id := op], w.journal.requests, locks))
    ensures Structure(w.(journal := Journal(w.journal.operations[id := op], w.journal.requests, locks)))
  {
    hide RowOk, LocksOk, KeysOk, Kept, Restarted;
    KeptKeys(Row(w, id), op);
    forall n | n in w.workers ensures w.workers[n].op != id {
      WorkerFacts(w, n);
    }
  }

  lemma CloseKeeps(w: World, id: OpId, op: Operation)
    requires Structure(w) && id in w.journal.operations && Row(w, id).status !in {Running, Succeeded}
    requires RowOk(op) && Kept(Row(w, id), op) && !Live(op.status)
    ensures Structure(Apply(w, CloseRow(w.journal, id, op)))
  {
    hide RowOk, RowsOk, WorkersOk, ReadersOk, LocksOk, KeysOk, Kept, RequestsOk;
    ReleaseKeeps(w.journal, id, op);
    SettleKeeps(w, id, op, Release(w.journal.locks, id));
  }

  lemma CancelRow(op: Operation)
    requires RowOk(op) && op.status in {Queued, Failed, NeedsAction}
    ensures RowOk(op.(status := Cancelled, sealed := false)) && Kept(op, op.(status := Cancelled, sealed := false))
  {
  }

  lemma ReconciledRow(op: Operation)
    requires RowOk(op) && op.status == Unknown && !InDoubtBesides(op, Execute) && !op.payload.Local?
    ensures var next := SetStep(op, Execute, StepFailed).(status := NeedsAction); RowOk(next) && Kept(op, next)
  {
    var next := SetStep(op, Execute, StepFailed).(status := NeedsAction);
    assert forall k | k in next.steps && k != Execute :: k in op.steps && next.steps[k] == op.steps[k];
  }

  lemma ReconciledLocalRow(op: Operation)
    requires RowOk(op) && op.status == Unknown && op.payload.Local?
    ensures var next := MoveSteps(op, {StepUnknown}, StepFailed).(status := Failed); RowOk(next) && Kept(op, next)
  {
  }

  lemma CleanedRow(op: Operation, k: StepKey)
    requires RowOk(op) && op.status == Unknown && k.RemoteStep? && k in op.steps && op.steps[k] == StepUnknown
    ensures var next := SetStep(SetStep(op, k, StepReported), Execute, StepFailed).(status := Cancelled, sealed := false);
            RowOk(next) && Kept(op, next)
  {
    var next := SetStep(SetStep(op, k, StepReported), Execute, StepFailed).(status := Cancelled, sealed := false);
    assert forall x | x in next.steps && x != Execute && x != k :: x in op.steps && next.steps[x] == op.steps[x];
    assert !InDoubtBesides(op, k);
  }

  /** The row a retry leaves, apart from its keys. */
  lemma RetryRow(op: Operation, from: set<StepStatus>, held: set<Key>)
    requires RowOk(op) && op.status in {Failed, NeedsAction}
    requires from == {StepFailed} || (from == {StepFailed, StepPending} && op.payload.Local?)
    requires from == {StepFailed} ==> !op.payload.Local?
    ensures var next := MoveSteps(op, from, StepPending).(status := Queued, held := held);
            RowOk(next) && (op.held <= held && (held == op.held || HasRecord(op)) ==> Kept(op, next))
  {
    var next := MoveSteps(op, from, StepPending).(status := Queued, held := held);
    assert next.steps.Keys == op.steps.Keys;
  }

  /** A retry locks what it can recompute: from `failed`, exactly that. */
  lemma RetryHolds(op: Operation, planKeys: seq<Key>)
    requires RowOk(op) && KeysOk(op) && op.status in {Failed, NeedsAction}
    ensures op.status == Failed ==> !op.payload.Planned? && !HasRecord(op) && Elements(RetryKeys(op.payload, planKeys)) == RecomputedKeys(op.payload)
    ensures Elements(RetryKeys(op.payload, planKeys)) <= op.held || HasRecord(op)
  {
    hide QueuedKeys, RetryKeys;
    if op.payload.Planned? {
      assert HasRecord(op) by { assert op.steps[PREPARE] == StepSucceeded; }
      assert HasEffects(op);
    } else {
      RetryKeysMatch(op.payload, planKeys);
      if HasRecord(op) { assert HasEffects(op); }
    }
  }

  lemma ConfirmedRow(op: Operation, items: seq<StepKey>)
    requires RowOk(op) && op.status == NeedsAction && !AnyInDoubt(op) && Confirmable(op, items)
    ensures var next := ReportAll(op, items); RowOk(next) && Kept(op, next)
    ensures var next := SetStep(ReportAll(op, items), Execute, StepSucceeded).(status := Succeeded, sealed := false);
            RowOk(next) && Kept(op, next)
  {
    var next := ReportAll(op, items);
    assert forall k | k in op.steps :: next.steps[k] == op.steps[k] || (k.ExternalStep? && next.steps[k] == StepReported);
    assert next.steps.Keys == op.steps.Keys;
    var done := SetStep(next, Execute, StepSucceeded);
    assert forall k | k in op.steps && k != Execute :: done.steps[k] == next.steps[k];
    assert done.steps.Keys == op.steps.Keys;
  }

  lemma RowFacts(w: World, id: OpId)
    requires Structure(w) && id in w.journal.operations
    ensures RowOk(Row(w, id)) && KeysOk(Row(w, id)) && LocksOk(w.journal) && id in w.remotes
    ensures w.remotes[id].committed <= 1 && (w.remotes[id].committed == 1 ==> Row(w, id).status == Succeeded)
  {
    hide RowOk, KeysOk, LocksOk, WorkersOk, ReadersOk, RequestsOk;
  }

  lemma RetryKeeps(w: World, id: OpId, planKeys: seq<Key>, from: set<StepStatus>)
    requires Structure(w) && id in w.journal.operations
    requires Row(w, id).status in {Failed, NeedsAction}
    requires from == (if Row(w, id).payload.Local? then {StepFailed, StepPending} else {StepFailed})
    requires var op := Row(w, id); FirstOther(w.journal.locks, RetryKeys(op.payload, planKeys), id).None?
    ensures var op := Row(w, id);
            var keys := Elements(RetryKeys(op.payload, planKeys));
            var next := MoveSteps(op, from, StepPending).(status := Queued, held := HeldAgain(op, keys));
            Structure(w.(journal := Journal(w.journal.operations[id := next], w.journal.requests, Acquire(w.journal.locks, keys, id))))
  {
    hide RowOk, KeysOk, LocksOk, RetryKeys, Structure, Kept, MoveSteps, HasRecord, RecomputedKeys;
    var op := Row(w, id);
    RowFacts(w, id);
    RetryHolds(op, planKeys);
    RetryPlaced(w, id, Elements(RetryKeys(op.payload, planKeys)), from);
  }

  lemma RetryPlaced(w: World, id: OpId, keys: set<Key>, from: set<StepStatus>)
    requires Structure(w) && id in w.journal.operations
    requires var op := Row(w, id);
             && op.status in {Failed, NeedsAction} && (op.status == Failed ==> keys == RecomputedKeys(op.payload))
             && (keys <= op.held || HasRecord(op))
    requires forall k | k in keys && k in w.journal.locks :: w.journal.locks[k] == id
    requires from == (if Row(w, id).payload.Local? then {StepFailed, StepPending} else {StepFailed})
    ensures var op := Row(w, id);
            var next := MoveSteps(op, from, StepPending).(status := Queued, held := HeldAgain(op, keys));
            Structure(w.(journal := Journal(w.journal.operations[id := next], w.journal.requests, Acquire(w.journal.locks, keys, id))))
  {
    hide RowOk, KeysOk, LocksOk, Structure, Kept, HasRecord, RecomputedKeys;
    RowFacts(w, id);
    var op := Row(w, id);
    if keys <= op.held { assert op.held + keys == op.held; }
    var next := MoveSteps(op, from, StepPending).(status := Queued, held := HeldAgain(op, keys));
    RetryRow(op, from, HeldAgain(op, keys));
    AcquireKeeps(w.journal, id, next, keys);
    SettleKeeps(w, id, next, Acquire(w.journal.locks, keys, id));
  }

  lemma AdminKeeps(w: World, e: Event)
    requires Structure(w) && AdminMove(e) && e.id in w.journal.operations
    ensures Structure(AdminStep(w, e))
  {
    hide Structure, RowOk, KeysOk, LocksOk, Kept, RetryKeys;
    var j, id := w.journal, e.id;
    var op := Row(w, id);
    RowFacts(w, id);
    match e
    case CancelRemote(_) =>
      if CancelRemoteTx(j, id).Done? { CancelRow(op); CloseKeeps(w, id, op.(status := Cancelled, sealed := false)); }
    case CancelLocal(_) =>
      if CancelLocalTx(j, id).Done? { CancelRow(op); CloseKeeps(w, id, op.(status := Cancelled, sealed := false)); }
    case ReconcileRemote(_) =>
      if ReconcileRemoteTx(j, id).Done? {
        ReconciledRow(op);
        var next := SetStep(op, Execute, StepFailed).(status := NeedsAction);
        SameKeysKeep(j, id, next);
        SettleKeeps(w, id, next, j.locks);
      }
    case ReconcileLocal(_) =>
      if ReconcileLocalTx(j, id).Done? {
        ReconciledLocalRow(op);
        CloseKeeps(w, id, MoveSteps(op, {StepUnknown}, StepFailed).(status := Failed));
      }
    case RetryRemote(_, planKeys, valid) =>
      if RetryRemoteTx(j, id, planKeys, valid).Done? { RetryKeeps(w, id, planKeys, {StepFailed}); }
    case RetryLocal(_, valid) =>
      if RetryLocalTx(j, id, valid).Done? { RetryKeeps(w, id, [], {StepFailed, StepPending}); }
    case Confirm(_, items, current) => ConfirmKeeps(w, id, items, current);
    case Cleanup(_, k, eligible) =>
      if CleanupTx(j, id, k, eligible).Done? {
        CleanedRow(op, k);
        CloseKeeps(w, id, SetStep(SetStep(op, k, StepReported), Execute, StepFailed).(status := Cancelled, sealed := false));
      }
  }

  lemma ConfirmKeeps(w: World, id: OpId, items: seq<StepKey>, current: bool)
    requires Structure(w) && id in w.journal.operations
    ensures Structure(Apply(w, ConfirmTx(w.journal, id, items, current)))
  {
    hide Structure, RowOk, KeysOk, LocksOk, Kept;
    var j, op := w.journal, Row(w, id);
    RowFacts(w, id);
    if ConfirmTx(j, id, items, current).Done? {
      ConfirmedRow(op, items);
      var next := ReportAll(op, items);
      if Settled(next) {
        CloseKeeps(w, id, SetStep(next, Execute, StepSucceeded).(status := Succeeded, sealed := false));
      } else {
        SameKeysKeep(j, id, next);
        SettleKeeps(w, id, next, j.locks);
      }
    }
  }

  // ----- reconcile reads and writes -------------------------------------------

  lemma VerdictRow(op: Operation, k: StepKey, done: bool)
    requires RowOk(op) && k.RemoteStep?
    ensures RowOk(SaveVerdict(op, k, done)) && Kept(op, SaveVerdict(op, k, done))
    ensures forall phase :: WorkerOk(op, phase) ==> WorkerOk(SaveVerdict(op, k, done), phase)
  {
    var next := SaveVerdict(op, k, done);
    forall phase | WorkerOk(op, phase) ensures WorkerOk(next, phase) {
      VerdictPhase(op, k, done, phase);
    }
  }

  /** A verdict only ever replaces a step in doubt, so no worker's view breaks. */
  lemma VerdictPhase(op: Operation, k: StepKey, done: bool, phase: Phase)
    requires RowOk(op) && k.RemoteStep? && WorkerOk(op, phase)
    ensures WorkerOk(SaveVerdict(op, k, done), phase)
  {
    var next := SaveVerdict(op, k, done);
    if k in op.steps && InDoubt(op.steps[k]) {
      assert InDoubtBesides(op, Execute);
    }
    assert forall x | InDoubtBesides(next, x) :: InDoubtBesides(op, x);
  }

  lemma ReaderKeeps(w: World, e: Event)
    requires Structure(w) && ReaderMove(e) && ReaderAt(w, e.reader)
    ensures Structure(ReaderStep(w, e))
  {
    hide RowOk, KeysOk, WorkerOk, LocksOk, RequestsOk;
    var reader := w.readers[e.reader];
    if e.WriteVerdict? && reader.verdict.Some? {
      var v := reader.verdict.value;
      var done := w.(readers := w.readers[e.reader := reader.(verdict := None)]);
      assert Structure(done);
      WriteKeeps(done, reader.op, v.key, v.done);
    } else {
      assert ReadersOk(ReaderStep(w, e));
    }
  }

  lemma WriteKeeps(w: World, id: OpId, k: StepKey, done: bool)
    requires Structure(w) && id in w.journal.operations && k.RemoteStep?
    ensures Structure(w.(journal := PutRow(w.journal, id, SaveVerdict(Row(w, id), k, done))))
  {
    hide RowOk, KeysOk, WorkerOk, LocksOk, Kept, SaveVerdict;
    var op := Row(w, id);
    var next := SaveVerdict(op, k, done);
    VerdictRow(op, k, done);
    VerdictFields(op, k, done);
    KeptKeys(op, next);
    SameKeysKeep(w.journal, id, next);
  }

  lemma VerdictFields(op: Operation, k: StepKey, done: bool)
    ensures SaveVerdict(op, k, done).status == op.status && SaveVerdict(op, k, done).held == op.held
  {
  }

  // ----- the rest -------------------------------------------------------------

  lemma NewRow(p: Payload)
    ensures RowOk(NewOperation(p)) && KeysOk(NewOperation(p))
  {
    hide QueuedKeys, RecomputedKeys;
    QueuedAreRecomputed(p);
    var s := FirstSteps(p);
    assert Execute in s;
    assert forall k | k in s :: k == Execute || k == PREPARE || k == PROCESSING;
    assert p.Local? ==> s.Keys == {Execute};
  }

  lemma QueueKeeps(w: World, rk: RequestKey, digest: string, id: OpId, p: Payload, valid: bool)
    requires Structure(w)
    ensures Structure(QueueStep(w, rk, digest, id, p, valid))
  {
    hide Structure, LocksOk, QueuedKeys, QueueKeys, CreatedKeys, NewOperation, Acquire;
    var j := w.journal;
    if QueueTx(j, rk, digest, id, p, valid).1.Created? {
      FreeKeys(j, p);
      QueuedPlaced(w, rk, digest, id, p);
    }
  }

  lemma QueuedPlaced(w: World, rk: RequestKey, digest: string, id: OpId, p: Payload)
    requires Structure(w) && rk !in w.journal.requests && id !in w.journal.operations
    requires forall k | k in QueuedKeys(p) :: k !in w.journal.locks
    ensures var j := w.journal;
            Structure(w.(journal := Journal(j.operations[id := NewOperation(p)], j.requests[rk := Saved(id, digest)],
                                            Acquire(j.locks, QueuedKeys(p), id)),
                         remotes := w.remotes[id := Remote(map[], 0, 0)]))
  {
    hide RowOk, KeysOk, WorkerOk, LocksOk, QueuedKeys;
    var j, op := w.journal, NewOperation(p);
    NewRow(p);
    AcquireKeeps(j, id, op, QueuedKeys(p));
    LocksAlone(Journal(j.operations[id := op], j.requests, Acquire(j.locks, QueuedKeys(p), id)), j.requests[rk := Saved(id, digest)]);
  }

  lemma FreeKeys(j: Journal, p: Payload)
    requires FirstOwner(j.locks, QueueKeys(p)).None? && CreatedFree(j, p)
    ensures forall k | k in QueuedKeys(p) :: k !in j.locks
  {
    hide QueueKeys, CreatedKeys;
  }

  lemma ClaimKeeps(w: World, n: nat, id: OpId)
    requires Structure(w)
    ensures Structure(ClaimStep(w, n, id))
  {
    hide RowOk, KeysOk, LocksOk, Kept, WorkerOk, RequestsOk;
    if n !in w.workers && id in w.remotes && ClaimTx(w.journal, id).Done? {
      var op := Row(w, id);
      ClaimRow(op);
      KeptKeys(op, op.(status := Running));
      SameKeysKeep(w.journal, id, op.(status := Running));
      RequestsKept(w.journal, id, op.(status := Running));
      forall m | m in w.workers ensures w.workers[m].op != id {
        WorkerFacts(w, m);
        NotQueued(Row(w, w.workers[m].op), w.workers[m].phase);
      }
    }
  }

  lemma RequestsKept(j: Journal, id: OpId, op: Operation)
    requires RequestsOk(j) && id in j.operations
    ensures RequestsOk(PutRow(j, id, op))
  {
  }

  lemma NotQueued(op: Operation, phase: Phase)
    requires WorkerOk(op, phase)
    ensures op.status in {Running, Succeeded}
  {
  }

  lemma ClaimRow(op: Operation)
    requires RowOk(op) && op.status == Queued
    ensures RowOk(op.(status := Running)) && Kept(op, op.(status := Running)) && WorkerOk(op.(status := Running), Claimed)
  {
  }

  lemma RecoverRow(op: Operation)
    requires RowOk(op)
    ensures RowOk(RecoverOperation(op)) && Kept(op, RecoverOperation(op))
  {
    var next := RecoverOperation(op);
    assert next.steps.Keys == op.steps.Keys;
  }

  /** Everything that was under way becomes unknown; locks and requests stay. */
  lemma RestartKeeps(w: World)
    requires Structure(w)
    ensures Structure(World(RecoverTx(w.journal), map[], map[], w.remotes))
  {
    hide RowOk, KeysOk, LocksOk, Kept, WorkerOk, RecoverOperation;
    var j := RecoverTx(w.journal);
    forall id | id in w.journal.operations
      ensures RowOk(j.operations[id]) && KeysOk(j.operations[id]) && Recovered(w.journal.operations[id], j.operations[id])
    {
      RecoverRow(w.journal.operations[id]);
      RecoveredRow(w.journal.operations[id]);
      KeptKeys(w.journal.operations[id], j.operations[id]);
    }
    RecoverLocks(w.journal);
  }

  predicate Recovered(op: Operation, next: Operation) {
    && next.held == op.held && (Live(next.status) <==> Live(op.status)) && (op.status == Succeeded ==> next.status == Succeeded)
  }

  lemma RecoveredRow(op: Operation)
    ensures Recovered(op, RecoverOperation(op))
  {
  }

  lemma RecoverLocks(j: Journal)
    requires LocksOk(j)
    ensures LocksOk(RecoverTx(j))
  {
    hide RecoverOperation;
    forall id | id in j.operations ensures Recovered(j.operations[id], RecoverTx(j).operations[id]) {
      RecoveredRow(j.operations[id]);
    }
  }

  // ----- every run ------------------------------------------------------------

  lemma StepKeeps(w: World, e: Event)
    requires Structure(w)
    ensures Structure(Step(w, e))
  {
    hide Structure, WorkerStep, AdminStep, ReaderStep, QueueStep, ClaimStep, OpenReaderStep, RecoverTx;
    if JournalMove(e) { if WorkerAt(w, e.worker) { JournalMoveKeeps(w, e); } }
    else if ProgramMove(e) { if WorkerAt(w, e.worker) { ProgramMoveKeeps(w, e); } }
    else if AdminMove(e) { if e.id in w.journal.operations { AdminKeeps(w, e); } }
    else if ReaderMove(e) { if ReaderAt(w, e.reader) { ReaderKeeps(w, e); } }
    else {
      match e
      case Queue(rk, digest, id, p, valid) => QueueKeeps(w, rk, digest, id, p, valid);
      case Claim(n, id) => ClaimKeeps(w, n, id);
      case OpenReader(r, id) => OpenReaderKeeps(w, r, id);
      case Lose(n) => LoseKeeps(w, n);
      case Restart => RestartKeeps(w);
    }
  }

  lemma LoseKeeps(w: World, n: nat)
    requires Structure(w)
    ensures Structure(Retire(w, n))
  {
    hide RowOk, KeysOk, LocksOk, WorkerOk;
  }

  lemma OpenReaderKeeps(w: World, r: nat, id: OpId)
    requires Structure(w)
    ensures Structure(OpenReaderStep(w, r, id))
  {
    hide RowOk, KeysOk, LocksOk, WorkerOk;
    if OpenReaderStep(w, r, id) != w {
      forall n | n in w.workers ensures w.workers[n].op != id {
        WorkerFacts(w, n);
        NotQueued(Row(w, w.workers[n].op), w.workers[n].phase);
      }
    }
  }

  lemma {:induction false} RunKeeps(w: World, es: seq<Event>)
    requires Structure(w)
    ensures Structure(Run(w, es))
    decreases |es|
  {
    hide Structure, Step;
    if es != [] {
      StepKeeps(w, es[0]);
      RunKeeps(Step(w, es[0]), es[1..]);
    }
  }

  lemma StartStructure()
    ensures Structure(START)
  {
  }
}
