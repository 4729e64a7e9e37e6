/** Workers, administrators and crashes interleaved over the operation tables.

    A step is one database statement or transaction, one remote call, or one
    remote read; anything may happen between two of them. The remote side is a
    count of how often each journalled write took effect. */
module OperationRuns {

  import opened Wrappers
  import opened Operations

  /** How far one execution got. */
  datatype Phase =
    | Claimed                                   // status is running, nothing else done
    | Program                                   // between two journalled actions
    | Checked(key: StepKey)                     // read the step and found it not done
    | Marked(key: StepKey)                      // step saved as running, call not made yet
    | Replied(key: StepKey, err: RunError)      // call returned, outcome not saved
    | Finishing(err: RunError)                  // program ended
    | Sealing(status: Status)                   // final status decided, not saved

  datatype Worker = Worker(op: OpId, phase: Phase)

  /** A reconcile in flight: what it saw, and the verdict it has not saved yet. */
  datatype Verdict = Verdict(key: StepKey, done: bool)
  datatype Reader = Reader(op: OpId, claims: nat, todo: set<StepKey>, verdict: Option<Verdict>)

  /** `effects`: how often each write happened; `claims`: how often the operation
      was claimed; `committed`: how often its closing local transaction, which
      carries the business change, was applied. */
  datatype Remote = Remote(effects: map<StepKey, nat>, claims: nat, committed: nat)

  datatype World = World(
    journal: Journal, workers: map<nat, Worker>, readers: map<nat, Reader>, remotes: map<OpId, Remote>)

  function Times(r: Remote, k: StepKey): nat {
    if k in r.effects then r.effects[k] else 0
  }

  datatype Event =
    | Queue(rk: RequestKey, digest: string, id: OpId, payload: Payload, valid: bool)
    // one worker
    | Claim(worker: nat, id: OpId)
    | Begin(worker: nat)
    | Check(worker: nat, key: StepKey)
    | Refuse(worker: nat)                       // permission lost after the check
    | Mark(worker: nat)
    | Invoke(worker: nat, applied: bool, err: RunError)
    | SaveReply(worker: nat, saved: bool)
    | Record(worker: nat, key: StepKey)
    | CommitPart(worker: nat, key: StepKey, mailbox: Option<Key>)
    | AwaitExternal(worker: nat, key: StepKey)
    | CommitAll(worker: nat)
    | Return(worker: nat, err: RunError)
    | Conclude(worker: nat, interrupted: bool)
    | Seal(worker: nat)
    | Lose(worker: nat)                         // the goroutine ends on a database error
    | Restart
    // administrators
    | CancelRemote(id: OpId)
    | ReconcileRemote(id: OpId)
    | RetryRemote(id: OpId, planKeys: seq<Key>, valid: bool)
    | CancelLocal(id: OpId)
    | ReconcileLocal(id: OpId)
    | RetryLocal(id: OpId, valid: bool)
    | Confirm(id: OpId, items: seq<StepKey>, current: bool)
    | Cleanup(id: OpId, key: StepKey, eligible: bool)
    // the reading half of a reconcile
    | OpenReader(reader: nat, id: OpId)
    | ViewSteps(reader: nat)
    | ReadStep(reader: nat, key: StepKey, done: bool)
    | WriteVerdict(reader: nat)

  /** The moves of `remoteOperationStep`, after an execution has begun. */
  predicate JournalMove(e: Event) {
    e.Begin? || e.Check? || e.Refuse? || e.Mark? || e.Invoke? || e.SaveReply?
  }

  predicate ProgramMove(e: Event) {
    e.Record? || e.CommitPart? || e.AwaitExternal? || e.CommitAll? || e.Return? || e.Conclude? || e.Seal?
  }

  predicate AdminMove(e: Event) {
    || e.CancelRemote? || e.ReconcileRemote? || e.RetryRemote? || e.CancelLocal? || e.ReconcileLocal? || e.RetryLocal?
    || e.Confirm? || e.Cleanup?
  }

  predicate ReaderMove(e: Event) {
    e.ViewSteps? || e.ReadStep? || e.WriteVerdict?
  }

  const START := World(Journal(map[], map[], map[]), map[], map[], map[])

  function Row(w: World, id: OpId): Operation
    requires id in w.journal.operations
  {
    w.journal.operations[id]
  }

  /** The one shape of a worker's move: its operation's row, its own phase and,
      for calls and commits, the remote side. */
  function Advance(w: World, n: nat, op: Operation, phase: Phase): World
    requires n in w.workers
  {
    w.(journal := PutRow(w.journal, w.workers[n].op, op), workers := w.workers[n := w.workers[n].(phase := phase)])
  }

  function Retire(w: World, n: nat): World {
    w.(workers := w.workers - {n})
  }

  function Apply(w: World, o: Outcome): World {
    match o
    case Done(j) => w.(journal := j)
    case Refused(_) => w
  }

  predicate WorkerAt(w: World, n: nat) {
    n in w.workers && w.workers[n].op in w.journal.operations && w.workers[n].op in w.remotes
  }

  /** One step of worker `e.worker`; a move that its phase does not allow changes
      nothing. Kinds that are one local transaction make no journalled writes. */
  function WorkerStep(w: World, e: Event): World
    requires JournalMove(e) || ProgramMove(e)
    requires WorkerAt(w, e.worker)
  {
    var n := e.worker;
    var id := w.workers[n].op;
    var op := Row(w, id);
    var phase := w.workers[n].phase;
    var remote := w.remotes[id];
    match e
    case Begin(_) =>
      if phase.Claimed? then Advance(w, n, BeginExecute(op), Program) else w
    case Check(_, k) =>
      if phase.Program? && k.RemoteStep? && !op.payload.Local? then
        var (next, found) := CheckStep(op, k);
        match found
        case AlreadyDone => w
        case Doubtful => Advance(w, n, op, Finishing(OutcomeUnknown))
        case Ready => Advance(w, n, next, if next.status == Running then Checked(k) else Finishing(Untyped))
      else w
    case Refuse(_) =>
      if phase.Checked? then Advance(w, n, op, Program) else w
    case Mark(_) =>
      if phase.Checked? then Advance(w, n, SetStep(op, phase.key, StepRunning), Marked(phase.key)) else w
    case Invoke(_, applied, err) =>
      if phase.Marked? then
        Advance(w, n, op, Replied(phase.key, err))
        .(remotes := w.remotes[id := if applied then remote.(effects := remote.effects[phase.key := Times(remote, phase.key) + 1]) else remote])
      else w
    case SaveReply(_, saved) =>
      if phase.Replied? then
        if !saved then Advance(w, n, op, Finishing(OutcomeUnknown))
        else
          var s := ReplyStatus(phase.err);
          Advance(w, n, SetStep(op, phase.key, s), if s == StepUnknown then Finishing(OutcomeUnknown) else Program)
      else w
    case Record(_, k) =>
      if phase.Program? && (k.LocalStep? || k.SievePrepare?) && !op.payload.Local? then Advance(w, n, RecordStep(op, k), Program)
      else w
    case CommitPart(_, k, mailbox) =>
      if phase.Program? && k.LocalStep? && !op.payload.Local? then Apply(w, CommitIntermediateTx(w.journal, id, k, mailbox))
      else w
    case AwaitExternal(_, k) =>
      if phase.Program? && k.ExternalStep? && !op.payload.Local? then Advance(w, n, InsertStep(op, k, StepPending), Program)
      else w
    case CommitAll(_) =>
      if phase.Program? then
        match CommitLocalTx(w.journal, id)
        case Refused(_) => w
        case Done(j) =>
          w.(journal := j, workers := w.workers[n := w.workers[n].(phase := Finishing(NoError))],
             remotes := w.remotes[id := remote.(committed := remote.committed + 1)])
      else w
    case Return(_, err) =>
      if phase.Program? then Advance(w, n, op, Finishing(err)) else w
    case Conclude(_, interrupted) =>
      if phase.Finishing? then
        if op.status == Succeeded then Retire(w, n)
        else Advance(w, n, op, Sealing(Classify(op, phase.err, interrupted)))
      else w
    case Seal(_) =>
      if phase.Sealing? then Retire(w.(journal := FinishTx(w.journal, id, phase.status)), n) else w
  }

  function AdminStep(w: World, e: Event): World
    requires AdminMove(e)
    requires e.id in w.journal.operations
  {
    var j := w.journal;
    match e
    case CancelRemote(id) => Apply(w, CancelRemoteTx(j, id))
    case ReconcileRemote(id) => Apply(w, ReconcileRemoteTx(j, id))
    case RetryRemote(id, planKeys, valid) => Apply(w, RetryRemoteTx(j, id, planKeys, valid))
    case CancelLocal(id) => Apply(w, CancelLocalTx(j, id))
    case ReconcileLocal(id) => Apply(w, ReconcileLocalTx(j, id))
    case RetryLocal(id, valid) => Apply(w, RetryLocalTx(j, id, valid))
    case Confirm(id, items, current) => Apply(w, ConfirmTx(j, id, items, current))
    case Cleanup(id, k, eligible) => Apply(w, CleanupTx(j, id, k, eligible))
  }

  predicate ReaderAt(w: World, r: nat) {
    r in w.readers && w.readers[r].op in w.journal.operations
  }

  function Unsettled(op: Operation): set<StepKey> {
    set k | k in op.steps && k != Execute && InDoubt(op.steps[k])
  }

  function ReaderStep(w: World, e: Event): World
    requires ReaderMove(e)
    requires ReaderAt(w, e.reader)
  {
    var reader := w.readers[e.reader];
    var op := Row(w, reader.op);
    match e
    case ViewSteps(r) => w.(readers := w.readers[r := reader.(todo := Unsettled(op))])
    case ReadStep(r, k, done) =>
      if k in reader.todo && k.RemoteStep? && reader.verdict.None?
      then w.(readers := w.readers[r := reader.(todo := reader.todo - {k}, verdict := Some(Verdict(k, done)))])
      else w
    case WriteVerdict(r) =>
      match reader.verdict
      case None => w
      case Some(v) =>
        w.(journal := PutRow(w.journal, reader.op, SaveVerdict(op, v.key, v.done)),
           readers := w.readers[r := reader.(verdict := None)])
  }

  /** A queued operation is taken by whichever worker's compare-and-set wins. */
  function ClaimStep(w: World, n: nat, id: OpId): World {
    if n in w.workers || id !in w.remotes || ClaimTx(w.journal, id).Refused? then w
    else
      w.(journal := ClaimTx(w.journal, id).journal, workers := w.workers[n := Worker(id, Claimed)],
         remotes := w.remotes[id := w.remotes[id].(claims := w.remotes[id].claims + 1)])
  }

  /** A reconcile starts only on an operation it read as unknown. */
  function OpenReaderStep(w: World, r: nat, id: OpId): World {
    if r !in w.readers && id in w.journal.operations && id in w.remotes && Row(w, id).status == Unknown
       && !Row(w, id).payload.Local?
    then w.(readers := w.readers[r := Reader(id, w.remotes[id].claims, {}, None)])
    else w
  }

  function QueueStep(w: World, rk: RequestKey, digest: string, id: OpId, p: Payload, valid: bool): World {
    var (j, result) := QueueTx(w.journal, rk, digest, id, p, valid);
    if result.Created? then w.(journal := j, remotes := w.remotes[id := Remote(map[], 0, 0)]) else w
  }

  function Step(w: World, e: Event): World {
    if JournalMove(e) || ProgramMove(e) then if WorkerAt(w, e.worker) then WorkerStep(w, e) else w
    else if AdminMove(e) then if e.id in w.journal.operations then AdminStep(w, e) else w
    else if ReaderMove(e) then if ReaderAt(w, e.reader) then ReaderStep(w, e) else w
    else
      match e
      case Queue(rk, digest, id, p, valid) => QueueStep(w, rk, digest, id, p, valid)
      case Claim(n, id) => ClaimStep(w, n, id)
      case OpenReader(r, id) => OpenReaderStep(w, r, id)
      case Lose(n) => Retire(w, n)
      case Restart => World(RecoverTx(w.journal), map[], map[], w.remotes)
  }

  function Run(w: World, es: seq<Event>): World
    decreases |es|
  {
    if es == [] then w else Run(Step(w, es[0]), es[1..])
  }

  lemma RunCons(w: World, e: Event, es: seq<Event>)
    ensures Run(w, [e] + es) == Run(Step(w, e), es)
  {
    hide Step;
    assert ([e] + es)[1..] == es;
  }

  /** What is assumed of providers: a success reply means the write happened, one
      of the listed errors means it did not, and a reconcile's read tells which.
      Any other reply, or none, may go either way. */
  predicate Truthful(w: World, e: Event) {
    match e
    case Invoke(_, applied, err) => (err.NoError? ==> applied) && (Definitive(err) ==> !applied)
    case ReadStep(r, k, done) =>
      r in w.readers && w.readers[r].op in w.remotes ==> (done <==> Times(w.remotes[w.readers[r].op], k) > 0)
    case _ => true
  }

  /** No execution was started between a reconcile's status check and this write. */
  predicate Fresh(w: World, e: Event) {
    e.WriteVerdict? && ReaderAt(w, e.reader) && w.readers[e.reader].op in w.remotes
    ==> w.readers[e.reader].claims == w.remotes[w.readers[e.reader].op].claims
  }

  ghost predicate TruthfulRun(w: World, es: seq<Event>)
    decreases |es|
  {
    es == [] || (Truthful(w, es[0]) && TruthfulRun(Step(w, es[0]), es[1..]))
  }

  ghost predicate FreshRun(w: World, es: seq<Event>)
    decreases |es|
  {
    es == [] || (Fresh(w, es[0]) && FreshRun(Step(w, es[0]), es[1..]))
  }
}
