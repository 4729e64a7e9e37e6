/** The operation tables as the program updates them, one method per code path.
    Each method is proved to be the transaction of the same name in `Operations`,
    so what `OperationTheorems` says about those holds for these bodies. */
module OperationStore {

  import opened Wrappers
  import opened Text
  import opened Operations
  import opened OperationRuns

  datatype Action = Cancel | Reconcile | Retry

  lemma AcquireNext(locks: map<Key, OpId>, keys: seq<Key>, i: nat, id: OpId)
    requires i < |keys|
    ensures Acquire(locks, Elements(keys[..i]), id)[keys[i] := id] == Acquire(locks, Elements(keys[..i + 1]), id)
  {
    assert keys[..i + 1] == keys[..i] + [keys[i]];
    assert Elements(keys[..i + 1]) == Elements(keys[..i]) + {keys[i]};
  }

  lemma AcquireTwice(locks: map<Key, OpId>, a: set<Key>, b: set<Key>, id: OpId)
    ensures Acquire(Acquire(locks, a, id), b, id) == Acquire(locks, a + b, id)
  {
  }

  function RemoteControl(j: Journal, id: OpId, action: Action, planKeys: seq<Key>, valid: bool): Outcome
    requires id in j.operations
  {
    match action
    case Cancel => CancelRemoteTx(j, id)
    case Reconcile => ReconcileRemoteTx(j, id)
    case Retry => RetryRemoteTx(j, id, planKeys, valid)
  }

  function LocalControl(j: Journal, id: OpId, action: Action, valid: bool): Outcome
    requires id in j.operations
  {
    match action
    case Cancel => CancelLocalTx(j, id)
    case Reconcile => ReconcileLocalTx(j, id)
    case Retry => RetryLocalTx(j, id, valid)
  }

  class Store {
    var operations: map<OpId, Operation>
    var requests: map<RequestKey, Saved>
    var locks: map<Key, OpId>

    constructor ()
      ensures Tables() == Journal(map[], map[], map[])
    {
      operations, requests, locks := map[], map[], map[];
    }

    function Tables(): Journal
      reads this
    {
      Journal(operations, requests, locks)
    }

    /** Applies a transaction that has been decided. */
    method Commit(o: Outcome) returns (ok: bool)
      modifies this
      ensures ok <==> o.Done?
      ensures Tables() == if ok then o.journal else old(Tables())
    {
      match o
      case Refused(_) => ok := false;
      case Done(j) =>
        operations, requests, locks := j.operations, j.requests, j.locks;
        ok := true;
    }

    /** Inserts the lock rows of `keys`, in order. */
    method InsertLocks(keys: seq<Key>, id: OpId)
      modifies this`locks
      ensures locks == Acquire(old(locks), Elements(keys), id)
    {
      assert Acquire(locks, Elements(keys[..0]), id) == locks;
      for i := 0 to |keys|
        invariant locks == Acquire(old(locks), Elements(keys[..i]), id)
      {
        AcquireNext(old(locks), keys, i, id);
        locks := locks[keys[i] := id];
      }
      assert keys[..|keys|] == keys;
    }

    /** Sorts the gathered keys and drops repeats inside their own array. */
    method GatherKeys(p: Payload) returns (keys: seq<Key>)
      ensures keys == QueueKeys(p)
    {
      hide Sort, Unique, ConnectionKeys, MailboxKeys, DomainKeys, TargetMailbox;
      var sorted := Sort(p.caller + (if p.Planned? then p.planKeys else []) + DomainKeys(p)
                         + ConnectionKeys(p.connection) + MailboxKeys(TargetMailbox(p)));
      var a := new string[|sorted|](i requires 0 <= i < |sorted| => sorted[i]);
      assert a[..] == sorted;
      var n := UniqueInPlace(a);
      keys := a[..n];
    }

    /** Looks the keys up one by one and reports the first owner found. */
    method FindOwner(keys: seq<Key>) returns (owner: Option<OpId>)
      ensures owner == FirstOwner(locks, keys)
    {
      for i := 0 to |keys|
        invariant FirstOwner(locks, keys) == FirstOwner(locks, keys[i..])
      {
        if keys[i] in locks {
          assert FirstOwner(locks, keys[i..]) == Some(locks[keys[i]]);
          return Some(locks[keys[i]]);
        }
        assert keys[i..][1..] == keys[i + 1..];
      }
      owner := None;
    }

    method QueueOperation(rk: RequestKey, digest: string, id: OpId, p: Payload, valid: bool) returns (result: QueueResult)
      modifies this
      ensures (Tables(), result) == QueueTx(old(Tables()), rk, digest, id, p, valid)
    {
      hide QueueKeys, CreatedKeys, CreatedFree, NewOperation, Acquire, FirstOwner;
      if rk in requests {
        return if requests[rk].digest == digest then Repeated(requests[rk].id) else DigestConflict;
      }
      var keys := GatherKeys(p);
      var owner := FindOwner(keys);
      if owner.Some? {
        return InProgress(owner.value);
      }
      if !valid || !CreatedFree(Tables(), p) || id in operations {
        return Rejected;
      }
      operations := operations[id := NewOperation(p)];
      InsertLocks(CreatedKeys(p), id);
      InsertLocks(keys, id);
      AcquireTwice(old(locks), Elements(CreatedKeys(p)), Elements(keys), id);
      assert Elements(CreatedKeys(p)) + Elements(keys) == QueuedKeys(p);
      requests := requests[rk := Saved(id, digest)];
      result := Created;
    }

    /** The compare-and-set that hands a queued operation to one worker. */
    method ClaimOperation(id: OpId) returns (claimed: bool)
      modifies this
      ensures claimed <==> id in old(operations) && old(operations)[id].status == Queued
      ensures Tables() == if claimed then ClaimTx(old(Tables()), id).journal else old(Tables())
    {
      claimed := Commit(ClaimTx(Tables(), id));
    }

    /** Journals one remote write without interruption. `err` is what the call
        replied, `saved` whether its outcome could be saved. */
    method RemoteOperationStep(id: OpId, k: StepKey, permitted: bool, err: RunError, saved: bool)
      returns (called: bool, outcome: RunError)
      requires id in operations && k.RemoteStep?
      modifies this`operations
      ensures operations.Keys == old(operations).Keys
      ensures forall x | x in operations && x != id :: operations[x] == old(operations)[x]
      ensures operations[id] == PassStep(old(operations)[id], k, permitted, err, saved)
      // the call is made exactly while the step is neither done nor in doubt
      ensures called <==> MayCall(old(operations)[id], k) && old(operations)[id].status == Running && permitted
      ensures called ==> outcome == (if !saved || ReplyStatus(err) == StepUnknown then OutcomeUnknown else err)
      ensures !called && k in old(operations)[id].steps ==>
        (outcome.NoError? <==> old(operations)[id].steps[k] == StepSucceeded)
        && (InDoubt(old(operations)[id].steps[k]) ==> outcome.OutcomeUnknown?)
    {
      called := false;
      var status := StepPending;
      if k in operations[id].steps {
        status := operations[id].steps[k];
      } else {
        operations := operations[id := SetStep(operations[id], k, StepPending)];
      }
      if status == StepSucceeded {
        return false, NoError;
      }
      if InDoubt(status) {
        return false, OutcomeUnknown;
      }
      if operations[id].status != Running || !permitted {
        return false, Untyped;
      }
      operations := operations[id := SetStep(operations[id], k, StepRunning)];
      called := true;
      if !saved {
        assert operations[id].steps == old(operations)[id].steps[k := StepRunning];
        return true, OutcomeUnknown;
      }
      var reply := ReplyStatus(err);
      operations := operations[id := SetStep(operations[id], k, reply)];
      assert operations[id].steps == old(operations)[id].steps[k := reply];
      outcome := if reply == StepUnknown then OutcomeUnknown else err;
    }

    /** The end of an execution: a success committed by the program stands,
        anything else is classified and saved. */
    method FinishExecution(id: OpId, err: RunError, interrupted: bool)
      requires id in operations
      modifies this
      ensures Tables() == if old(operations)[id].status == Succeeded then old(Tables())
                          else FinishTx(old(Tables()), id, Classify(old(operations)[id], err, interrupted))
    {
      if operations[id].status == Succeeded {
        return;
      }
      var s := Succeeded;
      if !err.NoError? {
        s := Failed;
        if interrupted || err.OutcomeUnknown? { s := Unknown; }
      }
      if s == Failed && HasEffects(operations[id]) { s := NeedsAction; }
      var op := operations[id];
      operations := operations[id := SetStep(op, Execute, ExecuteStatus(s)).(status := s, sealed := op.sealed && s != Succeeded)];
      if s != Unknown && s != NeedsAction {
        locks := Release(locks, id);
      }
    }

    /** Called inside the program's own transaction, with the business change. The
        steps are written first; the status compare-and-set may still undo them. */
    method CompleteLocalOperation(id: OpId) returns (ok: bool)
      requires id in operations
      modifies this
      ensures ok <==> old(operations)[id].status == Running
      ensures Tables() == if ok then CommitLocalTx(old(Tables()), id).journal else old(Tables())
      ensures ok ==> Closed(operations[id], locks, id) && operations[id].status == Succeeded
      ensures ok ==> forall k | k in operations[id].steps :: operations[id].steps[k] != StepRunning
      ensures Elsewhere(old(Tables()), Tables(), id)
    {
      var before := operations;
      operations := operations[id := MoveSteps(operations[id], {StepRunning}, StepSucceeded)];
      if operations[id].status != Running {
        operations := before;
        return false;
      }
      operations := operations[id := operations[id].(status := Succeeded, sealed := false)];
      locks := Release(locks, id);
      ok := true;
    }

    /** Takes a key unless another operation has it. */
    method LockOne(id: OpId, key: Key) returns (ok: bool)
      modifies this`locks
      ensures ok <==> !(key in old(locks) && old(locks)[key] != id)
      ensures locks == if ok then Acquire(old(locks), {key}, id) else old(locks)
    {
      if key in locks && locks[key] != id {
        return false;
      }
      locks := locks[key := id];
      ok := true;
    }

    /** The same inside a longer program: only the mailbox is locked and the commit
        recorded. */
    method CompleteIntermediate(id: OpId, k: StepKey, mailbox: Option<Key>) returns (ok: bool)
      requires id in operations
      modifies this
      ensures ok <==> CommitIntermediateTx(old(Tables()), id, k, mailbox).Done?
      ensures Tables() == if ok then CommitIntermediateTx(old(Tables()), id, k, mailbox).journal else old(Tables())
      ensures ok ==> k in operations[id].steps && operations[id].status == old(operations)[id].status
      ensures ok && mailbox.Some? && operations[id].status == Running ==> mailbox.value in locks && locks[mailbox.value] == id
      ensures !ok ==> mailbox.Some? && mailbox.value in locks && locks[mailbox.value] != id
      ensures Elsewhere(old(Tables()), Tables(), id)
    {
      var op := operations[id];
      if mailbox.Some? && op.status == Running {
        ok := LockOne(id, mailbox.value);
        if !ok {
          return;
        }
        op := op.(held := op.held + {mailbox.value});
      }
      if k !in op.steps || k == PROCESSING {
        op := SetStep(op, k, StepSucceeded);
      }
      operations := operations[id := op];
      ok := true;
    }

    method StartOperations()
      modifies this`operations
      ensures Tables() == RecoverTx(old(Tables()))
    {
      operations := map id | id in operations :: MoveSteps(operations[id], {StepRunning}, StepUnknown);
      operations := map id | id in operations ::
        if operations[id].status == Running then operations[id].(status := Unknown) else operations[id];
    }

    /** The locking half of a retry: checks and inserts key by key. */
    method Relock(id: OpId, keys: seq<Key>) returns (ok: bool, next: map<Key, OpId>)
      ensures ok <==> FirstOther(locks, keys, id).None?
      ensures ok ==> next == Acquire(locks, Elements(keys), id)
    {
      next := locks;
      assert Acquire(locks, Elements(keys[..0]), id) == locks;
      for i := 0 to |keys|
        invariant next == Acquire(locks, Elements(keys[..i]), id)
        invariant forall n | 0 <= n < i :: keys[n] in locks ==> locks[keys[n]] == id
      {
        if keys[i] in next && next[keys[i]] != id {
          assert keys[i] in locks && locks[keys[i]] != id;
          return false, next;
        }
        AcquireNext(locks, keys, i, id);
        next := next[keys[i] := id];
      }
      assert keys[..|keys|] == keys;
      ok := true;
    }

    method RetryRemote(id: OpId, planKeys: seq<Key>, valid: bool) returns (ok: bool)
      requires id in operations
      modifies this
      ensures ok <==> RetryRemoteTx(old(Tables()), id, planKeys, valid).Done?
      ensures Tables() == if ok then RetryRemoteTx(old(Tables()), id, planKeys, valid).journal else old(Tables())
    {
      hide RetryKeys, FirstOther, Acquire, AnyInDoubt, MoveSteps;
      var op := operations[id];
      if op.payload.Local? || !op.sealed || op.status !in {Failed, NeedsAction} || AnyInDoubt(op) || !valid {
        return false;
      }
      var keys := RetryKeys(op.payload, planKeys);
      var free, next := Relock(id, keys);
      if !free {
        return false;
      }
      locks := next;
      operations := operations[id := MoveSteps(op, {StepFailed}, StepPending).(status := Queued, held := HeldAgain(op, Elements(keys)))];
      ok := true;
    }

    method RetryLocal(id: OpId, valid: bool) returns (ok: bool)
      requires id in operations
      modifies this
      ensures ok <==> RetryLocalTx(old(Tables()), id, valid).Done?
      ensures Tables() == if ok then RetryLocalTx(old(Tables()), id, valid).journal else old(Tables())
    {
      hide RetryKeys, FirstOther, Acquire, MoveSteps;
      var op := operations[id];
      if !op.payload.Local? || op.status != Failed || !op.sealed || !valid {
        return false;
      }
      var keys := RetryKeys(op.payload, []);
      var free, next := Relock(id, keys);
      if !free {
        return false;
      }
      locks := next;
      operations :=
        operations[id := MoveSteps(op, {StepFailed, StepPending}, StepPending).(status := Queued, held := HeldAgain(op, Elements(keys)))];
      ok := true;
    }

    /** `ControlOperation`: which transaction an action is depends on the kind. */
    method ControlOperation(id: OpId, action: Action, planKeys: seq<Key>, valid: bool) returns (ok: bool)
      requires id in operations
      modifies this
      ensures var o := if old(operations)[id].payload.Local? then LocalControl(old(Tables()), id, action, valid)
                       else RemoteControl(old(Tables()), id, action, planKeys, valid);
              (ok <==> o.Done?) && Tables() == if ok then o.journal else old(Tables())
    {
      hide CancelRemoteTx, CancelLocalTx, ReconcileRemoteTx, ReconcileLocalTx, RetryRemoteTx, RetryLocalTx;
      var local := operations[id].payload.Local?;
      match action
      case Cancel => ok := Commit(if local then CancelLocalTx(Tables(), id) else CancelRemoteTx(Tables(), id));
      case Reconcile => ok := Commit(if local then ReconcileLocalTx(Tables(), id) else ReconcileRemoteTx(Tables(), id));
      case Retry => if local { ok := RetryLocal(id, valid); } else { ok := RetryRemote(id, planKeys, valid); }
    }

    /** Marks item after item and gives everything up at the first that does not fit. */
    method ConfirmExternal(id: OpId, items: seq<StepKey>, current: bool) returns (ok: bool)
      requires id in operations
      modifies this
      ensures ok <==> ConfirmTx(old(Tables()), id, items, current).Done?
      ensures Tables() == if ok then ConfirmTx(old(Tables()), id, items, current).journal else old(Tables())
    {
      var op := operations[id];
      if op.status != NeedsAction || AnyInDoubt(op) || items == [] {
        return false;
      }
      var next := op;
      var seen: set<StepKey> := {};
      assert ReportAll(op, items[..0]) == op;
      for i := 0 to |items|
        invariant next == ReportAll(op, items[..i])
        invariant seen == set k | k in items[..i]
        invariant forall n | 0 <= n < i :: items[n].ExternalStep? && items[n] in op.steps && op.steps[items[n]] == StepPending
        invariant forall m, n | 0 <= m < n < i :: items[m] != items[n]
      {
        if items[i] in seen || !items[i].ExternalStep? || items[i] !in next.steps || next.steps[items[i]] != StepPending {
          if items[i] in seen { assert exists n | 0 <= n < i :: items[n] == items[i]; }
          return false;
        }
        assert items[..i + 1] == items[..i] + [items[i]];
        assert SetStep(next, items[i], StepReported).steps == ReportAll(op, items[..i + 1]).steps;
        next := SetStep(next, items[i], StepReported);
        seen := seen + {items[i]};
      }
      assert items[..|items|] == items;
      if Settled(next) {
        if !current {
          return false;
        }
        operations := operations[id := SetStep(next, Execute, StepSucceeded).(status := Succeeded, sealed := false)];
        locks := Release(locks, id);
      } else {
        operations := operations[id := next];
      }
      ok := true;
    }

    /** The administrator has removed a credential whose secret was lost. */
    method ReportLostCredentialCleanup(id: OpId, k: StepKey, eligible: bool) returns (ok: bool)
      requires id in operations
      modifies this
      ensures ok <==> CleanupTx(old(Tables()), id, k, eligible).Done?
      ensures Tables() == if ok then CleanupTx(old(Tables()), id, k, eligible).journal else old(Tables())
      // it was this step, and this step alone, that kept the operation unknown
      ensures ok ==> old(operations)[id].status == Unknown && k.RemoteStep? && k in old(operations)[id].steps
                     && old(operations)[id].steps[k] == StepUnknown && !InDoubtBesides(old(operations)[id], k)
      ensures ok ==> Closed(operations[id], locks, id) && operations[id].status == Cancelled
      ensures ok ==> operations[id].steps[k] == StepReported && !AnyInDoubt(operations[id])
      ensures Elsewhere(old(Tables()), Tables(), id)
    {
      var op := operations[id];
      if op.status != Unknown || !k.RemoteStep? || k !in op.steps || op.steps[k] != StepUnknown || !eligible {
        return false;
      }
      if InDoubtBesides(op, k) {
        return false;
      }
      op := SetStep(op, k, StepReported);
      op := SetStep(op, Execute, StepFailed);
      op := op.(status := Cancelled, sealed := false);
      operations := operations[id := op];
      locks := Release(locks, id);
      ok := true;
    }
  }

  /** Closed operations hold no request and no lock. */
  ghost predicate Closed(op: Operation, locks: map<Key, OpId>, id: OpId) {
    !op.sealed && forall k | k in locks :: locks[k] != id
  }

  /** Other operations, their locks and all requests are as before. */
  ghost predicate Elsewhere(was: Journal, now: Journal, id: OpId) {
    && now.requests == was.requests && now.operations.Keys == was.operations.Keys
    && (forall x | x in was.operations && x != id :: now.operations[x] == was.operations[x])
    && (forall k | k in was.locks && was.locks[k] != id :: k in now.locks && now.locks[k] == was.locks[k])
    && (forall k | k in now.locks && now.locks[k] != id :: k in was.locks && now.locks[k] == was.locks[k])
  }

  // ----- one pass is a run of the journal's moves ---------------------------------

  function PassEvents(op: Operation, n: nat, k: StepKey, permitted: bool, applied: bool, err: RunError, saved: bool): seq<Event> {
    if !MayCall(op, k) then [Check(n, k)]
    else if !permitted then [Check(n, k), Refuse(n)]
    else [Check(n, k), Mark(n), Invoke(n, applied, err), SaveReply(n, saved)]
  }

  /** What `RemoteOperationStep` does to the row is what a worker's uninterrupted
      moves do. */
  lemma PassIsARun(w: World, n: nat, k: StepKey, permitted: bool, applied: bool, err: RunError, saved: bool)
    requires WorkerAt(w, n) && w.workers[n].phase == Program && k.RemoteStep?
    requires var op := Row(w, w.workers[n].op); op.status == Running && !op.payload.Local?
    ensures var id := w.workers[n].op;
            var after := Run(w, PassEvents(Row(w, id), n, k, permitted, applied, err, saved));
            id in after.journal.operations && Row(after, id) == PassStep(Row(w, id), k, permitted, err, saved)
  {
    hide Run, Step, Definitive;
    var id := w.workers[n].op;
    var op := Row(w, id);
    if !MayCall(op, k) {
      OneStep(w, Check(n, k));
      PassRefused(w, n, k);
    } else {
      PassChecked(w, n, k);
      var w1 := Step(w, Check(n, k));
      if permitted {
        var rest := [Mark(n), Invoke(n, applied, err), SaveReply(n, saved)];
        PassCalled(w1, n, k, applied, err, saved);
        RunCons(w, Check(n, k), rest);
        assert [Check(n, k)] + rest == PassEvents(op, n, k, permitted, applied, err, saved);
        CalledRow(op, k, err, saved);
      } else {
        PassLeft(w1, n, k);
        RunCons(w, Check(n, k), [Refuse(n)]);
        OneStep(w1, Refuse(n));
        assert [Check(n, k)] + [Refuse(n)] == PassEvents(op, n, k, permitted, applied, err, saved);
      }
    }
  }

  lemma CalledRow(op: Operation, k: StepKey, err: RunError, saved: bool)
    requires MayCall(op, k) && op.status == Running
    ensures var s := if saved then ReplyStatus(err) else StepRunning;
            SetStep(InsertStep(op, k, StepPending), k, s) == PassStep(op, k, true, err, saved)
  {
    var s := if saved then ReplyStatus(err) else StepRunning;
    assert op.steps[k := StepPending][k := s] == op.steps[k := s];
  }

  lemma OneStep(w: World, e: Event)
    ensures Run(w, [e]) == Step(w, e)
  {
    hide Step;
    RunCons(w, e, []);
    assert [e] + [] == [e];
  }

  lemma PassRefused(w: World, n: nat, k: StepKey)
    requires WorkerAt(w, n) && w.workers[n].phase == Program && k.RemoteStep? && !MayCall(Row(w, w.workers[n].op), k)
    ensures w.workers[n].op in Step(w, Check(n, k)).journal.operations
    ensures Row(Step(w, Check(n, k)), w.workers[n].op) == Row(w, w.workers[n].op)
  {
    hide AdminStep, ReaderStep, QueueStep, ClaimStep, OpenReaderStep, RecoverTx;
  }

  lemma PassChecked(w: World, n: nat, k: StepKey)
    requires WorkerAt(w, n) && w.workers[n].phase == Program && k.RemoteStep? && MayCall(Row(w, w.workers[n].op), k)
    requires var op := Row(w, w.workers[n].op); op.status == Running && !op.payload.Local?
    ensures Step(w, Check(n, k)) == Advance(w, n, InsertStep(Row(w, w.workers[n].op), k, StepPending), Checked(k))
  {
    hide AdminStep, ReaderStep, QueueStep, ClaimStep, OpenReaderStep, RecoverTx;
  }

  lemma PassLeft(w: World, n: nat, k: StepKey)
    requires WorkerAt(w, n) && w.workers[n].phase == Checked(k)
    ensures w.workers[n].op in Step(w, Refuse(n)).journal.operations
    ensures Row(Step(w, Refuse(n)), w.workers[n].op) == Row(w, w.workers[n].op)
  {
    hide AdminStep, ReaderStep, QueueStep, ClaimStep, OpenReaderStep, RecoverTx;
  }

  lemma PassCalled(w: World, n: nat, k: StepKey, applied: bool, err: RunError, saved: bool)
    requires WorkerAt(w, n) && w.workers[n].phase == Checked(k)
    ensures var id := w.workers[n].op;
            var after := Run(w, [Mark(n), Invoke(n, applied, err), SaveReply(n, saved)]);
            id in after.journal.operations
            && Row(after, id) == SetStep(Row(w, id), k, if saved then ReplyStatus(err) else StepRunning)
  {
    hide AdminStep, ReaderStep, QueueStep, ClaimStep, OpenReaderStep, RecoverTx, Run, Definitive;
    var id := w.workers[n].op;
    var w1 := Step(w, Mark(n));
    var w2 := Step(w1, Invoke(n, applied, err));
    var w3 := Step(w2, SaveReply(n, saved));
    RunCons(w, Mark(n), [Invoke(n, applied, err), SaveReply(n, saved)]);
    RunCons(w1, Invoke(n, applied, err), [SaveReply(n, saved)]);
    OneStep(w2, SaveReply(n, saved));
    assert [Mark(n)] + [Invoke(n, applied, err), SaveReply(n, saved)] == [Mark(n), Invoke(n, applied, err), SaveReply(n, saved)];
    assert [Invoke(n, applied, err)] + [SaveReply(n, saved)] == [Invoke(n, applied, err), SaveReply(n, saved)];
    assert Row(w3, id).steps == Row(w, id).steps[k := if saved then ReplyStatus(err) else StepRunning];
  }
}
