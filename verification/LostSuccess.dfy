/** When a recorded success can be lost again. The reply of a remote call is saved
    without looking at the step, so it overwrites a "done" that a reconcile saved
    while the call was under way. */
module LostSuccess {

  import opened Wrappers
  import opened Text
  import opened Operations
  import opened OperationRuns
  import opened OperationInvariants
  import opened OperationTheorems
  import opened ReconcileRace

  ghost predicate HasSuccess(w: World, id: OpId, k: StepKey) {
    id in w.journal.operations && k in Row(w, id).steps && Row(w, id).steps[k] == StepSucceeded
  }

  /** A call of this step is about to be made, or was made and did not succeed. */
  predicate Overwriting(wk: Worker, id: OpId, k: StepKey) {
    wk.op == id && (wk.phase == Marked(k) || (wk.phase.Replied? && wk.phase.key == k && ReplyStatus(wk.phase.err) != StepSucceeded))
  }

  ghost predicate Endangered(w: World, id: OpId, k: StepKey) {
    exists n | n in w.workers :: Overwriting(w.workers[n], id, k)
  }

  /** Some truthful continuation without stale verdicts ends without the success. */
  ghost predicate CanLoseSuccess(w: World, id: OpId, k: StepKey) {
    exists es :: TruthfulRun(w, es) && FreshRun(w, es) && !HasSuccess(Run(w, es), id, k)
  }

  // ----- it can be lost exactly while such a call is under way ------------------------

  lemma ReplyOverwrites(w: World, n: nat, id: OpId, k: StepKey)
    requires WorkerAt(w, n) && w.workers[n].op == id && w.workers[n].phase.Replied? && w.workers[n].phase.key == k
    requires ReplyStatus(w.workers[n].phase.err) != StepSucceeded
    ensures !HasSuccess(Step(w, SaveReply(n, true)), id, k)
  {
    hide Definitive, AdminStep, ReaderStep, QueueStep, ClaimStep, OpenReaderStep, RecoverTx;
  }

  lemma CallReplies(w: World, n: nat, id: OpId, k: StepKey)
    requires WorkerAt(w, n) && w.workers[n] == Worker(id, Marked(k))
    ensures var next := Step(w, Invoke(n, true, Untyped)); WorkerAt(next, n) && next.workers[n] == Worker(id, Replied(k, Untyped))
  {
    hide Definitive, AdminStep, ReaderStep, QueueStep, ClaimStep, OpenReaderStep, RecoverTx;
  }

  lemma LostHere(w: World, id: OpId, k: StepKey)
    requires !HasSuccess(w, id, k)
    ensures CanLoseSuccess(w, id, k)
  {
    assert TruthfulRun(w, []) && FreshRun(w, []) && Run(w, []) == w;
  }

  lemma LostLater(w: World, e: Event, id: OpId, k: StepKey)
    requires Truthful(w, e) && Fresh(w, e) && CanLoseSuccess(Step(w, e), id, k)
    ensures CanLoseSuccess(w, id, k)
  {
    hide Step, HasSuccess, Truthful, Fresh;
    var es :| TruthfulRun(Step(w, e), es) && FreshRun(Step(w, e), es) && !HasSuccess(Run(Step(w, e), es), id, k);
    var all := [e] + es;
    assert all[1..] == es;
    assert TruthfulRun(w, all) && FreshRun(w, all) && !HasSuccess(Run(w, all), id, k);
  }

  lemma EndangeredIsLost(w: World, id: OpId, k: StepKey)
    requires Structure(w) && Endangered(w, id, k)
    ensures CanLoseSuccess(w, id, k)
  {
    hide Structure, Run, Step, HasSuccess, CanLoseSuccess;
    var n :| n in w.workers && Overwriting(w.workers[n], id, k);
    AtWork(w, n);
    if w.workers[n].phase == Marked(k) {
      var next := Step(w, Invoke(n, true, Untyped));
      CallReplies(w, n, id, k);
      ReplyOverwrites(next, n, id, k);
      LostHere(Step(next, SaveReply(n, true)), id, k);
      LostLater(next, SaveReply(n, true), id, k);
      LostLater(w, Invoke(n, true, Untyped), id, k);
    } else {
      ReplyOverwrites(w, n, id, k);
      LostHere(Step(w, SaveReply(n, true)), id, k);
      LostLater(w, SaveReply(n, true), id, k);
    }
  }

  lemma AtWork(w: World, n: nat)
    requires Structure(w) && n in w.workers
    ensures WorkerAt(w, n)
  {
    hide RowOk, KeysOk, WorkerOk, LocksOk, RequestsOk, ReadersOk;
  }

  /** A worker comes to overwrite a step only from one that is not done. */
  lemma NoNewOverwriting(w: World, e: Event, id: OpId, k: StepKey, n: nat)
    requires Structure(w) && HasSuccess(w, id, k) && !Endangered(w, id, k) && n in Step(w, e).workers
    ensures !Overwriting(Step(w, e).workers[n], id, k)
  {
    hide Structure, RowOk, WorkerOk, AdminStep, ReaderStep, QueueStep, RecoverTx, Overwriting;
    assert n in w.workers ==> !Overwriting(w.workers[n], id, k);
    if (JournalMove(e) || ProgramMove(e)) && WorkerAt(w, e.worker) && e.worker == n {
      WorkerFacts(w, n);
      if JournalMove(e) { JournalPhase(w, e, id, k); } else { ProgramPhase(w, e, id, k); }
    } else {
      OtherPhase(w, e, n);
      ClaimedIsHarmless(id, k, Step(w, e).workers[n]);
    }
  }

  lemma ClaimedIsHarmless(id: OpId, k: StepKey, wk: Worker)
    ensures wk.phase == Claimed ==> !Overwriting(wk, id, k)
  {
  }

  /** Other workers stay where they are; a new one has just claimed. */
  lemma OtherPhase(w: World, e: Event, n: nat)
    requires n in Step(w, e).workers
    requires !((JournalMove(e) || ProgramMove(e)) && WorkerAt(w, e.worker) && e.worker == n)
    ensures (n in w.workers && Step(w, e).workers[n] == w.workers[n]) || Step(w, e).workers[n].phase == Claimed
  {
    hide AdminStep, QueueTx, RecoverTx, CheckStep, Definitive, FinishTx, CommitLocalTx, CommitIntermediateTx, Classify, SaveVerdict, Unsettled, FirstOwner;
    if AdminMove(e) && e.id in w.journal.operations { AdminLeavesWorkers(w, e); }
  }

  lemma AdminLeavesWorkers(w: World, e: Event)
    requires AdminMove(e) && e.id in w.journal.operations
    ensures AdminStep(w, e).workers == w.workers
  {
    hide CancelRemoteTx, CancelLocalTx, ReconcileRemoteTx, ReconcileLocalTx, RetryRemoteTx, RetryLocalTx, ConfirmTx, CleanupTx;
  }

  lemma JournalPhase(w: World, e: Event, id: OpId, k: StepKey)
    requires JournalMove(e) && WorkerAt(w, e.worker) && WorkerOk(Row(w, w.workers[e.worker].op), w.workers[e.worker].phase)
    requires HasSuccess(w, id, k) && !Overwriting(w.workers[e.worker], id, k)
    ensures e.worker in WorkerStep(w, e).workers ==> !Overwriting(WorkerStep(w, e).workers[e.worker], id, k)
  {
    hide Definitive, InDoubtBesides;
  }

  lemma ProgramPhase(w: World, e: Event, id: OpId, k: StepKey)
    requires ProgramMove(e) && WorkerAt(w, e.worker) && !Overwriting(w.workers[e.worker], id, k)
    ensures e.worker in WorkerStep(w, e).workers ==> !Overwriting(WorkerStep(w, e).workers[e.worker], id, k)
  {
    hide FinishTx, CommitLocalTx, CommitIntermediateTx, Classify, RecordStep, InsertStep;
  }

  lemma SuccessStep(w: World, e: Event, id: OpId, k: StepKey)
    requires Structure(w) && HasSuccess(w, id, k) && k.RemoteStep? && !Endangered(w, id, k)
    ensures HasSuccess(Step(w, e), id, k) && !Endangered(Step(w, e), id, k)
  {
    hide Structure, Step;
    RowHistory(w, e, id);
    if Overwrites(w, e, id, k) { GoodReply(w, e, id, k); }
    forall n | n in Step(w, e).workers ensures !Overwriting(Step(w, e).workers[n], id, k) { NoNewOverwriting(w, e, id, k, n); }
  }

  lemma GoodReply(w: World, e: Event, id: OpId, k: StepKey)
    requires Overwrites(w, e, id, k) && HasSuccess(w, id, k) && !Endangered(w, id, k)
    ensures HasSuccess(Step(w, e), id, k)
  {
    hide Definitive, AdminStep, ReaderStep, QueueStep, ClaimStep, OpenReaderStep, RecoverTx;
    assert !Overwriting(w.workers[e.worker], id, k);
  }

  lemma {:induction false} SafeSuccessStays(w: World, es: seq<Event>, id: OpId, k: StepKey)
    requires Structure(w) && HasSuccess(w, id, k) && k.RemoteStep? && !Endangered(w, id, k)
    ensures HasSuccess(Run(w, es), id, k)
    decreases |es|
  {
    hide Structure, Step, HasSuccess, Endangered;
    if es != [] {
      SuccessStep(w, es[0], id, k);
      StepKeeps(w, es[0]);
      SafeSuccessStays(Step(w, es[0]), es[1..], id, k);
    }
  }

  /** A recorded success can be lost if and only if a call of its step is under way
      that may still be journalled as something else. */
  lemma SuccessIsLosableIff(w: World, id: OpId, k: StepKey)
    requires Structure(w) && HasSuccess(w, id, k) && k.RemoteStep?
    ensures CanLoseSuccess(w, id, k) <==> Endangered(w, id, k)
  {
    hide Structure, HasSuccess, Endangered, Run, TruthfulRun, FreshRun;
    if Endangered(w, id, k) { EndangeredIsLost(w, id, k); }
    else {
      forall es ensures HasSuccess(Run(w, es), id, k) { SafeSuccessStays(w, es, id, k); }
    }
  }

  /** So saving a "done" records a success that can be lost if and only if the step
      is in doubt and such a call is under way. */
  lemma StaleSuccessIff(w: World, r: nat)
    requires Structure(w) && ReaderAt(w, r) && w.readers[r].verdict.Some? && w.readers[r].verdict.value.done
    ensures var id, k := w.readers[r].op, w.readers[r].verdict.value.key;
            var next := Step(w, WriteVerdict(r));
            (!HasSuccess(w, id, k) && HasSuccess(next, id, k) && CanLoseSuccess(next, id, k))
            <==> (k in Row(w, id).steps && InDoubt(Row(w, id).steps[k]) && Endangered(w, id, k))
  {
    hide Structure, CanLoseSuccess, Endangered;
    var id, k := w.readers[r].op, w.readers[r].verdict.value.key;
    var next := Step(w, WriteVerdict(r));
    StepKeeps(w, WriteVerdict(r));
    RemoteVerdict(w, r);
    SavedVerdict(w, r);
    SameWorkers(w, next, id, k);
    if HasSuccess(next, id, k) { SuccessIsLosableIff(next, id, k); }
  }

  lemma SavedVerdict(w: World, r: nat)
    requires ReaderAt(w, r) && w.readers[r].verdict.Some?
    ensures var id, v := w.readers[r].op, w.readers[r].verdict.value;
            var next := Step(w, WriteVerdict(r));
            next.workers == w.workers && id in next.journal.operations && Row(next, id) == SaveVerdict(Row(w, id), v.key, v.done)
  {
    hide WorkerStep, AdminStep, QueueStep, ClaimStep, OpenReaderStep, RecoverTx;
  }

  lemma RemoteVerdict(w: World, r: nat)
    requires Structure(w) && r in w.readers && w.readers[r].verdict.Some?
    ensures w.readers[r].verdict.value.key.RemoteStep?
  {
    hide RowsOk, WorkersOk, LocksOk, RequestsOk;
  }

  lemma SameWorkers(w: World, next: World, id: OpId, k: StepKey)
    requires next.workers == w.workers
    ensures Endangered(next, id, k) <==> Endangered(w, id, k)
  {
  }

  // ----- and it happens ------------------------------------------------------------------

  const FIRST := Reader(0, 1, {WRITE}, None)
  const LATE := Reader(0, 1, {}, Some(Verdict(WRITE, true)))

  function TwoReaders(first: Reader): map<nat, Reader> {
    map[0 := first, 1 := STALE.(verdict := None)]
  }

  /** The second call has taken effect and its reply is not saved yet. */
  function Replying(first: Reader): World {
    Scene(TheRow(Running, Both(StepRunning, StepRunning)), At(Replied(WRITE, Untyped)), TwoReaders(first), Remote(map[WRITE := 1], 2, 0))
  }

  lemma LateRead()
    ensures Does(Replying(FIRST), ReadStep(0, WRITE, true), Replying(LATE))
  {
    hide WorkerStep, AdminStep, QueueStep, ClaimStep, OpenReaderStep, RecoverTx;
    assert {WRITE} - {WRITE} == {};
    assert TwoReaders(FIRST)[0 := LATE] == TwoReaders(LATE);
  }

  lemma SecondCall(to: World)
    requires Leads(Replying(FIRST), to)
    ensures Leads(Scene(TheRow(Queued, Both(StepPending, StepPending)), map[], TwoReaders(FIRST), Remote(map[], 1, 0)), to)
  {
    hide Leads, Does, TwoReaders;
    var readers, r := TwoReaders(FIRST), Remote(map[], 2, 0);
    DoMark(readers, r);
    DoCall(readers, r, true);
    assert r.effects[WRITE := Times(r, WRITE) + 1] == map[WRITE := 1];
    var marked := Scene(TheRow(Running, Both(StepRunning, StepRunning)), At(Marked(WRITE)), readers, r);
    LeadsOn(marked, Invoke(0, true, Untyped), Replying(FIRST), to);
    LeadsOn(Scene(TheRow(Running, Both(StepRunning, StepPending)), At(Checked(WRITE)), readers, r), Mark(0), marked, to);
    Started(Both(StepPending, StepPending), readers, Remote(map[], 1, 0), to);
  }

  /** Reconcile 0 starts before the retry and reads after it. */
  lemma ReplyingIsReachable()
    ensures Leads(START, Replying(LATE))
  {
    hide Leads, Does, Scene, TheRow, Both, At;
    var to := Replying(LATE);
    LeadsHere(to);
    LateRead();
    LeadsOn(Replying(FIRST), ReadStep(0, WRITE, true), to, to);
    SecondCall(to);
    var one := map[0 := FIRST];
    assert one[1 := STALE][1 := STALE.(verdict := None)] == TwoReaders(FIRST);
    Requeued(one[1 := STALE], to);
    ReadNotDone(1, one, to);
    DoOpen(0, map[]);
    DoView(0, map[]);
    assert map[][0 := FIRST] == one;
    LeadsOn(InDoubtWith(map[][0 := Reader(0, 1, {}, None)]), ViewSteps(0), InDoubtWith(one), to);
    LeadsOn(InDoubtWith(map[]), OpenReader(0, 0), InDoubtWith(map[][0 := Reader(0, 1, {}, None)]), to);
    FirstLoss(to);
  }

  /** Truthful providers alone do not keep a recorded success: reconcile 0 reads, quite
      rightly, that the retried call has happened, saves it, and the reply of that
      call makes it unknown again. */
  lemma StaleVerdictLosesSuccess()
    ensures exists es :: TruthfulRun(START, es) && HasSuccess(Run(START, es), 0, WRITE) && CanLoseSuccess(Run(START, es), 0, WRITE)
  {
    hide Step, Truthful, Fresh, HasSuccess, CanLoseSuccess, Replying, Structure, Run;
    ReplyingIsReachable();
    var es :| TruthfulRun(START, es) && FreshRun(START, es) && Run(START, es) == Replying(LATE);
    StartStructure();
    RunKeeps(START, es);
    LateVerdict();
    WritesAreTruthful(Replying(LATE));
    RunSnoc(START, es, WriteVerdict(0));
  }

  lemma LateVerdict()
    requires Structure(Replying(LATE))
    ensures var next := Step(Replying(LATE), WriteVerdict(0)); HasSuccess(next, 0, WRITE) && CanLoseSuccess(next, 0, WRITE)
  {
    hide Structure, Step, CanLoseSuccess;
    var w := Replying(LATE);
    assert Overwriting(w.workers[0], 0, WRITE);
    StaleSuccessIff(w, 0);
  }

  lemma {:induction false} RunSnoc(w: World, es: seq<Event>, e: Event)
    ensures Run(w, es + [e]) == Step(Run(w, es), e)
    ensures TruthfulRun(w, es) && Truthful(Run(w, es), e) ==> TruthfulRun(w, es + [e])
    decreases |es|
  {
    hide Step, Truthful;
    if es == [] {
      assert es + [e] == [e];
      RunCons(w, e, []);
      assert [e] + [] == [e] && [e][1..] == [];
    } else {
      assert (es + [e])[1..] == es[1..] + [e] && (es + [e])[0] == es[0];
      RunSnoc(Step(w, es[0]), es[1..], e);
    }
  }
}
