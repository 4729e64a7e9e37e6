/** The keys a caller of `QueueOperation` passes in are locked but saved nowhere. A
    retry from failed cannot recompute them all, so a live operation need not own
    every key it was queued with. */
module CallerKeys {

  import opened Wrappers
  import opened Text
  import opened Operations
  import opened OperationRuns
  import opened OperationInvariants
  import opened OperationTheorems

  /** Whoever is queued with `p` owns all its keys while it is live. */
  ghost predicate OwnsAllKeys(p: Payload) {
    forall es, id :: OwnsThem(p, Run(START, es).journal, id)
  }

  ghost predicate OwnsThem(p: Payload, j: Journal, id: OpId) {
    id in j.operations && j.operations[id].payload == p && Live(j.operations[id].status)
    ==> forall k | k in QueuedKeys(p) :: k in j.locks && j.locks[k] == id
  }

  /** Exactly when the operation has a stored plan, which cannot fail, or a retry
      recomputes every key the caller passed in. */
  lemma OwnsAllKeysIff(p: Payload)
    ensures OwnsAllKeys(p) <==> p.Planned? || Elements(p.caller) <= RecomputedKeys(p)
  {
    hide QueuedKeys, RecomputedKeys, Run;
    QueuedAreRecomputed(p);
    if p.Planned? || Elements(p.caller) <= RecomputedKeys(p) {
      forall es, id ensures OwnsThem(p, Run(START, es).journal, id) {
        var j := Run(START, es).journal;
        if id in j.operations && j.operations[id].payload == p && Live(j.operations[id].status) {
          forall k | k in QueuedKeys(p) ensures k in j.locks && j.locks[k] == id { LiveOwnsItsKeys(es, id, k); }
        }
      }
    } else {
      var x :| x in p.caller && x !in RecomputedKeys(p);
      var es := RetryForgets(p, x);
      assert !OwnsThem(p, Run(START, es).journal, 0) by { CallerKeyIsQueued(p, x); }
    }
  }

  /** `POST /api/admin/connections/007/discover`: the path value is locked as it is
      written, next to the key of connection 7. */
  lemma LeadingZeroLosesKey()
    ensures !OwnsAllKeys(Local(7, 0, ["connection:007"]))
  {
    hide RecomputedKeys, OwnsAllKeys;
    var p := Local(7, 0, ["connection:007"]);
    OneRecomputed(p);
    assert "connection:007" in Elements(p.caller);
    OwnsAllKeysIff(p);
  }

  lemma OneRecomputed(p: Payload)
    requires p.Local? && p.connection == 7 && p.mailbox == 0
    ensures forall k | k in RecomputedKeys(p) :: |k| == |"connection:7"|
  {
    hide Sort, Digits;
    var keys := ConnectionKeys(7) + MailboxKeys(0) + DomainKeys(p) + [];
    SortElements(keys);
    SevenIsOneDigit();
    assert keys == ["connection:" + Digits(7)];
  }

  lemma SevenIsOneDigit()
    ensures |Digits(7)| == 1
  {
  }

  // ----- the run ------------------------------------------------------------------

  const ASKED := RequestKey(1, "r")

  function Only(op: Operation, locks: map<Key, OpId>, workers: map<nat, Worker>, claims: nat): World {
    World(Journal(map[0 := op], map[ASKED := Saved(0, "d")], locks), workers, map[], map[0 := Remote(map[], claims, 0)])
  }

  function OneStep(s: Status, p: Payload, x: StepStatus, held: set<Key>): Operation {
    Operation(s, p, true, map[Execute := x], held)
  }

  function Busy(phase: Phase): map<nat, Worker> {
    map[0 := Worker(0, phase)]
  }

  const REFUSED := Typed("invalid")

  function RetryOf(p: Payload): Event {
    if p.Local? then RetryLocal(0, true) else RetryRemote(0, [], true)
  }

  lemma CallerKeyIsQueued(p: Payload, x: Key)
    requires !p.Planned? && x in p.caller
    ensures x in QueuedKeys(p)
  {
    hide QueuedKeys, RetryKeys;
    RetryKeysMatch(p, []);
  }

  lemma QueueIt(p: Payload)
    requires !p.Planned?
    ensures Step(START, Queue(ASKED, "d", 0, p, true))
         == Only(OneStep(Queued, p, StepPending, QueuedKeys(p)), Acquire(map[], QueuedKeys(p), 0), map[], 0)
  {
    hide QueueKeys, QueuedKeys;
  }

  /** A worker's move on the one operation. */
  lemma MoveIt(op: Operation, next: Operation, locks: map<Key, OpId>, phase: Phase, after: Phase, e: Event)
    requires (JournalMove(e) || ProgramMove(e)) && e.worker == 0
    requires var w := Only(op, locks, Busy(phase), 1); WorkerStep(w, e) == Advance(w, 0, next, after)
    ensures Step(Only(op, locks, Busy(phase), 1), e) == Only(next, locks, Busy(after), 1)
  {
    hide WorkerStep, AdminStep, ReaderStep, QueueStep, ClaimStep, OpenReaderStep, RecoverTx;
    assert Busy(phase)[0 := Worker(0, after)] == Busy(after);
  }

  lemma RunIt(p: Payload, keys: set<Key>, locks: map<Key, OpId>)
    requires !p.Planned?
    ensures Step(Only(OneStep(Queued, p, StepPending, keys), locks, map[], 0), Claim(0, 0))
         == Only(OneStep(Running, p, StepPending, keys), locks, Busy(Claimed), 1)
    ensures Step(Only(OneStep(Running, p, StepPending, keys), locks, Busy(Claimed), 1), Begin(0))
         == Only(OneStep(Running, p, StepRunning, keys), locks, Busy(Program), 1)
    ensures Step(Only(OneStep(Running, p, StepRunning, keys), locks, Busy(Program), 1), Return(0, REFUSED))
         == Only(OneStep(Running, p, StepRunning, keys), locks, Busy(Finishing(REFUSED)), 1)
  {
    hide AdminStep, ReaderStep, QueueStep, RecoverTx, Step;
    ClaimsIt(p, keys, locks);
    assert map[Execute := StepPending][Execute := StepRunning] == map[Execute := StepRunning];
    MoveIt(OneStep(Running, p, StepPending, keys), OneStep(Running, p, StepRunning, keys), locks, Claimed, Program, Begin(0));
    MoveIt(OneStep(Running, p, StepRunning, keys), OneStep(Running, p, StepRunning, keys), locks, Program, Finishing(REFUSED), Return(0, REFUSED));
  }

  lemma ClaimsIt(p: Payload, keys: set<Key>, locks: map<Key, OpId>)
    ensures Step(Only(OneStep(Queued, p, StepPending, keys), locks, map[], 0), Claim(0, 0))
         == Only(OneStep(Running, p, StepPending, keys), locks, Busy(Claimed), 1)
  {
    hide WorkerStep, AdminStep, ReaderStep, QueueStep, RecoverTx;
  }

  lemma FailIt(p: Payload, keys: set<Key>, locks: map<Key, OpId>)
    requires !p.Planned?
    ensures Step(Only(OneStep(Running, p, StepRunning, keys), locks, Busy(Finishing(REFUSED)), 1), Conclude(0, false))
         == Only(OneStep(Running, p, StepRunning, keys), locks, Busy(Sealing(Failed)), 1)
  {
    hide Step;
    var op := OneStep(Running, p, StepRunning, keys);
    assert !HasEffects(op);
    MoveIt(op, op, locks, Finishing(REFUSED), Sealing(Failed), Conclude(0, false));
  }

  lemma SealIt(p: Payload, keys: set<Key>, locks: map<Key, OpId>)
    ensures Step(Only(OneStep(Running, p, StepRunning, keys), locks, Busy(Sealing(Failed)), 1), Seal(0))
         == Only(OneStep(Failed, p, StepFailed, keys), Release(locks, 0), map[], 1)
  {
    hide AdminStep, ReaderStep, QueueStep, ClaimStep, OpenReaderStep, RecoverTx, Release;
    assert map[Execute := StepRunning][Execute := StepFailed] == map[Execute := StepFailed];
    assert Busy(Sealing(Failed)) - {0} == map[];
  }

  lemma RetryItLocal(p: Payload, keys: set<Key>)
    requires p.Local?
    ensures Step(Only(OneStep(Failed, p, StepFailed, keys), map[], map[], 1), RetryLocal(0, true))
         == Only(OneStep(Queued, p, StepPending, RecomputedKeys(p)), Acquire(map[], RecomputedKeys(p), 0), map[], 1)
  {
    hide WorkerStep, ReaderStep, QueueStep, ClaimStep, OpenReaderStep, RecoverTx, RetryKeys, Acquire;
    var op := OneStep(Failed, p, StepFailed, keys);
    assert MoveSteps(op, {StepFailed, StepPending}, StepPending).steps == map[Execute := StepPending];
  }

  lemma RetryItRemote(p: Payload, keys: set<Key>)
    requires !p.Local? && !p.Planned?
    ensures Step(Only(OneStep(Failed, p, StepFailed, keys), map[], map[], 1), RetryRemote(0, [], true))
         == Only(OneStep(Queued, p, StepPending, RecomputedKeys(p)), Acquire(map[], RecomputedKeys(p), 0), map[], 1)
  {
    hide WorkerStep, ReaderStep, QueueStep, ClaimStep, OpenReaderStep, RecoverTx, RetryKeys, Acquire;
    var op := OneStep(Failed, p, StepFailed, keys);
    assert MoveSteps(op, {StepFailed}, StepPending).steps == map[Execute := StepPending];
    assert !AnyInDoubt(op);
  }

  lemma RetryIt(p: Payload, keys: set<Key>)
    requires !p.Planned?
    ensures Step(Only(OneStep(Failed, p, StepFailed, keys), map[], map[], 1), RetryOf(p))
         == Only(OneStep(Queued, p, StepPending, RecomputedKeys(p)), Acquire(map[], RecomputedKeys(p), 0), map[], 1)
  {
    hide Step, RecomputedKeys, Acquire;
    if p.Local? { RetryItLocal(p, keys); } else { RetryItRemote(p, keys); }
  }

  lemma RetryForgets(p: Payload, x: Key) returns (es: seq<Event>)
    requires !p.Planned? && x in p.caller && x !in RecomputedKeys(p)
    ensures var j := Run(START, es).journal;
            0 in j.operations && j.operations[0].payload == p && Live(j.operations[0].status) && x !in j.locks
  {
    hide Step, QueuedKeys, RecomputedKeys;
    var e0, e1, e2, e3, e4, e5, e6 := Queue(ASKED, "d", 0, p, true), Claim(0, 0), Begin(0), Return(0, REFUSED), Conclude(0, false), Seal(0), RetryOf(p);
    var keys := QueuedKeys(p);
    var locks := Acquire(map[], keys, 0);
    QueueIt(p);
    RunIt(p, keys, locks);
    FailIt(p, keys, locks);
    SealIt(p, keys, locks);
    assert Release(locks, 0) == map[];
    RetryIt(p, keys);
    es := [e0] + ([e1] + ([e2] + ([e3] + ([e4] + ([e5] + ([e6] + []))))));
    var last := Step(Only(OneStep(Failed, p, StepFailed, keys), map[], map[], 1), e6);
    RunCons(Only(OneStep(Failed, p, StepFailed, keys), map[], map[], 1), e6, []);
    RunCons(Only(OneStep(Running, p, StepRunning, keys), locks, Busy(Sealing(Failed)), 1), e5, [e6] + []);
    RunCons(Only(OneStep(Running, p, StepRunning, keys), locks, Busy(Finishing(REFUSED)), 1), e4, [e5] + ([e6] + []));
    RunCons(Only(OneStep(Running, p, StepRunning, keys), locks, Busy(Program), 1), e3, [e4] + ([e5] + ([e6] + [])));
    RunCons(Only(OneStep(Running, p, StepPending, keys), locks, Busy(Claimed), 1), e2, [e3] + ([e4] + ([e5] + ([e6] + []))));
    RunCons(Only(OneStep(Queued, p, StepPending, keys), locks, map[], 0), e1, [e2] + ([e3] + ([e4] + ([e5] + ([e6] + [])))));
    RunCons(START, e0, [e1] + ([e2] + ([e3] + ([e4] + ([e5] + ([e6] + []))))));
    assert Run(last, []) == last;
  }
}
