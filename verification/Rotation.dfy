/** Rotating a mailbox's managed credential: create, check, activate, revoke, with
    a crash possible between any two steps and other writers kept out only by the
    operation's lock. The mailbox is not deleted meanwhile; deleting looks at the
    operation's target, which an offboarding does not name, and not at its lock. */
module Rotation {

  import Endpoints

  type Protocol = Endpoints.Protocol
  datatype Source = Entered | Issued
  datatype State = Candidate | Active | RevocationPending | Revoked | Retired

  /** `owned`: created by this system, so that it may revoke it. */
  datatype Credential = Credential(source: Source, state: State, generation: nat, owned: bool)

  /** `enabled` is the network mode and the effective network together. */
  datatype Endpoint = Endpoint(enabled: bool, credential: nat)

  /** Where the running program is; lost in a crash. */
  datatype Phase =
    | Idle
    | Started(revision: nat)
    | Created(revision: nat)
    | Checking(revision: nat, view: map<Protocol, Endpoint>, checked: set<Protocol>)
    | Activated
    | Revoking(pending: set<nat>)
    | Verifying(pending: set<nat>, called: nat)

  /** `candidate` is the id saved with the creation step, 0 for none. `passed` are
      the protocol checks the current operation made; `calls` the revocations asked
      of the provider. */
  datatype World = World(
    endpoints: map<Protocol, Endpoint>, credentials: map<nat, Credential>, revision: nat,
    locked: bool, candidate: nat, phase: Phase, passed: set<(Protocol, nat)>, calls: set<nat>)

  const START := World(map[], map[], 1, false, 0, Idle, {}, {})

  /** `COALESCE(MAX(generation),0)+1`. */
  predicate NextGeneration(cs: map<nat, Credential>, g: nat) {
    && g > 0 && (forall c | c in cs :: cs[c].generation < g)
    && (g > 1 ==> exists c | c in cs :: cs[c].generation == g - 1)
  }

  predicate UsesEntered(w: World, ep: Endpoint) {
    ep.credential != w.candidate && ep.credential in w.credentials && w.credentials[ep.credential].source == Entered
  }

  /** The endpoints a rotation must check and point to the new credential. */
  function Wanted(w: World, view: map<Protocol, Endpoint>): set<Protocol> {
    set p | p in view && view[p].enabled && !UsesEntered(w, view[p])
  }

  function Owned(cs: map<nat, Credential>): set<nat> {
    set c | c in cs && cs[c].state == RevocationPending && cs[c].owned
  }

  /** The activation transaction. */
  function Activate(w: World, checked: set<Protocol>): World
    requires w.candidate in w.credentials
  {
    w.(credentials := map c | c in w.credentials ::
         if c == w.candidate then w.credentials[c].(state := Active)
         else if w.credentials[c].source == Issued && w.credentials[c].state == Active then w.credentials[c].(state := RevocationPending)
         else w.credentials[c],
       endpoints := map p | p in w.endpoints :: if p in checked then w.endpoints[p].(credential := w.candidate) else w.endpoints[p],
       revision := w.revision + 1, phase := Activated)
  }

  datatype Event =
    | Lock                                      // the rotation is queued
    | Begin                                     // a worker starts or resumes it
    | Create(id: nat, generation: nat)
    | View
    | PassCheck(p: Protocol)
    | Commit
    | ListOld
    | Revoke(id: nat)                           // the provider call
    | Verified(gone: bool)
    | Fail                                      // error exit, or crash
    | Unlock                                    // succeeded, failed or cancelled
    // other writers, while the lock is free
    | Reconfigure(endpoints: map<Protocol, Endpoint>)
    | AddEntered(id: nat, generation: nat)
    | RetireEntered(id: nat)

  /** An update keeps a credential reference or sets one that is active; enabling a
      protocol for the whole connection keeps the reference. */
  predicate MayReconfigure(w: World, endpoints: map<Protocol, Endpoint>) {
    forall p | p in endpoints ::
      || endpoints[p].credential == 0
      || (p in w.endpoints && endpoints[p].credential == w.endpoints[p].credential)
      || (endpoints[p].credential in w.credentials && w.credentials[endpoints[p].credential].state == Active)
  }

  function Step(w: World, e: Event): World {
    match e
    case Lock => if w.locked then w else w.(locked := true, candidate := 0, phase := Idle, passed := {})
    case Begin => if w.locked && w.phase == Idle then w.(phase := Started(w.revision)) else w
    case Create(id, generation) =>
      if !w.phase.Started? then w
      else if w.candidate != 0 then w.(phase := Created(w.phase.revision))
      else if id == 0 || id in w.credentials || !NextGeneration(w.credentials, generation) then w
      else
        w.(credentials := w.credentials[id := Credential(Issued, Candidate, generation, true)], candidate := id,
           phase := Created(w.phase.revision))
    case View => if w.phase.Created? then w.(phase := Checking(w.phase.revision, w.endpoints, {})) else w
    case PassCheck(p) =>
      if w.phase.Checking? && p in Wanted(w, w.phase.view)
      then w.(phase := w.phase.(checked := w.phase.checked + {p}), passed := w.passed + {(p, w.candidate)}) else w
    case Commit =>
      if !w.phase.Checking? || w.phase.checked != Wanted(w, w.phase.view) || w.phase.checked == {} || w.candidate !in w.credentials then w
      else if w.credentials[w.candidate].state == Active then w.(phase := Activated)
      else if w.revision != w.phase.revision || w.credentials[w.candidate].state != Candidate then w.(phase := Idle)
      else Activate(w, w.phase.checked)
    case ListOld => if w.phase == Activated then w.(phase := Revoking(Owned(w.credentials))) else w
    case Revoke(id) =>
      if w.phase.Revoking? && id in w.phase.pending
      then w.(phase := Verifying(w.phase.pending, id), calls := w.calls + {id}) else w
    case Verified(gone) =>
      if !w.phase.Verifying? then w
      else if !gone then w.(phase := Idle)
      else
        var c := w.phase.called;
        var next := if c in w.credentials && w.credentials[c].state == RevocationPending
                    then w.credentials[c := w.credentials[c].(state := Revoked)] else w.credentials;
        w.(credentials := next, phase := Revoking(w.phase.pending - {c}))
    case Fail => w.(phase := Idle)
    case Unlock => if w.locked && w.phase == Idle then w.(locked := false, candidate := 0) else w
    case Reconfigure(endpoints) =>
      if w.locked || !MayReconfigure(w, endpoints) then w else w.(endpoints := endpoints, revision := w.revision + 1)
    case AddEntered(id, generation) =>
      if w.locked || id == 0 || id in w.credentials || generation == 0 then w
      else w.(credentials := w.credentials[id := Credential(Entered, Active, generation, false)])
    case RetireEntered(id) =>
      if w.locked || id !in w.credentials || w.credentials[id].source != Entered || w.credentials[id].state != Active
         || exists p | p in w.endpoints :: w.endpoints[p].credential == id
      then w
      else w.(credentials := w.credentials[id := w.credentials[id].(state := Retired)])
  }

  function Run(w: World, es: seq<Event>): World
    decreases |es|
  {
    if es == [] then w else Run(Step(w, es[0]), es[1..])
  }

  // ----- invariants -----------------------------------------------------------

  /** Every enabled endpoint keeps an entered credential or points to the checked,
      active replacement. */
  predicate Settled(w: World) {
    forall p | p in w.endpoints && w.endpoints[p].enabled ::
      UsesEntered(w, w.endpoints[p]) || (w.endpoints[p].credential == w.candidate && (p, w.candidate) in w.passed)
  }

  ghost predicate CredentialsOk(w: World) {
    && 0 !in w.credentials
    // one active managed credential at most
    && (forall a, b | a in w.credentials && b in w.credentials && w.credentials[a].source == w.credentials[b].source == Issued
          && w.credentials[a].state == w.credentials[b].state == Active :: a == b)
    // each managed credential has a generation of its own
    && (forall a, b | a in w.credentials && b in w.credentials && a != b && w.credentials[a].source == w.credentials[b].source == Issued ::
          w.credentials[a].generation != w.credentials[b].generation)
    && (forall c | c in w.credentials && w.credentials[c].state == RevocationPending :: w.credentials[c].source == Issued)
  }

  ghost predicate CandidateOk(w: World) {
    && (w.candidate != 0 ==>
          && w.locked && w.candidate in w.credentials && w.credentials[w.candidate].source == Issued
          && w.credentials[w.candidate].state in {Candidate, Active})
    && (w.candidate != 0 && w.credentials[w.candidate].state == Active ==> Settled(w))
  }

  predicate Replaced(w: World) {
    w.candidate != 0 && w.candidate in w.credentials && w.credentials[w.candidate].state == Active
  }

  ghost predicate PhaseOk(w: World) {
    && (w.phase != Idle ==> w.locked)
    && match w.phase
       case Idle => true
       case Started(_) => true
       case Created(_) => w.candidate != 0
       case Checking(_, view, checked) =>
         w.candidate != 0 && view == w.endpoints && checked <= Wanted(w, view) && forall p | p in checked :: (p, w.candidate) in w.passed
       case Activated => Replaced(w)
       case Revoking(pending) => Replaced(w) && pending <= Owned(w.credentials)
       case Verifying(pending, called) => Replaced(w) && pending <= Owned(w.credentials) && called in pending
  }

  ghost predicate Inv(w: World) {
    CredentialsOk(w) && CandidateOk(w) && PhaseOk(w)
  }

  lemma ActivateKeeps(w: World)
    requires Inv(w) && w.phase.Checking? && w.phase.checked == Wanted(w, w.phase.view)
    requires w.credentials[w.candidate].state == Candidate
    ensures Inv(Activate(w, w.phase.checked))
  {
    var w' := Activate(w, w.phase.checked);
    forall p | p in w'.endpoints && w'.endpoints[p].enabled
      ensures UsesEntered(w', w'.endpoints[p]) || (w'.endpoints[p].credential == w'.candidate && (p, w'.candidate) in w'.passed)
    {
      assert p in w.phase.checked || UsesEntered(w, w.endpoints[p]);
    }
  }

  lemma CreateKeeps(w: World, id: nat, generation: nat)
    requires Inv(w)
    ensures Inv(Step(w, Create(id, generation)))
  {
  }

  lemma VerifiedKeeps(w: World, gone: bool)
    requires Inv(w)
    ensures Inv(Step(w, Verified(gone)))
  {
    if w.phase.Verifying? && gone {
      var w' := Step(w, Verified(gone));
      assert forall p | p in w.endpoints :: UsesEntered(w, w.endpoints[p]) ==> UsesEntered(w', w.endpoints[p]);
      assert w.phase.called in Owned(w.credentials) && w.phase.called != w.candidate;
    }
  }

  lemma OthersKeep(w: World, e: Event)
    requires Inv(w) && (e.Reconfigure? || e.AddEntered? || e.RetireEntered?)
    ensures Inv(Step(w, e))
  {
  }

  /** The running program's moves that write no table. */
  lemma PhaseKeeps(w: World, e: Event)
    requires Inv(w) && (e.Begin? || e.View? || e.PassCheck? || e.ListOld? || e.Revoke? || e.Fail?)
    ensures Inv(Step(w, e))
  {
  }

  lemma LockKeeps(w: World, e: Event)
    requires Inv(w) && (e.Lock? || e.Unlock?)
    ensures Inv(Step(w, e))
  {
  }

  lemma RotationCommitKeeps(w: World)
    requires Inv(w)
    ensures Inv(Step(w, Commit))
  {
    if w.phase.Checking? && w.phase.checked == Wanted(w, w.phase.view) && w.credentials[w.candidate].state == Candidate {
      ActivateKeeps(w);
    }
  }

  lemma StepKeeps(w: World, e: Event)
    requires Inv(w)
    ensures Inv(Step(w, e))
  {
    hide Inv, Step;
    match e
    case Create(id, generation) => CreateKeeps(w, id, generation);
    case Verified(gone) => VerifiedKeeps(w, gone);
    case Commit => RotationCommitKeeps(w);
    case Reconfigure(_) => OthersKeep(w, e);
    case AddEntered(_, _) => OthersKeep(w, e);
    case RetireEntered(_) => OthersKeep(w, e);
    case Lock => LockKeeps(w, e);
    case Unlock => LockKeeps(w, e);
    case _ => PhaseKeeps(w, e);
  }

  lemma {:induction false} RunKeeps(w: World, es: seq<Event>)
    requires Inv(w)
    ensures Inv(Run(w, es))
    decreases |es|
  {
    hide Inv, Step;
    if es != [] {
      StepKeeps(w, es[0]);
      RunKeeps(Step(w, es[0]), es[1..]);
    }
  }

  // ----- the promises ---------------------------------------------------------

  /** The provider is asked to revoke a credential only while it is waiting for
      revocation, is this system's own, and no enabled endpoint uses it; by then
      every enabled endpoint has an entered credential or the active replacement,
      with which its protocol passed a check. */
  lemma RevocationIsSafe(es: seq<Event>, id: nat)
    requires Step(Run(START, es), Revoke(id)) != Run(START, es)
    ensures var w := Run(START, es);
            && id in w.credentials && w.credentials[id].state == RevocationPending && w.credentials[id].owned
            && (forall p | p in w.endpoints && w.endpoints[p].enabled ::
                  && w.endpoints[p].credential != id
                  && (UsesEntered(w, w.endpoints[p])
                      || (w.endpoints[p].credential == w.candidate && w.candidate in w.credentials
                          && w.credentials[w.candidate].state == Active && (p, w.candidate) in w.passed)))
  {
    hide Run;
    RunKeeps(START, es);
    var w := Run(START, es);
    assert id in Owned(w.credentials);
  }

  /** At every crash point at most one managed credential is active. */
  lemma OneActiveCredential(es: seq<Event>, a: nat, b: nat)
    requires var cs := Run(START, es).credentials;
             a in cs && b in cs && cs[a].source == cs[b].source == Issued && cs[a].state == cs[b].state == Active
    ensures a == b
  {
    hide Run;
    RunKeeps(START, es);
  }

  /** Credentials stay with their source and generation, and managed ones that are
      new exceed all that were there. */
  ghost predicate Newer(a: map<nat, Credential>, b: map<nat, Credential>) {
    && (forall c | c in a :: c in b && b[c].source == a[c].source && b[c].generation == a[c].generation)
    && (forall c, d | c in a && d in b && d !in a && b[d].source == Issued :: a[c].generation < b[d].generation)
  }

  lemma StepIsNewer(w: World, e: Event)
    ensures Newer(w.credentials, Step(w, e).credentials)
  {
    hide Wanted, Owned, MayReconfigure;
  }

  lemma {:induction false} RunIsNewer(w: World, es: seq<Event>)
    ensures Newer(w.credentials, Run(w, es).credentials)
    decreases |es|
  {
    hide Step;
    if es != [] {
      StepIsNewer(w, es[0]);
      RunIsNewer(Step(w, es[0]), es[1..]);
    }
  }

  lemma {:induction false} RunOn(w: World, a: seq<Event>, b: seq<Event>)
    ensures Run(w, a + b) == Run(Run(w, a), b)
    decreases |a|
  {
    hide Step;
    if a == [] { assert a + b == b; }
    else {
      assert (a + b)[1..] == a[1..] + b;
      RunOn(Step(w, a[0]), a[1..], b);
    }
  }

  /** However a run goes on: a managed credential issued later has a greater generation
      than every credential there was before, entered ones included, and no two
      managed ones ever share one. */
  lemma GenerationsIncrease(es: seq<Event>, more: seq<Event>, c: nat, d: nat)
    requires c in Run(START, es).credentials && d in Run(START, es + more).credentials && c != d
    requires Run(START, es + more).credentials[d].source == Issued
    ensures var before, after := Run(START, es).credentials, Run(START, es + more).credentials;
            && c in after && after[c].generation == before[c].generation
            && (d !in before ==> before[c].generation < after[d].generation)
            && (before[c].source == Issued ==> before[c].generation != after[d].generation)
  {
    hide Run;
    RunKeeps(START, es);
    RunKeeps(START, es + more);
    RunOn(START, es, more);
    RunIsNewer(Run(START, es), more);
  }

  // ----- reading back an uncertain creation or revocation -----------------------

  datatype Login = Accepted | Rejected | NoAnswer
  datatype Verdict = Succeeded | Failed | Undecided

  /** An endpoint and what a login with the credential in question gives there. */
  datatype Trial = Trial(enabled: bool, entered: bool, login: Login)

  predicate Tried(t: Trial) {
    t.enabled && !t.entered
  }

  /** Certain only when every endpoint tried gives the same answer, and some was. */
  method VerifySavedCredential(trials: seq<Trial>, revocation: bool) returns (verdict: Verdict)
    ensures verdict == Succeeded <==>
              (exists t | t in trials :: Tried(t)) && forall t | t in trials && Tried(t) :: t.login == if revocation then Rejected else Accepted
    ensures verdict == Failed <==>
              revocation && (exists t | t in trials :: Tried(t)) && forall t | t in trials && Tried(t) :: t.login == Accepted
  {
    var tested, accepted, rejected := 0, 0, 0;
    for i := 0 to |trials|
      invariant tested == accepted + rejected && accepted >= 0 && rejected >= 0
      invariant tested > 0 <==> exists t | t in trials[..i] :: Tried(t)
      invariant forall t | t in trials[..i] && Tried(t) :: t.login != NoAnswer
      invariant accepted == 0 <==> forall t | t in trials[..i] && Tried(t) :: t.login != Accepted
      invariant rejected == 0 <==> forall t | t in trials[..i] && Tried(t) :: t.login != Rejected
    {
      var trial := trials[i];
      assert forall t :: t in trials[..i + 1] <==> t in trials[..i] || t == trial;
      if !Tried(trial) { continue; }
      tested := tested + 1;
      match trial.login
      case Accepted => accepted := accepted + 1;
      case Rejected => rejected := rejected + 1;
      case NoAnswer => return Undecided;
    }
    assert trials[..|trials|] == trials;
    if tested == 0 { return Undecided; }
    if revocation {
      if rejected == tested { return Succeeded; }
      if accepted == tested { return Failed; }
      return Undecided;
    }
    return if accepted == tested then Succeeded else Undecided;
  }

  // ----- the transactions on the tables -----------------------------------------

  class MailboxCredentials {
    var endpoints: map<Protocol, Endpoint>
    var credentials: map<nat, Credential>
    var revision: nat

    /** `w` is the rotation that holds the mailbox's lock. */
    ghost predicate Holds(w: World)
      reads this
    {
      endpoints == w.endpoints && credentials == w.credentials && revision == w.revision
    }

    /** Old credentials wait for revocation, the candidate becomes active, and each
        checked endpoint is pointed to it. */
    method ActivateCandidate(ghost w: World, candidate: nat, expected: nat, checked: set<Protocol>) returns (ok: bool)
      requires Inv(w) && Holds(w) && w.candidate == candidate && candidate in w.credentials && checked <= endpoints.Keys
      modifies this
      ensures ok <==> w.revision == expected && w.credentials[candidate].state == Candidate
      ensures Holds(if ok then Activate(w, checked) else w)
    {
      if revision != expected || credentials[candidate].state != Candidate { return false; }
      revision := revision + 1;
      credentials := map c | c in credentials ::
        if credentials[c].source == Issued && credentials[c].state == Active && c != candidate
        then credentials[c].(state := RevocationPending) else credentials[c];
      credentials := credentials[candidate := credentials[candidate].(state := Active)];
      var todo := checked;
      while todo != {}
        invariant todo <= checked && endpoints.Keys == w.endpoints.Keys
        invariant revision == w.revision + 1 && credentials == Activate(w, checked).credentials
        invariant forall p | p in endpoints :: endpoints[p] == if p in checked - todo then w.endpoints[p].(credential := candidate) else w.endpoints[p]
        decreases todo
      {
        var p :| p in todo;
        todo := todo - {p};
        endpoints := endpoints[p := endpoints[p].(credential := candidate)];
      }
      return true;
    }

    /** Revokes the old credentials one by one; stops at the first that still
        authenticates. `calls` are the credentials the provider was asked to revoke. */
    method RevokeOld(gone: set<nat>) returns (ok: bool, calls: set<nat>)
      modifies this`credentials
      ensures calls <= Owned(old(credentials)) && credentials.Keys == old(credentials).Keys
      ensures forall c | c in credentials ::
                credentials[c] == if c in calls * gone then old(credentials)[c].(state := Revoked) else old(credentials)[c]
      ensures ok <==> calls == Owned(old(credentials)) && calls <= gone
    {
      var pending := Owned(credentials);
      ok, calls := true, {};
      while pending - calls != {}
        invariant calls <= pending && calls <= gone && credentials.Keys == old(credentials).Keys
        invariant forall c | c in credentials ::
                    credentials[c] == if c in calls then old(credentials)[c].(state := Revoked) else old(credentials)[c]
        decreases pending - calls
      {
        var c :| c in pending - calls;
        calls := calls + {c};
        if c !in gone { return false, calls; }
        credentials := credentials[c := credentials[c].(state := Revoked)];
      }
      assert calls == pending;
    }
  }
}
