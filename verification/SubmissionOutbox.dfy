/** The outbox as the program updates it: rows changed by compare-and-set, the set
    of busy mailboxes kept by the dispatcher, and one execution from claim to
    cleanup; and a run in which identical folders lose a message. */
module SubmissionOutbox {

  import opened Wrappers
  import opened Submissions
  import opened SubmissionProofs

  // ----- the dispatcher -------------------------------------------------------

  datatype Pending = Pending(id: Id, mailbox: nat)

  /** Which of the queued submissions are started, in order, and the mailboxes busy then. */
  function Dispatch(active: set<nat>, pending: seq<Pending>): (seq<Pending>, set<nat>)
    decreases |pending|
  {
    if pending == [] then ([], active)
    else if MayLaunch(active, pending[0].mailbox) then
      var (rest, busy) := Dispatch(active + {pending[0].mailbox}, pending[1..]);
      ([pending[0]] + rest, busy)
    else Dispatch(active, pending[1..])
  }

  function MailboxesOf(ps: seq<Pending>): set<nat> {
    set p | p in ps :: p.mailbox
  }

  /** What one pass of the dispatcher guarantees. */
  ghost predicate Fair(active: set<nat>, pending: seq<Pending>, started: seq<Pending>, busy: set<nat>) {
    && |busy| <= CAP && busy == active + MailboxesOf(started) && |busy| == |active| + |started|
    && (forall i, k | 0 <= i < k < |started| :: started[i].mailbox != started[k].mailbox)
    && (forall p | p in started :: p in pending && p.mailbox !in active)
    && (forall p | p in pending && p !in started :: |busy| == CAP || p.mailbox in busy)
  }

  /** The cap holds, no started mailbox was busy or is started twice, the busy set
      grows by exactly the started ones, and what was passed over had to wait. */
  lemma {:induction false} DispatchIsFair(active: set<nat>, pending: seq<Pending>)
    requires |active| <= CAP
    ensures Fair(active, pending, Dispatch(active, pending).0, Dispatch(active, pending).1)
    decreases |pending|
  {
    if pending != [] {
      hide Fair;
      var p := pending[0];
      if MayLaunch(active, p.mailbox) {
        DispatchIsFair(active + {p.mailbox}, pending[1..]);
        var (rest, busy) := Dispatch(active + {p.mailbox}, pending[1..]);
        FairStart(active, pending, rest, busy);
      } else {
        DispatchIsFair(active, pending[1..]);
        FairSkip(active, pending, Dispatch(active, pending[1..]).0, Dispatch(active, pending[1..]).1);
      }
    }
  }

  lemma MailboxesCons(p: Pending, rest: seq<Pending>)
    ensures MailboxesOf([p] + rest) == {p.mailbox} + MailboxesOf(rest)
  {
    var all := [p] + rest;
    forall m ensures m in MailboxesOf(all) <==> m in {p.mailbox} + MailboxesOf(rest) {
      if m in MailboxesOf(all) {
        var q :| q in all && q.mailbox == m;
        assert q == p || q in rest;
      }
      if m in MailboxesOf(rest) {
        var q :| q in rest && q.mailbox == m;
        assert q in all;
      }
      assert p in all;
    }
  }

  lemma DistinctCons(p: Pending, rest: seq<Pending>)
    requires forall i, k | 0 <= i < k < |rest| :: rest[i].mailbox != rest[k].mailbox
    requires forall q | q in rest :: q.mailbox != p.mailbox
    ensures var all := [p] + rest; forall i, k | 0 <= i < k < |all| :: all[i].mailbox != all[k].mailbox
  {
    var all := [p] + rest;
    forall i, k | 0 <= i < k < |all| ensures all[i].mailbox != all[k].mailbox {
      assert all[k] == rest[k - 1] && rest[k - 1] in rest;
      if i > 0 { assert all[i] == rest[i - 1]; }
    }
  }

  lemma FairStart(active: set<nat>, pending: seq<Pending>, rest: seq<Pending>, busy: set<nat>)
    requires pending != [] && pending[0].mailbox !in active
    requires Fair(active + {pending[0].mailbox}, pending[1..], rest, busy)
    ensures Fair(active, pending, [pending[0]] + rest, busy)
  {
    hide MailboxesOf;
    var p := pending[0];
    MailboxesCons(p, rest);
    DistinctCons(p, rest);
    forall q | q in [p] + rest ensures q in pending && q.mailbox !in active {
      if q != p { assert q in rest; }
    }
    forall q | q in pending && q !in [p] + rest ensures |busy| == CAP || q.mailbox in busy {
      assert q != p && q !in rest && q in pending[1..];
    }
  }

  lemma FairSkip(active: set<nat>, pending: seq<Pending>, started: seq<Pending>, busy: set<nat>)
    requires pending != [] && !MayLaunch(active, pending[0].mailbox) && |active| <= CAP
    requires Fair(active, pending[1..], started, busy)
    ensures Fair(active, pending, started, busy)
  {
    assert forall q :: q in pending <==> q == pending[0] || q in pending[1..];
    assert active <= busy;
  }

  // ----- one execution --------------------------------------------------------

  /** What the execution meets on its way. */
  datatype Found = Nothing | Copy(uid: Uid, sameDigest: bool) | Trouble
  datatype Path = Path(
    checks: bool,          // session, access, version and decryption checks pass
    draftGood: bool,       // the staged bytes are there and have the reserved digest
    guards: bool,          // SMTP endpoint, identity and mark checks pass
    smtp: SmtpStatus,      // what the SMTP call returned
    found: Found,          // the search for a Sent copy
    stored: Option<Uid>)   // where the appended copy was found, if it was

  class Outbox {
    var rows: map<Id, Row>
    var requests: map<RequestKey, Saved>
    var active: set<nat>

    constructor ()
      ensures rows == map[] && requests == map[] && active == {}
    {
      rows, requests, active := map[], map[], {};
    }

    method ReserveSubmission(rk: RequestKey, digest: string, id: Id, p: Plan, valid: bool) returns (result: ReserveResult)
      modifies this`rows, this`requests
      ensures (rows, requests, result) == Reserve(old(rows), old(requests), rk, digest, id, p, valid)
    {
      if p.staging == "" || p.digest == "" || (p.mode == Append && p.sentFolder == "") {
        return Rejected;
      }
      if rk in requests {
        return if requests[rk].digest == digest then Repeated(requests[rk].id) else DigestConflict;
      }
      if !valid || id in rows || rk.mailbox != p.mailbox {
        return Rejected;
      }
      rows := rows[id := NewRow(p)];
      requests := requests[rk := Saved(id, digest)];
      result := Created;
    }

    method CompleteSubmissionStaging(id: Id, located: Option<Uid>) returns (ok: bool)
      requires id in rows
      modifies this`rows
      ensures ok <==> old(rows)[id].status == Preparing
      ensures rows == old(rows)[id := CompleteStaging(old(rows)[id], located)]
    {
      var r := rows[id];
      ok := r.status == Preparing;
      if ok {
        rows := rows[id := if located.Some? then r.(status := Queued, draft := located) else r.(status := Unknown, draft := None)];
      }
      assert rows == old(rows)[id := CompleteStaging(old(rows)[id], located)];
    }

    /** The recovery transaction, one bulk update after the other. */
    method StartSubmissions() returns (preparing: set<Id>)
      modifies this`rows
      ensures preparing == set id | id in old(rows) && old(rows)[id].status == Preparing
      ensures rows == map id | id in old(rows) :: Recover(old(rows)[id])
    {
      hide RecoverSubmitting, RecoverAccepted, RecoverRest;
      preparing := set id | id in rows && rows[id].status == Preparing;
      rows := map id | id in rows :: RecoverSubmitting(rows[id]);
      rows := map id | id in rows :: RecoverAccepted(rows[id]);
      rows := map id | id in rows :: RecoverRest(rows[id]);
    }

    /** One pass over the queued submissions. */
    method DispatchQueued(pending: seq<Pending>) returns (started: seq<Pending>)
      requires |active| <= CAP
      modifies this`active
      ensures (started, active) == Dispatch(old(active), pending)
      ensures |active| <= CAP
    {
      started := [];
      assert pending[0..] == pending && [] + Dispatch(active, pending).0 == Dispatch(active, pending).0;
      for i := 0 to |pending|
        invariant |active| <= CAP
        invariant Dispatch(old(active), pending) == (started + Dispatch(active, pending[i..]).0, Dispatch(active, pending[i..]).1)
      {
        assert pending[i..][1..] == pending[i + 1..];
        if |active| >= CAP || pending[i].mailbox in active {
          continue;
        }
        var rest := Dispatch(active + {pending[i].mailbox}, pending[i + 1..]).0;
        assert started + ([pending[i]] + rest) == (started + [pending[i]]) + rest;
        active := active + {pending[i].mailbox};
        started := started + [pending[i]];
      }
      assert started + [] == started;
    }

    method RetrySubmissionSentCopy(id: Id) returns (ok: bool)
      requires id in rows
      modifies this`rows
      ensures ok <==> old(rows)[id].status == SentCopyFailed && old(rows)[id].smtp == SmtpAccepted
      ensures rows == old(rows)[id := RetrySentCopy(old(rows)[id])]
    {
      ok := rows[id].status == SentCopyFailed && rows[id].smtp == SmtpAccepted;
      if ok { rows := rows[id := rows[id].(status := Queued)]; }
      assert rows == old(rows)[id := RetrySentCopy(old(rows)[id])];
    }

    method Save(id: Id, r: Row)
      modifies this`rows
      ensures rows == old(rows)[id := r]
    {
      rows := rows[id := r];
    }

    /** A whole execution with every save succeeding. SMTP is called only on a row
        that says it was not; `sent` is recorded only after acceptance and, in
        append mode, only with a copy that has the reserved digest. */
    method ExecuteSubmission(id: Id, path: Path) returns (called: bool)
      requires id in rows && Legal(rows[id]) && path.smtp in {SmtpAccepted, SmtpRejected, SmtpUnknown}
      modifies this`rows
      ensures rows.Keys == old(rows).Keys && rows[id].plan == old(rows)[id].plan && Legal(rows[id])
      ensures forall x | x in rows && x != id :: rows[x] == old(rows)[x]
      ensures called <==> old(rows)[id].status == Queued && old(rows)[id].smtp == SmtpNotStarted
                          && path.checks && old(rows)[id].draft.Some? && path.draftGood && path.guards
      ensures called ==> rows[id].smtp == path.smtp
      ensures !called ==> rows[id].smtp == old(rows)[id].smtp
      ensures old(rows)[id].status == Queued ==> rows[id].status in {Sent, SentCopyFailed, Failed, Unknown}
      ensures old(rows)[id].status == Queued ==>
        (rows[id].status == Sent <==>
          && path.checks && old(rows)[id].draft.Some? && path.draftGood && rows[id].smtp == SmtpAccepted
          && (old(rows)[id].plan.mode == Append ==> match path.found
                                                   case Nothing => path.stored.Some?
                                                   case Copy(_, same) => same
                                                   case Trouble => false))
      ensures old(rows)[id].status != Queued ==> rows == old(rows)
    {
      called := false;
      var r := rows[id];
      if r.status != Queued {
        return;
      }
      r := r.(status := Running);
      Save(id, r);
      var smtp, sent := r.smtp, r.sent;
      if !path.checks || r.draft.None? || !path.draftGood {
        Save(id, FailRow(r, smtp, sent));
        return;
      }
      if smtp != SmtpAccepted {
        if smtp != SmtpNotStarted || !path.guards {
          Save(id, FailRow(r, smtp, sent));
          return;
        }
        r := r.(smtp := SmtpSubmitting);
        Save(id, r);
        called := true;
        smtp := path.smtp;
        if smtp != SmtpAccepted {
          Save(id, Persist(r, if smtp == SmtpUnknown then Unknown else Failed, smtp, SentNotStarted, None));
          return;
        }
        r := Persist(r, Running, SmtpAccepted, SentNotStarted, None);
        Save(id, r);
      }
      if r.plan.mode == Server {
        Save(id, Persist(r, Sent, SmtpAccepted, SentServerManaged, None));
        return;
      }
      if path.found.Trouble? || (path.found.Copy? && !path.found.sameDigest) {
        Save(id, FailRow(r, smtp, sent));
        return;
      }
      var locator := None;
      if path.found.Copy? {
        locator := Some(path.found.uid);
      } else {
        r := Persist(r, Running, SmtpAccepted, SentSaving, None);
        Save(id, r);
        sent := SentSaving;
        locator := path.stored;
        if locator.None? {
          Save(id, FailRow(r, smtp, sent));
          return;
        }
      }
      Save(id, Persist(r, Sent, SmtpAccepted, SentSaved, locator));
    }
  }

  // ----- identical folders ----------------------------------------------------

  const SAME := Plan(1, Append, "Sent", "Sent", "bytes")
  const KEY := RequestKey(1, 1, "r")

  function Scene(r: Row, messages: map<Uid, Message>, nextUid: Uid, executions: map<nat, Execution>, handoffs: map<Id, nat>): World {
    World(map[0 := r], map[KEY := Saved(0, "d")], messages, nextUid, executions, Mailboxes(executions), {}, handoffs)
  }

  function Worker(phase: Phase, smtp: SmtpStatus): map<nat, Execution> {
    map[0 := Execution(0, 1, phase, smtp, SentNotStarted)]
  }

  /** A run can continue from `w` to a sent row of which no folder holds a copy. */
  ghost predicate CanLose(w: World) {
    exists es, id :: Lost(Run(w, es), id)
  }

  predicate Lost(w: World, id: Id) {
    id in w.rows && w.rows[id].status == Sent && w.rows[id].plan.mode == Append && forall u | u in w.messages :: w.messages[u].id != id
  }

  lemma LosesOn(w: World, e: Event, next: World)
    requires Step(w, e) == next && CanLose(next)
    ensures CanLose(w)
  {
    hide Step, Lost;
    var es, id :| Lost(Run(next, es), id);
    var all := [e] + es;
    assert all[1..] == es;
    assert Lost(Run(w, all), id);
  }

  const DRAFT := map[0 := Message(0, "Sent", "bytes")]
  const READY := Row(SAME, Running, SmtpNotStarted, SentNotStarted, Some(0), None)
  const HANDED := READY.(smtp := SmtpAccepted)

  lemma DoReserve()
    ensures Step(START, ReserveIt(KEY, "d", 0, SAME, true)) == Scene(NewRow(SAME), map[], 0, map[], map[])
  {
  }

  lemma DoStage()
    ensures Step(Scene(NewRow(SAME), map[], 0, map[], map[]), Stage(0)) == Scene(NewRow(SAME), DRAFT, 1, map[], map[])
  {
    assert Copies(map[], 0, "Sent") == {};
  }

  const QUEUED := NewRow(SAME).(status := Queued, draft := Some(0))

  lemma DoStaged()
    ensures Step(Scene(NewRow(SAME), DRAFT, 1, map[], map[]), Staged(0, Some(0))) == Scene(QUEUED, DRAFT, 1, map[], map[])
  {
  }

  lemma DoLaunch()
    ensures Step(Scene(QUEUED, DRAFT, 1, map[], map[]), Launch(0, 0)) == Scene(QUEUED, DRAFT, 1, Worker(Launched, SmtpNotStarted), map[])
  {
    assert Mailboxes(map[]) == {};
    assert Mailboxes(Worker(Launched, SmtpNotStarted)) == {1} by { Busy(Launched, SmtpNotStarted); }
  }

  lemma Busy(phase: Phase, smtp: SmtpStatus)
    ensures Mailboxes(Worker(phase, smtp)) == {1}
  {
    assert Worker(phase, smtp)[0].mailbox == 1;
  }

  /** A move of the one execution that stays in its place. */
  lemma DoMove(e: Event, r: Row, phase: Phase, smtp: SmtpStatus, r': Row, phase': Phase, smtp': SmtpStatus, n: map<Id, nat>, n': map<Id, nat>)
    requires ExecutionMove(e) && e.g == 0
    requires var w := Scene(r, DRAFT, 1, Worker(phase, smtp), n);
             ExecutionStep(w, e) == Put(w, 0, r', Execution(0, 1, phase', smtp', SentNotStarted)).(handoffs := n')
    ensures Step(Scene(r, DRAFT, 1, Worker(phase, smtp), n), e) == Scene(r', DRAFT, 1, Worker(phase', smtp'), n')
  {
    hide ExecutionStep;
    Busy(phase, smtp);
    Busy(phase', smtp');
    var w := Scene(r, DRAFT, 1, Worker(phase, smtp), n);
    assert w.rows[0 := r'] == map[0 := r'] && w.executions[0 := Execution(0, 1, phase', smtp', SentNotStarted)] == Worker(phase', smtp');
  }

  const MARKED := READY.(smtp := SmtpSubmitting)
  const DELIVERED := HANDED.(status := Sent, sent := SentSaved, locator := Some(0))

  lemma DoPrepare()
    ensures Step(Scene(QUEUED, DRAFT, 1, Worker(Launched, SmtpNotStarted), map[]), Begin(0, true))
         == Scene(READY, DRAFT, 1, Worker(Loaded, SmtpNotStarted), map[])
    ensures Step(Scene(READY, DRAFT, 1, Worker(Loaded, SmtpNotStarted), map[]), ReadDraft(0))
         == Scene(READY, DRAFT, 1, Worker(DraftRead, SmtpNotStarted), map[])
    ensures Step(Scene(READY, DRAFT, 1, Worker(DraftRead, SmtpNotStarted), map[]), Mark(0, true))
         == Scene(MARKED, DRAFT, 1, Worker(Submitting, SmtpNotStarted), map[])
  {
    hide Step;
    DoMove(Begin(0, true), QUEUED, Launched, SmtpNotStarted, READY, Loaded, SmtpNotStarted, map[], map[]);
    DoMove(ReadDraft(0), READY, Loaded, SmtpNotStarted, READY, DraftRead, SmtpNotStarted, map[], map[]);
    DoMove(Mark(0, true), READY, DraftRead, SmtpNotStarted, MARKED, Submitting, SmtpNotStarted, map[], map[]);
  }

  lemma DoHandOver()
    ensures Step(Scene(MARKED, DRAFT, 1, Worker(Submitting, SmtpNotStarted), map[]), Submit(0, SmtpAccepted))
         == Scene(MARKED, DRAFT, 1, Worker(Submitted(SmtpAccepted), SmtpAccepted), map[0 := 1])
    ensures Step(Scene(MARKED, DRAFT, 1, Worker(Submitted(SmtpAccepted), SmtpAccepted), map[0 := 1]), SaveSubmit(0, true))
         == Scene(HANDED, DRAFT, 1, Worker(Accepted, SmtpAccepted), map[0 := 1])
  {
    hide Step;
    DoMove(Submit(0, SmtpAccepted), MARKED, Submitting, SmtpNotStarted, MARKED, Submitted(SmtpAccepted), SmtpAccepted, map[], map[0 := 1]);
    DoMove(SaveSubmit(0, true), MARKED, Submitted(SmtpAccepted), SmtpAccepted, HANDED, Accepted, SmtpAccepted, map[0 := 1], map[0 := 1]);
  }

  lemma DoFind()
    ensures Step(Scene(HANDED, DRAFT, 1, Worker(Accepted, SmtpAccepted), map[0 := 1]), Find(0, true))
         == Scene(HANDED, DRAFT, 1, Worker(Located(0), SmtpAccepted), map[0 := 1])
  {
    hide Step;
    assert Copies(DRAFT, 0, "Sent") == {0};
    assert Only({0}) == 0 by { assert 0 in {0}; }
    DoMove(Find(0, true), HANDED, Accepted, SmtpAccepted, HANDED, Located(0), SmtpAccepted, map[0 := 1], map[0 := 1]);
  }

  lemma DoSaveSent()
    ensures Step(Scene(HANDED, DRAFT, 1, Worker(Located(0), SmtpAccepted), map[0 := 1]), SaveSent(0, true))
         == Scene(DELIVERED, DRAFT, 1, Worker(Cleaning, SmtpAccepted), map[0 := 1])
  {
    hide Step;
    DoMove(SaveSent(0, true), HANDED, Located(0), SmtpAccepted, DELIVERED, Cleaning, SmtpAccepted, map[0 := 1], map[0 := 1]);
  }

  lemma DoCleanup()
    ensures CanLose(Scene(DELIVERED, DRAFT, 1, Worker(Cleaning, SmtpAccepted), map[0 := 1]))
  {
    var w := Scene(DELIVERED, DRAFT, 1, Worker(Cleaning, SmtpAccepted), map[0 := 1]);
    var after := Step(w, Cleanup(0, true));
    assert DRAFT - {0} == map[];
    assert Lost(Run(after, []), 0);
    LosesOn(w, Cleanup(0, true), after);
  }

  /** With one folder for drafts and sent mail, an accepted message ends up sent and nowhere. */
  lemma SameFolderLoses()
    ensures CanLose(START)
  {
    hide CanLose, Step, Scene, Worker;
    DoCleanup();
    DoSaveSent();
    LosesOn(Scene(HANDED, DRAFT, 1, Worker(Located(0), SmtpAccepted), map[0 := 1]), SaveSent(0, true),
            Scene(DELIVERED, DRAFT, 1, Worker(Cleaning, SmtpAccepted), map[0 := 1]));
    DoFind();
    LosesOn(Scene(HANDED, DRAFT, 1, Worker(Accepted, SmtpAccepted), map[0 := 1]), Find(0, true),
            Scene(HANDED, DRAFT, 1, Worker(Located(0), SmtpAccepted), map[0 := 1]));
    DoHandOver();
    LosesOn(Scene(MARKED, DRAFT, 1, Worker(Submitted(SmtpAccepted), SmtpAccepted), map[0 := 1]), SaveSubmit(0, true),
            Scene(HANDED, DRAFT, 1, Worker(Accepted, SmtpAccepted), map[0 := 1]));
    LosesOn(Scene(MARKED, DRAFT, 1, Worker(Submitting, SmtpNotStarted), map[]), Submit(0, SmtpAccepted),
            Scene(MARKED, DRAFT, 1, Worker(Submitted(SmtpAccepted), SmtpAccepted), map[0 := 1]));
    DoPrepare();
    LosesOn(Scene(READY, DRAFT, 1, Worker(DraftRead, SmtpNotStarted), map[]), Mark(0, true),
            Scene(MARKED, DRAFT, 1, Worker(Submitting, SmtpNotStarted), map[]));
    LosesOn(Scene(READY, DRAFT, 1, Worker(Loaded, SmtpNotStarted), map[]), ReadDraft(0),
            Scene(READY, DRAFT, 1, Worker(DraftRead, SmtpNotStarted), map[]));
    LosesOn(Scene(QUEUED, DRAFT, 1, Worker(Launched, SmtpNotStarted), map[]), Begin(0, true),
            Scene(READY, DRAFT, 1, Worker(Loaded, SmtpNotStarted), map[]));
    DoLaunch();
    LosesOn(Scene(QUEUED, DRAFT, 1, map[], map[]), Launch(0, 0), Scene(QUEUED, DRAFT, 1, Worker(Launched, SmtpNotStarted), map[]));
    DoStaged();
    LosesOn(Scene(NewRow(SAME), DRAFT, 1, map[], map[]), Staged(0, Some(0)), Scene(QUEUED, DRAFT, 1, map[], map[]));
    DoStage();
    LosesOn(Scene(NewRow(SAME), map[], 0, map[], map[]), Stage(0), Scene(NewRow(SAME), DRAFT, 1, map[], map[]));
    DoReserve();
    LosesOn(START, ReserveIt(KEY, "d", 0, SAME, true), Scene(NewRow(SAME), map[], 0, map[], map[]));
  }
}
