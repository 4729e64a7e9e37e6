/** What holds of the outbox in every reachable state. */
module SubmissionProofs {

  import opened Wrappers
  import opened Submissions

  // ----- one row --------------------------------------------------------------

  /** The legal combinations of the three statuses. */
  predicate Legal(r: Row) {
    match r.status
    case Preparing => r.smtp == SmtpNotStarted && r.sent == SentNotStarted && r.draft.None?
    case Queued =>
      || (r.smtp == SmtpNotStarted && r.sent == SentNotStarted)
      || (r.smtp == SmtpAccepted && r.sent in {SentNotStarted, SentFailed, SentUnknown})
    case Running =>
      || (r.smtp in {SmtpNotStarted, SmtpSubmitting} && r.sent == SentNotStarted)
      || (r.smtp == SmtpAccepted && r.sent in {SentNotStarted, SentSaving, SentFailed, SentUnknown})
    case Sent => r.smtp == SmtpAccepted && r.sent == if r.plan.mode == Server then SentServerManaged else SentSaved
    case SentCopyFailed => r.smtp == SmtpAccepted && r.sent in {SentNotStarted, SentFailed, SentUnknown}
    case Failed => r.smtp in {SmtpNotStarted, SmtpRejected} && r.sent == SentNotStarted
    case Unknown => r.smtp in {SmtpNotStarted, SmtpUnknown} && r.sent == SentNotStarted
  }

  /** SMTP was called at most once: not at all while it is recorded as not
      started, and once when it is recorded as accepted or rejected. */
  predicate Counted(r: Row, n: nat) {
    n <= 1 && (r.smtp == SmtpNotStarted ==> n == 0) && (r.smtp in {SmtpAccepted, SmtpRejected} ==> n == 1)
  }

  /** The staged draft is there, unchanged, until `sent` is recorded. */
  predicate DraftKept(messages: map<Uid, Message>, id: Id, r: Row) {
    && (r.status in {Queued, Running, SentCopyFailed, Sent} ==> r.draft.Some?)
    && (r.draft.Some? && r.status != Sent ==> Holds(messages, r.draft.value, id, r.plan.staging, r.plan.digest))
    && (r.draft.Some? && r.draft.value in messages ==> messages[r.draft.value] == Message(id, r.plan.staging, r.plan.digest))
  }

  /** In append mode a sent row names a Sent copy with the reserved digest. It can
      only be missing if it was the draft itself. */
  predicate CopyKept(messages: map<Uid, Message>, id: Id, r: Row) {
    r.status == Sent && r.plan.mode == Append ==>
      && r.locator.Some? && r.draft.Some?
      && (r.plan.sentFolder == r.plan.staging ==> r.locator == r.draft)
      && (Holds(messages, r.locator.value, id, r.plan.sentFolder, r.plan.digest)
          || (r.plan.sentFolder == r.plan.staging && Copies(messages, id, r.plan.sentFolder) == {}))
  }

  ghost predicate RowOk(w: World, id: Id, r: Row) {
    && Legal(r) && Counted(r, Handoffs(w, id)) && DraftKept(w.messages, id, r) && CopyKept(w.messages, id, r)
    && (r.draft.Some? ==> r.draft.value < w.nextUid) && (r.locator.Some? ==> r.locator.value < w.nextUid)
  }

  // ----- one execution --------------------------------------------------------

  ghost predicate ExecutionOk(w: World, x: Execution, r: Row) {
    && x.mailbox == r.plan.mailbox
    && match x.phase
       case Launched => true
       case Loaded => r.status == Running && r.smtp == x.smtp && r.sent == x.sent && r.smtp in {SmtpNotStarted, SmtpAccepted}
       case DraftRead => r.status == Running && r.smtp == x.smtp == SmtpNotStarted && r.sent == x.sent
       case Submitting => r.status == Running && r.smtp == SmtpSubmitting && Handoffs(w, x.id) == 0 && r.sent == x.sent
       case Submitted(s) =>
         r.status == Running && r.smtp == SmtpSubmitting && x.smtp == s && r.sent == x.sent
         && s in {SmtpAccepted, SmtpRejected, SmtpUnknown} && Handoffs(w, x.id) == 1
       case Accepted => r.status == Running && r.smtp == x.smtp == SmtpAccepted && r.sent == x.sent
       case Appending =>
         r.status == Running && r.smtp == x.smtp == SmtpAccepted && r.sent == x.sent == SentSaving && r.plan.mode == Append
         && Copies(w.messages, x.id, r.plan.sentFolder) == {}
       case Located(u) =>
         r.status == Running && r.smtp == x.smtp == SmtpAccepted && r.plan.mode == Append
         && Holds(w.messages, u, x.id, r.plan.sentFolder, r.plan.digest)
       case Cleaning => r.status == Sent
  }

  // ----- the whole state ------------------------------------------------------

  /** Every message of a submission is its draft or its Sent copy, with its bytes,
      and a folder holds at most one. */
  ghost predicate MessagesOk(w: World) {
    && (forall u | u in w.messages ::
          && u < w.nextUid && w.messages[u].id in w.rows && w.messages[u].digest == w.rows[w.messages[u].id].plan.digest)
    && (forall a, b | a in w.messages && b in w.messages && w.messages[a].id == w.messages[b].id
                      && w.messages[a].folder == w.messages[b].folder :: a == b)
  }

  function Mailboxes(xs: map<nat, Execution>): set<nat> {
    set g | g in xs :: xs[g].mailbox
  }

  /** One execution per mailbox, and the busy mailboxes are exactly theirs. */
  ghost predicate ActiveOk(w: World) {
    && w.active == Mailboxes(w.executions)
    && (forall a, b | a in w.executions && b in w.executions && w.executions[a].mailbox == w.executions[b].mailbox :: a == b)
    && |w.active| <= CAP
  }

  ghost predicate RowsOk(w: World) {
    && (forall id | id in w.rows :: RowOk(w, id, w.rows[id]))
    && (forall id | id in w.handoffs :: id in w.rows)
    && (forall id | id in w.toReconcile :: id in w.rows && w.rows[id].status == Unknown && w.rows[id].smtp == SmtpNotStarted)
  }

  ghost predicate ExecutionsOk(w: World) {
    forall g | g in w.executions ::
      w.executions[g].id in w.rows && ExecutionOk(w, w.executions[g], w.rows[w.executions[g].id])
  }

  ghost predicate RequestsOk(w: World) {
    && (forall rk | rk in w.requests :: w.requests[rk].id in w.rows)
    && (forall a, b | a in w.requests && b in w.requests && w.requests[a].id == w.requests[b].id :: a == b)
  }

  ghost predicate Inv(w: World) {
    MessagesOk(w) && ActiveOk(w) && RowsOk(w) && ExecutionsOk(w) && RequestsOk(w)
  }

  // ----- moves of one execution -----------------------------------------------

  /** An execution's row and position change; nothing else does. */
  lemma PutKeeps(w: World, g: nat, r: Row, x: Execution)
    requires Inv(w) && At(w, g)
    requires r.plan == w.rows[w.executions[g].id].plan && x.id == w.executions[g].id && x.mailbox == w.executions[g].mailbox
    requires RowOk(w, x.id, r) && ExecutionOk(w, x, r)
    requires x.id in w.toReconcile ==> r == w.rows[x.id]
    ensures Inv(Put(w, g, r, x))
  {
    hide RowOk, ExecutionOk;
    SameRow(w, Put(w, g, r, x));
    SameMailboxes(w, Put(w, g, r, x));
    Alone(w, g);
  }

  /** Row and execution facts depend on the row, the messages and the call counts only. */
  lemma SameRow(w: World, w': World)
    requires w'.messages == w.messages && w'.nextUid == w.nextUid && w'.handoffs == w.handoffs
    ensures forall id, r :: RowOk(w, id, r) <==> RowOk(w', id, r)
    ensures forall x, r :: ExecutionOk(w, x, r) <==> ExecutionOk(w', x, r)
  {
  }

  lemma SameMailboxes(w: World, w': World)
    requires ActiveOk(w) && w'.active == w.active && w'.executions.Keys == w.executions.Keys
    requires forall g | g in w.executions :: w'.executions[g].mailbox == w.executions[g].mailbox
    ensures ActiveOk(w')
  {
    assert Mailboxes(w'.executions) == Mailboxes(w.executions);
  }

  /** Two executions are never on the same submission. */
  lemma Alone(w: World, g: nat)
    requires Inv(w) && At(w, g)
    ensures forall h | h in w.executions && w.executions[h].id == w.executions[g].id :: h == g
  {
    hide RowOk;
    assert ExecutionOk(w, w.executions[g], w.rows[w.executions[g].id]);
  }

  lemma Left(xs: map<nat, Execution>, g: nat)
    requires g in xs && forall h | h in xs && xs[h].mailbox == xs[g].mailbox :: h == g
    ensures Mailboxes(xs - {g}) == Mailboxes(xs) - {xs[g].mailbox}
  {
    forall h | h in xs && h != g ensures xs[h].mailbox in Mailboxes(xs - {g}) {
      assert (xs - {g})[h] == xs[h];
    }
  }

  lemma EndKeeps(w: World, g: nat)
    requires Inv(w) && At(w, g)
    ensures Inv(End(w, g))
  {
    hide RowOk, ExecutionOk;
    SameRow(w, End(w, g));
    var m := w.executions[g].mailbox;
    var w' := End(w, g);
    assert |w'.active| <= |w.active|;
    assert w'.active == Mailboxes(w'.executions) by { Left(w.executions, g); }
  }

  lemma CloseKeeps(w: World, g: nat, r: Row, saved: bool)
    requires Inv(w) && At(w, g) && r.plan == w.rows[w.executions[g].id].plan && RowOk(w, w.executions[g].id, r)
    requires w.executions[g].id in w.toReconcile ==> r == w.rows[w.executions[g].id]
    ensures Inv(Close(w, g, r, saved))
  {
    hide Inv, RowOk;
    if saved {
      var x := w.executions[g].(phase := Launched);
      ExecutionFacts(w, g);
      PutKeeps(w, g, r, x);
      EndKeeps(Put(w, g, r, x), g);
      assert Close(w, g, r, true) == End(Put(w, g, r, x), g);
    } else {
      EndKeeps(w, g);
    }
  }

  lemma ExecutionFacts(w: World, g: nat)
    requires Inv(w) && At(w, g)
    ensures var x := w.executions[g]; RowOk(w, x.id, w.rows[x.id]) && ExecutionOk(w, x, w.rows[x.id])
    ensures w.executions[g].id in w.toReconcile ==> w.rows[w.executions[g].id].status == Unknown
  {
    hide RowOk, ExecutionOk;
  }

  lemma ExecutionKeeps(w: World, e: Event)
    requires Inv(w) && ExecutionMove(e) && At(w, e.g)
    ensures Inv(ExecutionStep(w, e))
  {
    hide Inv;
    var g := e.g;
    var x := w.executions[g];
    var r := w.rows[x.id];
    ExecutionFacts(w, g);
    match e
    case Begin(_, loaded) =>
      if x.phase.Launched? {
        if r.status != Queued { EndKeeps(w, g); }
        else if loaded { PutKeeps(w, g, r.(status := Running), x.(phase := Loaded, smtp := r.smtp, sent := r.sent)); }
        else { CloseKeeps(w, g, r.(status := Running), true); }
      }
    case ReadDraft(_) =>
      if x.phase.Loaded? { PutKeeps(w, g, r, x.(phase := if x.smtp == SmtpAccepted then Accepted else DraftRead)); }
    case Mark(_, valid) =>
      if x.phase.DraftRead? {
        if valid { PutKeeps(w, g, r.(smtp := SmtpSubmitting), x.(phase := Submitting)); }
        else { CloseKeeps(w, g, FailRow(r, x.smtp, x.sent), true); }
      }
    case Submit(_, smtp) => if x.phase.Submitting? { SubmitKeeps(w, g, smtp); }
    case SaveSubmit(_, saved) => if x.phase.Submitted? { SaveSubmitKeeps(w, g, saved); }
    case Find(_, saved) => if x.phase.Accepted? { FindKeeps(w, g, saved); }
    case StoreCopy(_, stored, found) => if x.phase.Appending? { StoreCopyKeeps(w, g, stored, found); }
    case SaveSent(_, saved) => SaveSentKeeps(w, g, saved);
    case Cleanup(_, deleted) => if x.phase.Cleaning? { CleanupKeeps(w, g, deleted); }
    case GiveUp(_, saved) => if MayGiveUp(x.phase) { CloseKeeps(w, g, FailRow(r, x.smtp, x.sent), saved); }
  }

  /** The only step that calls SMTP: it was never called before. */
  lemma SubmitKeeps(w: World, g: nat, smtp: SmtpStatus)
    requires Inv(w) && At(w, g) && w.executions[g].phase.Submitting?
    ensures Inv(ExecutionStep(w, Submit(g, smtp)))
  {
    hide Inv, RowOk;
    var x := w.executions[g];
    var r := w.rows[x.id];
    ExecutionFacts(w, g);
    if smtp in {SmtpAccepted, SmtpRejected, SmtpUnknown} {
      var idle := x.(phase := Launched);
      PutKeeps(w, g, r, idle);
      Alone(Put(w, g, r, idle), g);
      CallKeeps(Put(w, g, r, idle), x.id);
      var called := Put(w, g, r, idle).(handoffs := w.handoffs[x.id := 1]);
      ExecutionFacts(called, g);
      PutKeeps(called, g, r, x.(phase := Submitted(smtp), smtp := smtp));
      assert ExecutionStep(w, Submit(g, smtp)) == Put(called, g, r, x.(phase := Submitted(smtp), smtp := smtp));
    }
  }

  lemma CallKeeps(w: World, id: Id)
    requires Inv(w) && id in w.rows && w.rows[id].smtp != SmtpNotStarted && Handoffs(w, id) == 0
    requires forall g | g in w.executions && w.executions[g].id == id :: w.executions[g].phase == Launched
    ensures Inv(w.(handoffs := w.handoffs[id := 1]))
  {
    hide RowOk, ExecutionOk;
    var w' := w.(handoffs := w.handoffs[id := 1]);
    forall i | i in w.rows ensures RowOk(w', i, w.rows[i]) { CallRow(w, id, i, w.rows[i]); }
    forall g | g in w.executions ensures ExecutionOk(w', w.executions[g], w.rows[w.executions[g].id]) {
      CallExecution(w, id, w.executions[g], w.rows[w.executions[g].id]);
    }
    SameMailboxes(w, w');
  }

  lemma CallRow(w: World, id: Id, i: Id, r: Row)
    requires RowOk(w, i, r) && (i == id ==> r.smtp != SmtpNotStarted && Handoffs(w, id) == 0)
    ensures RowOk(w.(handoffs := w.handoffs[id := 1]), i, r)
  {
    hide Legal, DraftKept, CopyKept;
  }

  lemma CallExecution(w: World, id: Id, x: Execution, r: Row)
    requires ExecutionOk(w, x, r) && (x.id == id ==> x.phase == Launched)
    ensures ExecutionOk(w.(handoffs := w.handoffs[id := 1]), x, r)
  {
    hide Holds, Copies;
  }

  lemma SaveSubmitKeeps(w: World, g: nat, saved: bool)
    requires Inv(w) && At(w, g) && w.executions[g].phase.Submitted?
    ensures Inv(ExecutionStep(w, SaveSubmit(g, saved)))
  {
    hide Inv;
    var x := w.executions[g];
    var r := w.rows[x.id];
    ExecutionFacts(w, g);
    if x.smtp != SmtpAccepted {
      CloseKeeps(w, g, Persist(r, if x.smtp == SmtpUnknown then Unknown else Failed, x.smtp, SentNotStarted, None), saved);
    } else if saved {
      PutKeeps(w, g, Persist(r, Running, SmtpAccepted, SentNotStarted, None), x.(phase := Accepted));
    } else {
      EndKeeps(w, g);
    }
  }

  lemma FindKeeps(w: World, g: nat, saved: bool)
    requires Inv(w) && At(w, g) && w.executions[g].phase.Accepted?
    ensures Inv(ExecutionStep(w, Find(g, saved)))
  {
    hide RowsOk, ExecutionsOk, RequestsOk, ActiveOk;
    var x := w.executions[g];
    var r := w.rows[x.id];
    ExecutionFacts(w, g);
    if r.plan.mode == Append {
      var found := Copies(w.messages, x.id, r.plan.sentFolder);
      if |found| > 1 { CloseKeeps(w, g, FailRow(r, x.smtp, x.sent), saved); }
      else if |found| == 1 {
        var u := Only(found);
        assert u in found;
        PutKeeps(w, g, r, x.(phase := Located(u)));
      } else if saved {
        assert found == {};
        PutKeeps(w, g, Persist(r, Running, SmtpAccepted, SentSaving, None), x.(phase := Appending, sent := SentSaving));
      } else {
        EndKeeps(w, g);
      }
    }
  }

  /** A new message breaks nothing about rows and executions that do not wait for
      their folder to be empty. */
  lemma AddKeeps(w: World, m: Message)
    requires Inv(w) && m.id in w.rows && m.digest == w.rows[m.id].plan.digest && Copies(w.messages, m.id, m.folder) == {}
    requires forall g | g in w.executions && w.executions[g].phase.Appending? :: w.executions[g].id != m.id
    requires w.rows[m.id].status != Sent
    ensures Inv(AddMessage(w, m))
  {
    hide RowOk, ExecutionOk;
    var w' := AddMessage(w, m);
    forall id | id in w.rows ensures RowOk(w', id, w.rows[id]) {
      AddRow(w, m, id, w.rows[id]);
    }
    forall g | g in w.executions ensures ExecutionOk(w', w.executions[g], w.rows[w.executions[g].id]) {
      assert ExecutionOk(w, w.executions[g], w.rows[w.executions[g].id]);
      AddExecution(w, m, w.executions[g], w.rows[w.executions[g].id]);
    }
    forall u | u in w.messages ensures u != w.nextUid && !(w.messages[u].id == m.id && w.messages[u].folder == m.folder) {
      assert u !in Copies(w.messages, m.id, m.folder);
    }
    SameMailboxes(w, w');
  }

  lemma AddRow(w: World, m: Message, id: Id, r: Row)
    requires RowOk(w, id, r) && (r.status == Sent ==> m.id != id)
    ensures RowOk(AddMessage(w, m), id, r)
  {
    var w' := AddMessage(w, m);
    assert Handoffs(w', id) == Handoffs(w, id);
    if r.status == Sent && r.plan.mode == Append && Copies(w.messages, id, r.plan.sentFolder) == {} {
      assert forall u | u in Copies(w'.messages, id, r.plan.sentFolder) :: u in Copies(w.messages, id, r.plan.sentFolder);
    }
  }

  lemma AddExecution(w: World, m: Message, x: Execution, r: Row)
    requires ExecutionOk(w, x, r) && (x.phase.Appending? ==> x.id != m.id) && w.nextUid !in w.messages
    ensures ExecutionOk(AddMessage(w, m), x, r)
  {
    if x.phase.Appending? {
      assert Copies(AddMessage(w, m).messages, x.id, r.plan.sentFolder) == Copies(w.messages, x.id, r.plan.sentFolder);
    }
  }

  lemma StoreCopyKeeps(w: World, g: nat, stored: bool, found: bool)
    requires Inv(w) && At(w, g) && w.executions[g].phase.Appending?
    ensures Inv(ExecutionStep(w, StoreCopy(g, stored, found)))
  {
    hide Inv;
    var x := w.executions[g];
    var r := w.rows[x.id];
    ExecutionFacts(w, g);
    // Once the call is out, the execution no longer counts on an empty folder.
    var waiting := Put(w, g, r, x.(phase := Accepted));
    PutKeeps(w, g, r, x.(phase := Accepted));
    var after := if stored then AddMessage(waiting, Message(x.id, r.plan.sentFolder, r.plan.digest)) else waiting;
    if stored {
      Alone(waiting, g);
      AddKeeps(waiting, Message(x.id, r.plan.sentFolder, r.plan.digest));
    }
    ExecutionFacts(after, g);
    if stored && found {
      PutKeeps(after, g, r, x.(phase := Located(w.nextUid)));
      assert ExecutionStep(w, StoreCopy(g, stored, found)) == Put(after, g, r, x.(phase := Located(w.nextUid)));
    } else {
      CloseKeeps(after, g, FailRow(r, x.smtp, x.sent), true);
      assert ExecutionStep(w, StoreCopy(g, stored, found)) == Close(after, g, FailRow(r, x.smtp, x.sent), true);
    }
  }

  lemma SaveSentKeeps(w: World, g: nat, saved: bool)
    requires Inv(w) && At(w, g)
    ensures Inv(ExecutionStep(w, SaveSent(g, saved)))
  {
    hide Inv;
    var x := w.executions[g];
    var r := w.rows[x.id];
    ExecutionFacts(w, g);
    if x.phase.Accepted? && r.plan.mode == Server {
      if saved { PutKeeps(w, g, Persist(r, Sent, SmtpAccepted, SentServerManaged, None), x.(phase := Cleaning)); } else { EndKeeps(w, g); }
    } else if x.phase.Located? {
      LocatedUid(w, x.phase.uid);
      LocatedDraft(w, x.id, x.phase.uid);
      if saved { PutKeeps(w, g, Persist(r, Sent, SmtpAccepted, SentSaved, Some(x.phase.uid)), x.(phase := Cleaning)); } else { EndKeeps(w, g); }
    }
  }

  /** When both folders are one, what is found there is the draft. */
  lemma LocatedDraft(w: World, id: Id, u: Uid)
    requires Inv(w) && id in w.rows && RowOk(w, id, w.rows[id]) && w.rows[id].status == Running
    requires Holds(w.messages, u, id, w.rows[id].plan.sentFolder, w.rows[id].plan.digest)
    ensures w.rows[id].plan.sentFolder == w.rows[id].plan.staging ==> w.rows[id].draft == Some(u)
  {
    hide RowsOk, ExecutionsOk, RequestsOk, ActiveOk;
    assert Holds(w.messages, w.rows[id].draft.value, id, w.rows[id].plan.staging, w.rows[id].plan.digest);
  }

  lemma LocatedUid(w: World, u: Uid)
    requires Inv(w) && u in w.messages
    ensures u < w.nextUid
  {
    hide RowsOk, ExecutionsOk, RequestsOk, ActiveOk;
  }

  /** Cleanup deletes the draft of a sent row, which nothing else refers to. */
  lemma CleanupKeeps(w: World, g: nat, deleted: bool)
    requires Inv(w) && At(w, g) && w.executions[g].phase.Cleaning?
    ensures Inv(ExecutionStep(w, Cleanup(g, deleted)))
  {
    hide Inv, RowOk;
    var x := w.executions[g];
    var r := w.rows[x.id];
    ExecutionFacts(w, g);
    if deleted && r.draft.Some? {
      var w' := w.(messages := w.messages - {r.draft.value});
      DeleteKeeps(w, x.id, r.draft.value);
      EndKeeps(w', g);
    } else {
      EndKeeps(w, g);
    }
  }

  lemma DeleteRow(w: World, i: Id, r: Row, id: Id, u: Uid)
    requires MessagesOk(w) && RowOk(w, i, r)
    requires u in w.messages ==> w.messages[u].id == id
    requires i == id ==> r.status == Sent && r.draft == Some(u) && (u in w.messages ==> w.messages[u].folder == r.plan.staging)
    ensures RowOk(w.(messages := w.messages - {u}), i, r)
  {
    var after := w.messages - {u};
    assert Handoffs(w.(messages := after), i) == Handoffs(w, i);
    var left := Copies(after, i, r.plan.sentFolder);
    assert left <= Copies(w.messages, i, r.plan.sentFolder);
    if i == id && r.plan.mode == Append && r.plan.sentFolder == r.plan.staging && u in w.messages {
      assert forall v | v in left :: v == u;
      assert left == {};
    }
  }

  lemma DeleteKeeps(w: World, id: Id, u: Uid)
    requires Inv(w) && id in w.rows && w.rows[id].status == Sent && w.rows[id].draft == Some(u)
    ensures Inv(w.(messages := w.messages - {u}))
  {
    hide RowOk, ExecutionOk;
    var w' := w.(messages := w.messages - {u});
    assert RowOk(w, id, w.rows[id]);
    DraftMessage(w, id, w.rows[id], u);
    forall i | i in w.rows ensures RowOk(w', i, w.rows[i]) { DeleteRow(w, i, w.rows[i], id, u); }
    forall g | g in w.executions ensures ExecutionOk(w', w.executions[g], w.rows[w.executions[g].id]) {
      assert RowOk(w, w.executions[g].id, w.rows[w.executions[g].id]);
      DeleteExecution(w, w.executions[g], w.rows[w.executions[g].id], id, u);
    }
    SameMailboxes(w, w');
  }

  lemma DraftMessage(w: World, id: Id, r: Row, u: Uid)
    requires RowOk(w, id, r) && r.draft == Some(u)
    ensures u in w.messages ==> w.messages[u].id == id && w.messages[u].folder == r.plan.staging
  {
    hide Legal, Counted, CopyKept;
  }

  lemma DeleteExecution(w: World, x: Execution, r: Row, id: Id, u: Uid)
    requires ExecutionOk(w, x, r) && id in w.rows && w.rows[id].status == Sent && w.rows[id].draft == Some(u)
    requires RowOk(w, id, w.rows[id]) && (x.id == id ==> r == w.rows[id])
    ensures ExecutionOk(w.(messages := w.messages - {u}), x, r)
  {
    hide Legal, Counted, CopyKept;
    if x.phase.Appending? {
      assert Copies(w.messages - {u}, x.id, r.plan.sentFolder) <= Copies(w.messages, x.id, r.plan.sentFolder);
    }
  }

  // ----- the other moves ------------------------------------------------------

  /** A row nobody is executing changes. */
  lemma RowPlaced(w: World, id: Id, r: Row, toReconcile: set<Id>)
    requires Inv(w) && id in w.rows && r.plan == w.rows[id].plan && RowOk(w, id, r)
    requires w.rows[id].status !in {Running, Sent} && toReconcile <= w.toReconcile
    requires id in toReconcile ==> r == w.rows[id]
    ensures Inv(w.(rows := w.rows[id := r], toReconcile := toReconcile))
  {
    hide RowOk;
    var w' := w.(rows := w.rows[id := r], toReconcile := toReconcile);
    SameRow(w, w');
    SameMailboxes(w, w');
    forall g | g in w.executions ensures ExecutionOk(w', w.executions[g], w'.rows[w.executions[g].id]) {
      assert ExecutionOk(w, w.executions[g], w.rows[w.executions[g].id]);
    }
  }

  lemma RowKeeps(w: World, e: Event)
    requires Inv(w) && RowMove(e) && e.id in w.rows
    ensures Inv(RowStep(w, e))
  {
    hide MessagesOk, ActiveOk, RequestsOk, ExecutionsOk;
    var r := w.rows[e.id];
    assert RowOk(w, e.id, r);
    match e
    case Stage(id) =>
      if r.status == Preparing && Copies(w.messages, id, r.plan.staging) == {} {
        NotAppending(w, id);
        AddKeeps(w, Message(id, r.plan.staging, r.plan.digest));
      }
    case Staged(id, located) =>
      if located.None? || Holds(w.messages, located.value, id, r.plan.staging, r.plan.digest) {
        if located.Some? { LocatedUid(w, located.value); }
        if r.status == Preparing { RowPlaced(w, id, CompleteStaging(r, located), w.toReconcile); }
        assert w.rows[id := r] == w.rows;
      }
    case Reconciled(id, located) =>
      if id in w.toReconcile && (located.None? || Holds(w.messages, located.value, id, r.plan.staging, r.plan.digest)) {
        if located.Some? { LocatedUid(w, located.value); }
        RowPlaced(w, id, ReconcileStaging(r, located), w.toReconcile - {id});
      }
    case Retry(id) =>
      if r.status == SentCopyFailed { RowPlaced(w, id, RetrySentCopy(r), w.toReconcile); }
      assert w.toReconcile == w.toReconcile && w.rows[id := r] == w.rows;
  }

  lemma NotAppending(w: World, id: Id)
    requires Inv(w) && id in w.rows && w.rows[id].status == Preparing
    ensures forall g | g in w.executions && w.executions[g].phase.Appending? :: w.executions[g].id != id
  {
    hide RowOk;
    forall g | g in w.executions && w.executions[g].phase.Appending? ensures w.executions[g].id != id {
      assert ExecutionOk(w, w.executions[g], w.rows[w.executions[g].id]);
    }
  }

  lemma ReserveKeeps(w: World, rk: RequestKey, digest: string, id: Id, p: Plan, valid: bool)
    requires Inv(w)
    ensures Inv(Step(w, ReserveIt(rk, digest, id, p, valid)))
  {
    hide RowOk, ExecutionOk, ExecutionStep, RowStep, NewRow;
    var w' := Step(w, ReserveIt(rk, digest, id, p, valid));
    SameRow(w, w');
    SameMailboxes(w, w');
    if w'.rows != w.rows { NewRowOk(w', id, p); }
  }

  lemma NewRowOk(w: World, id: Id, p: Plan)
    requires id !in w.handoffs
    ensures RowOk(w, id, NewRow(p))
  {
  }

  lemma RecoverRow(w: World, id: Id, r: Row)
    requires RowOk(w, id, r)
    ensures RowOk(w, id, Recover(r)) && Recover(r).plan == r.plan
    ensures r.status == Preparing ==> Recover(r).status == Unknown && Recover(r).smtp == SmtpNotStarted
  {
  }

  lemma RestartKeeps(w: World)
    requires Inv(w)
    ensures Inv(Step(w, Restart))
  {
    hide RowOk, Recover;
    var w' := Step(w, Restart);
    SameRow(w, w');
    forall id | id in w.rows ensures RowOk(w, id, Recover(w.rows[id])) && Recover(w.rows[id]).plan == w.rows[id].plan {
      RecoverRow(w, id, w.rows[id]);
    }
    forall id | id in w'.toReconcile ensures w'.rows[id].status == Unknown && w'.rows[id].smtp == SmtpNotStarted {
      RecoverRow(w, id, w.rows[id]);
    }
  }

  lemma LaunchKeeps(w: World, g: nat, id: Id)
    requires Inv(w)
    ensures Inv(Step(w, Launch(g, id)))
  {
    hide Inv;
    if g !in w.executions && id in w.rows && MayLaunch(w.active, w.rows[id].plan.mailbox) {
      LaunchedKeeps(w, g, Execution(id, w.rows[id].plan.mailbox, Launched, SmtpNotStarted, SentNotStarted));
    }
  }

  lemma LaunchedKeeps(w: World, g: nat, x: Execution)
    requires Inv(w) && g !in w.executions && x.id in w.rows && MayLaunch(w.active, x.mailbox)
    requires x.phase == Launched && x.mailbox == w.rows[x.id].plan.mailbox
    ensures Inv(w.(executions := w.executions[g := x], active := w.active + {x.mailbox}))
  {
    hide RowOk, ExecutionOk, MayLaunch;
    var w' := w.(executions := w.executions[g := x], active := w.active + {x.mailbox});
    SameRow(w, w');
    LaunchedOk(w, x, w.rows[x.id]);
    LaunchedActive(w, g, x);
    hide ActiveOk;
    assert ExecutionsOk(w');
  }

  lemma LaunchedActive(w: World, g: nat, x: Execution)
    requires ActiveOk(w) && g !in w.executions && MayLaunch(w.active, x.mailbox)
    ensures ActiveOk(w.(executions := w.executions[g := x], active := w.active + {x.mailbox}))
  {
    var w' := w.(executions := w.executions[g := x], active := w.active + {x.mailbox});
    forall h | h in w.executions ensures w.executions[h].mailbox in Mailboxes(w'.executions) {
      assert w'.executions[h] == w.executions[h];
    }
    assert w'.executions[g] == x && x.mailbox in Mailboxes(w'.executions);
    assert w'.active == Mailboxes(w'.executions);
  }

  lemma LaunchedOk(w: World, x: Execution, r: Row)
    requires x.phase == Launched && x.mailbox == r.plan.mailbox
    ensures ExecutionOk(w, x, r)
  {
  }

  // ----- every run ------------------------------------------------------------

  lemma StepKeeps(w: World, e: Event)
    requires Inv(w)
    ensures Inv(Step(w, e))
  {
    hide Inv, ExecutionStep, RowStep;
    if ExecutionMove(e) { if At(w, e.g) { ExecutionKeeps(w, e); } }
    else if RowMove(e) { if e.id in w.rows { RowKeeps(w, e); } }
    else {
      match e
      case ReserveIt(rk, digest, id, p, valid) => ReserveKeeps(w, rk, digest, id, p, valid);
      case Restart => RestartKeeps(w);
      case Launch(g, id) => LaunchKeeps(w, g, id);
    }
  }

  lemma {:induction false} RunKeeps(w: World, es: seq<Event>)
    requires Inv(w)
    ensures Inv(Run(w, es))
    decreases |es|
  {
    hide Inv, Step;
    if es != [] {
      StepKeeps(w, es[0]);
      RunKeeps(Step(w, es[0]), es[1..]);
    }
  }

  lemma StartOk()
    ensures Inv(START)
  {
  }

  // ----- the promises ---------------------------------------------------------

  lemma RowFacts(es: seq<Event>, id: Id)
    requires id in Run(START, es).rows
    ensures Inv(Run(START, es)) && RowOk(Run(START, es), id, Run(START, es).rows[id])
  {
    hide Run, RowOk, ExecutionOk;
    StartOk();
    RunKeeps(START, es);
  }

  /** Over any interleaving of workers, crashes, restarts and Sent-copy retries a
      submission is handed to SMTP at most once, and exactly once when it is
      recorded as accepted. */
  lemma HandedOverAtMostOnce(es: seq<Event>, id: Id)
    ensures var w := Run(START, es);
            Handoffs(w, id) <= 1 && (id in w.rows && w.rows[id].smtp == SmtpAccepted ==> Handoffs(w, id) == 1)
  {
    hide Run, ExecutionOk;
    StartOk();
    RunKeeps(START, es);
    if id in Run(START, es).rows { RowFacts(es, id); }
  }

  lemma StatusesAreLegal(es: seq<Event>, id: Id)
    requires id in Run(START, es).rows
    ensures Legal(Run(START, es).rows[id])
  {
    hide Run, Inv;
    RowFacts(es, id);
  }

  /** The draft is deleted only after `sent` is recorded. */
  lemma DraftUntilSent(es: seq<Event>, id: Id)
    requires var w := Run(START, es); id in w.rows && w.rows[id].status in {Queued, Running, SentCopyFailed}
    ensures var w := Run(START, es);
            w.rows[id].draft.Some? && Holds(w.messages, w.rows[id].draft.value, id, w.rows[id].plan.staging, w.rows[id].plan.digest)
  {
    hide Run, Inv;
    RowFacts(es, id);
  }

  /** In append mode, with separate folders, a sent submission has its Sent copy,
      with the reserved digest, from then on. */
  lemma SentMeansCopied(es: seq<Event>, id: Id)
    requires var w := Run(START, es);
             id in w.rows && w.rows[id].status == Sent && w.rows[id].plan.mode == Append
             && w.rows[id].plan.staging != w.rows[id].plan.sentFolder
    ensures var w := Run(START, es);
            w.rows[id].locator.Some?
            && Holds(w.messages, w.rows[id].locator.value, id, w.rows[id].plan.sentFolder, w.rows[id].plan.digest)
  {
    hide Run, Inv;
    RowFacts(es, id);
  }

  lemma OneSentCopy(es: seq<Event>, a: Uid, b: Uid)
    requires var m := Run(START, es).messages; a in m && b in m && m[a].id == m[b].id && m[a].folder == m[b].folder
    ensures a == b
  {
    hide Run, RowOk, ExecutionOk, ActiveOk;
    StartOk();
    RunKeeps(START, es);
  }

  /** Nothing checks that the two folders differ. When they are the same, the
      draft is taken for the Sent copy and the cleanup deletes it: a copy is left
      after a cleanup if and only if the folders differ. */
  lemma CleanupKeepsCopy(w: World, g: nat)
    requires Inv(w) && At(w, g) && w.executions[g].phase.Cleaning? && w.rows[w.executions[g].id].plan.mode == Append
    ensures var id := w.executions[g].id;
            Copies(Step(w, Cleanup(g, true)).messages, id, w.rows[id].plan.sentFolder) != {}
            <==> w.rows[id].plan.staging != w.rows[id].plan.sentFolder
  {
    hide RowsOk, ExecutionsOk, RequestsOk, ActiveOk;
    var id := w.executions[g].id;
    var r := w.rows[id];
    ExecutionFacts(w, g);
    var after := Step(w, Cleanup(g, true)).messages;
    var left := Copies(after, id, r.plan.sentFolder);
    if r.plan.staging != r.plan.sentFolder {
      assert r.locator.value in left;
    } else {
      assert left <= Copies(w.messages, id, r.plan.sentFolder);
      forall u | u in left ensures u == r.draft.value {
        assert Holds(w.messages, r.locator.value, id, r.plan.sentFolder, r.plan.digest);
      }
      assert left == {};
    }
  }

  /** At most four executions run, never two in one mailbox. */
  lemma DispatcherCap(es: seq<Event>)
    ensures |Run(START, es).executions| <= CAP
    ensures var xs := Run(START, es).executions; forall a, b | a in xs && b in xs && xs[a].mailbox == xs[b].mailbox :: a == b
  {
    hide Run, RowOk, ExecutionOk;
    StartOk();
    RunKeeps(START, es);
    DistinctMailboxes(Run(START, es).executions);
  }

  lemma {:induction false} DistinctMailboxes(xs: map<nat, Execution>)
    requires forall a, b | a in xs && b in xs && xs[a].mailbox == xs[b].mailbox :: a == b
    ensures |xs| == |Mailboxes(xs)|
    decreases |xs|
  {
    if xs == map[] {
      assert Mailboxes(xs) == {};
    } else {
      var g :| g in xs;
      Left(xs, g);
      assert xs[g].mailbox in Mailboxes(xs);
      assert |xs - {g}| == |xs| - 1 by { assert (xs - {g}).Keys == xs.Keys - {g}; assert |xs.Keys| == |xs|; }
      DistinctMailboxes(xs - {g});
    }
  }

  /** A row that is sent, failed, or in doubt about SMTP never changes again: in
      particular it is never queued again. */
  predicate Final(r: Row) {
    r.status in {Sent, Failed} || r.smtp == SmtpUnknown
  }

  lemma FinalExecution(w: World, e: Event)
    requires Inv(w) && ExecutionMove(e) && At(w, e.g) && Final(w.rows[w.executions[e.g].id])
    ensures ExecutionStep(w, e).rows == w.rows
  {
    hide Inv, DraftKept, CopyKept, Counted, Holds, Copies;
    ExecutionFacts(w, e.g);
    assert w.rows[w.executions[e.g].id := w.rows[w.executions[e.g].id]] == w.rows;
  }

  /** An execution writes no row but its own. */
  lemma OtherRows(w: World, e: Event, id: Id)
    requires ExecutionMove(e) && At(w, e.g) && w.executions[e.g].id != id && id in w.rows
    ensures id in ExecutionStep(w, e).rows && ExecutionStep(w, e).rows[id] == w.rows[id]
  {
    hide Holds, Copies, FailRow, Persist, MayMark, MayGiveUp;
    match e
    case Begin(_, _) =>
    case ReadDraft(_) =>
    case Mark(_, _) =>
    case Submit(_, _) =>
    case SaveSubmit(_, _) =>
    case Find(_, _) =>
    case StoreCopy(_, _, _) =>
    case SaveSent(_, _) =>
    case Cleanup(_, _) =>
    case GiveUp(_, _) =>
  }

  /** No move on rows that nobody executes touches a final row. */
  lemma FinalRow(w: World, e: Event, id: Id)
    requires RowMove(e) && e.id in w.rows && id in w.rows && Final(w.rows[id]) && RowOk(w, id, w.rows[id])
    requires forall i | i in w.toReconcile :: i in w.rows && w.rows[i].status == Unknown && w.rows[i].smtp == SmtpNotStarted
    ensures id in RowStep(w, e).rows && RowStep(w, e).rows[id] == w.rows[id]
  {
    hide DraftKept, CopyKept, Counted, Holds, Copies;
  }

  lemma FinalRecovered(w: World, id: Id, r: Row)
    requires RowOk(w, id, r) && Final(r)
    ensures Recover(r) == r
  {
    hide DraftKept, CopyKept, Counted;
  }

  lemma FinalStep(w: World, e: Event, id: Id)
    requires Inv(w) && id in w.rows && Final(w.rows[id])
    ensures id in Step(w, e).rows && Step(w, e).rows[id] == w.rows[id]
  {
    hide MessagesOk, ActiveOk, RequestsOk, ExecutionsOk, RowOk, MayLaunch, ExecutionStep, RowStep, Recover, Final;
    assert RowOk(w, id, w.rows[id]);
    FinalRecovered(w, id, w.rows[id]);
    if ExecutionMove(e) {
      if At(w, e.g) { if w.executions[e.g].id == id { FinalExecution(w, e); } else { OtherRows(w, e, id); } }
    } else if RowMove(e) {
      if e.id in w.rows { FinalRow(w, e, id); }
    }
  }

  lemma {:induction false} FinalForever(w: World, es: seq<Event>, id: Id)
    requires Inv(w) && id in w.rows && Final(w.rows[id])
    ensures id in Run(w, es).rows && Run(w, es).rows[id] == w.rows[id]
    decreases |es|
  {
    hide Inv, Step;
    if es != [] {
      FinalStep(w, es[0], id);
      StepKeeps(w, es[0]);
      FinalForever(Step(w, es[0]), es[1..], id);
    }
  }

  // ----- requests -------------------------------------------------------------

  lemma ExecutionRequests(w: World, e: Event)
    requires ExecutionMove(e) && At(w, e.g)
    ensures ExecutionStep(w, e).requests == w.requests
  {
    hide Copies, Holds, FailRow, Persist, MayMark, MayGiveUp;
  }

  lemma RequestStep(w: World, e: Event, rk: RequestKey)
    requires rk in w.requests
    ensures rk in Step(w, e).requests && Step(w, e).requests[rk] == w.requests[rk]
  {
    hide Copies, Holds, MayLaunch, Recover, ExecutionStep;
    if ExecutionMove(e) && At(w, e.g) { ExecutionRequests(w, e); }
  }

  lemma {:induction false} RequestsStay(w: World, es: seq<Event>, rk: RequestKey)
    requires rk in w.requests
    ensures rk in Run(w, es).requests && Run(w, es).requests[rk] == w.requests[rk]
    decreases |es|
  {
    hide Step;
    if es != [] {
      RequestStep(w, es[0], rk);
      RequestsStay(Step(w, es[0]), es[1..], rk);
    }
  }

  /** One client request names one submission forever, and that one is handed over
      at most once; so the request never becomes two handoffs. */
  lemma OneRequestOneHandoff(es: seq<Event>, more: seq<Event>, rk: RequestKey, digest: string, id: Id, p: Plan, valid: bool)
    requires rk in Run(START, es).requests && p.staging != "" && p.digest != "" && (p.mode == Append ==> p.sentFolder != "")
    ensures var saved := Run(START, es).requests[rk];
            var w := Run(START, es + more);
            && Reserve(w.rows, w.requests, rk, digest, id, p, valid)
               == (w.rows, w.requests, if digest == saved.digest then Repeated(saved.id) else DigestConflict)
            && Handoffs(w, saved.id) <= 1
  {
    hide Run;
    RunTwice(START, es, more);
    RequestsStay(Run(START, es), more, rk);
    HandedOverAtMostOnce(es + more, Run(START, es).requests[rk].id);
  }

  lemma {:induction false} RunTwice(w: World, a: seq<Event>, b: seq<Event>)
    ensures Run(w, a + b) == Run(Run(w, a), b)
    decreases |a|
  {
    hide Step;
    if a == [] { assert a + b == b; }
    else {
      assert (a + b)[1..] == a[1..] + b;
      RunTwice(Step(w, a[0]), a[1..], b);
    }
  }
}
