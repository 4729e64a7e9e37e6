/** The outbox: submission rows, the messages that carry a submission's id, the
    executions that hand them to SMTP, and everything that may interleave. */
module Submissions {

  import opened Wrappers

  type Id = nat
  type Uid = nat
  type Folder = string

  datatype Status = Preparing | Queued | Running | Sent | SentCopyFailed | Failed | Unknown
  datatype SmtpStatus = SmtpNotStarted | SmtpSubmitting | SmtpAccepted | SmtpRejected | SmtpUnknown
  datatype SentStatus = SentNotStarted | SentSaving | SentSaved | SentServerManaged | SentFailed | SentUnknown

  datatype Mode = Append | Server

  /** What a client reserves: where the draft is staged, where the Sent copy goes
      (append mode), and the digest of the bytes. */
  datatype Plan = Plan(mailbox: nat, mode: Mode, staging: Folder, sentFolder: Folder, digest: string)

  datatype Row = Row(plan: Plan, status: Status, smtp: SmtpStatus, sent: SentStatus, draft: Option<Uid>, locator: Option<Uid>)

  datatype RequestKey = RequestKey(mailbox: nat, member: nat, requestId: string)

  /** A message in the mailbox that carries a submission's id in its header. */
  datatype Message = Message(id: Id, folder: Folder, digest: string)

  /** How far one execution got. */
  datatype Phase =
    | Launched                              // started by the dispatcher
    | Loaded                                // row is running, working copy read
    | DraftRead                             // staged bytes read, digest checked
    | Submitting                            // row says submitting, SMTP not called yet
    | Submitted(smtp: SmtpStatus)           // SMTP returned, result not saved
    | Accepted                              // accepted is saved
    | Appending                             // saving is saved, APPEND not issued yet
    | Located(uid: Uid)                     // a Sent copy was found
    | Cleaning                              // sent is saved

  /** An execution with its working copies of the two inner statuses. */
  datatype Execution = Execution(id: Id, mailbox: nat, phase: Phase, smtp: SmtpStatus, sent: SentStatus)

  /** `handoffs` counts the SMTP calls per submission. `toReconcile` are the rows
      that were preparing when the process last started. A uid is given out once. */
  datatype World = World(
    rows: map<Id, Row>, requests: map<RequestKey, Saved>, messages: map<Uid, Message>,
    nextUid: Uid, executions: map<nat, Execution>, active: set<nat>, toReconcile: set<Id>, handoffs: map<Id, nat>)

  const START := World(map[], map[], map[], 0, map[], {}, {}, map[])

  const CAP := 4

  // ----- rows -----------------------------------------------------------------

  datatype ReserveResult = Created | Repeated(id: Id) | DigestConflict | Rejected

  function NewRow(p: Plan): Row {
    Row(p, Preparing, SmtpNotStarted, SentNotStarted, None, None)
  }

  /** `ReserveSubmission`; `valid` is the outcome of the access and version checks.
      Append mode demands a Sent folder. */
  function Reserve(rows: map<Id, Row>, requests: map<RequestKey, Saved>, rk: RequestKey, digest: string, id: Id, p: Plan, valid: bool)
    : (map<Id, Row>, map<RequestKey, Saved>, ReserveResult)
  {
    if p.staging == "" || p.digest == "" || (p.mode == Append && p.sentFolder == "") then (rows, requests, Rejected)
    else if rk in requests then
      (rows, requests, if requests[rk].digest == digest then Repeated(requests[rk].id) else DigestConflict)
    else if !valid || id in rows || rk.mailbox != p.mailbox then (rows, requests, Rejected)
    else (rows[id := NewRow(p)], requests[rk := Saved(id, digest)], Created)
  }

  /** The staging result, saved only while the row is still preparing. */
  function CompleteStaging(r: Row, located: Option<Uid>): Row {
    if r.status != Preparing then r
    else if located.None? then r.(status := Unknown, draft := None)
    else r.(status := Queued, draft := located)
  }

  /** Recovery at process start: three updates in one transaction. */
  function Recover(r: Row): Row {
    RecoverRest(RecoverAccepted(RecoverSubmitting(r)))
  }

  function RecoverSubmitting(r: Row): Row {
    if r.smtp == SmtpSubmitting then r.(status := Unknown, smtp := SmtpUnknown) else r
  }

  function RecoverAccepted(r: Row): Row {
    if r.smtp == SmtpAccepted && r.status == Running
    then r.(status := SentCopyFailed, sent := if r.sent == SentSaving then SentUnknown else r.sent) else r
  }

  function RecoverRest(r: Row): Row {
    if r.status == Preparing || r.status == Running then r.(status := Unknown) else r
  }

  /** `persistSubmissionResult`. */
  function Persist(r: Row, status: Status, smtp: SmtpStatus, sent: SentStatus, locator: Option<Uid>): Row {
    Row(r.plan, status, smtp, sent, r.draft, if locator.Some? then locator else r.locator)
  }

  /** What an execution that gives up saves, from its working copies. */
  function FailRow(r: Row, smtp: SmtpStatus, sent: SentStatus): Row {
    if smtp == SmtpAccepted
    then Persist(r, SentCopyFailed, smtp, if sent == SentSaving || sent == SentUnknown then SentUnknown else SentFailed, None)
    else Persist(r, Failed, smtp, sent, None)
  }

  /** The guarded write in front of the SMTP call. */
  predicate MayMark(r: Row) {
    r.status == Running && r.smtp == SmtpNotStarted
  }

  function RetrySentCopy(r: Row): Row {
    if r.status == SentCopyFailed && r.smtp == SmtpAccepted then r.(status := Queued) else r
  }

  /** The unguarded failure write of a staging reconcile, and its guarded success. */
  function ReconcileStaging(r: Row, located: Option<Uid>): Row {
    if located.None? then Persist(r, Unknown, SmtpNotStarted, SentNotStarted, None)
    else if r.smtp == SmtpNotStarted && r.status == Unknown then r.(status := Queued, draft := located)
    else r
  }

  // ----- the mailbox ----------------------------------------------------------

  /** The messages `FindSubmissionMessage` sees in a folder. */
  function Copies(messages: map<Uid, Message>, id: Id, folder: Folder): set<Uid> {
    set u | u in messages && messages[u].id == id && messages[u].folder == folder
  }

  lemma OnlyOne(s: set<Uid>, a: Uid, b: Uid)
    requires |s| == 1 && a in s && b in s
    ensures a == b
  {
    assert |s - {a}| == 0;
  }

  function Only(s: set<Uid>): (u: Uid)
    requires |s| == 1
    ensures s == {u}
  {
    assert s != {};
    assert forall a, b | a in s && b in s :: a == b by { forall a, b | a in s && b in s ensures a == b { OnlyOne(s, a, b); } }
    var u :| u in s;
    u
  }

  predicate Holds(messages: map<Uid, Message>, u: Uid, id: Id, folder: Folder, digest: string) {
    u in messages && messages[u] == Message(id, folder, digest)
  }

  // ----- steps ----------------------------------------------------------------

  datatype Event =
    | ReserveIt(rk: RequestKey, digest: string, id: Id, plan: Plan, valid: bool)
    | Stage(id: Id)                                    // the draft is appended
    | Staged(id: Id, located: Option<Uid>)             // and the result saved
    | Restart
    | Reconciled(id: Id, located: Option<Uid>)         // staging reconcile of one row
    | Retry(id: Id)
    | Launch(g: nat, id: Id)
    | Begin(g: nat, loaded: bool)                      // compare-and-set, then read the row
    | ReadDraft(g: nat)
    | Mark(g: nat, valid: bool)
    | Submit(g: nat, smtp: SmtpStatus)                 // the SMTP call
    | SaveSubmit(g: nat, saved: bool)
    | Find(g: nat, saved: bool)                        // look for a Sent copy
    | StoreCopy(g: nat, stored: bool, found: bool)     // APPEND, then look for it
    | SaveSent(g: nat, saved: bool)
    | Cleanup(g: nat, deleted: bool)
    | GiveUp(g: nat, saved: bool)                      // any error exit

  predicate ExecutionMove(e: Event) {
    || e.Begin? || e.ReadDraft? || e.Mark? || e.Submit? || e.SaveSubmit? || e.Find? || e.StoreCopy? || e.SaveSent?
    || e.Cleanup? || e.GiveUp?
  }

  predicate RowMove(e: Event) {
    e.Stage? || e.Staged? || e.Reconciled? || e.Retry?
  }

  function AddMessage(w: World, m: Message): World {
    w.(messages := w.messages[w.nextUid := m], nextUid := w.nextUid + 1)
  }

  /** The end of an execution frees its mailbox. */
  function End(w: World, g: nat): World
    requires g in w.executions
  {
    w.(executions := w.executions - {g}, active := w.active - {w.executions[g].mailbox})
  }

  function Put(w: World, g: nat, r: Row, x: Execution): World
    requires g in w.executions
  {
    w.(rows := w.rows[w.executions[g].id := r], executions := w.executions[g := x])
  }

  /** Saves the row and ends, or ends without saving when the database fails. */
  function Close(w: World, g: nat, r: Row, saved: bool): World
    requires g in w.executions
  {
    End(if saved then w.(rows := w.rows[w.executions[g].id := r]) else w, g)
  }

  predicate At(w: World, g: nat) {
    g in w.executions && w.executions[g].id in w.rows
  }

  /** Exits through `fail` are possible wherever the program checks something. */
  predicate MayGiveUp(p: Phase) {
    p.Loaded? || p.DraftRead? || p.Accepted? || p.Appending?
  }

  function ExecutionStep(w: World, e: Event): World
    requires ExecutionMove(e) && At(w, e.g)
  {
    var g := e.g;
    var x := w.executions[g];
    var id := x.id;
    var r := w.rows[id];
    match e
    case Begin(_, loaded) =>
      if !x.phase.Launched? then w
      else if r.status != Queued then End(w, g)
      else
        var running := r.(status := Running);
        if loaded then Put(w, g, running, x.(phase := Loaded, smtp := r.smtp, sent := r.sent))
        else Close(w, g, running, true)
    case ReadDraft(_) =>
      if !x.phase.Loaded? then w
      else if r.draft.Some? && Holds(w.messages, r.draft.value, id, r.plan.staging, r.plan.digest)
      then Put(w, g, r, x.(phase := if x.smtp == SmtpAccepted then Accepted else DraftRead))
      else Close(w, g, FailRow(r, x.smtp, x.sent), true)
    case Mark(_, valid) =>
      if !x.phase.DraftRead? then w
      else if x.smtp == SmtpNotStarted && valid && MayMark(r)
      then Put(w, g, r.(smtp := SmtpSubmitting), x.(phase := Submitting))
      else Close(w, g, FailRow(r, x.smtp, x.sent), true)
    case Submit(_, smtp) =>
      if !x.phase.Submitting? || smtp !in {SmtpAccepted, SmtpRejected, SmtpUnknown} then w
      else
        Put(w, g, r, x.(phase := Submitted(smtp), smtp := smtp))
        .(handoffs := w.handoffs[id := (if id in w.handoffs then w.handoffs[id] else 0) + 1])
    case SaveSubmit(_, saved) =>
      if !x.phase.Submitted? then w
      else if x.smtp != SmtpAccepted then
        Close(w, g, Persist(r, if x.smtp == SmtpUnknown then Unknown else Failed, x.smtp, SentNotStarted, None), saved)
      else if !saved then End(w, g)
      else Put(w, g, Persist(r, Running, SmtpAccepted, SentNotStarted, None), x.(phase := Accepted))
    case Find(_, saved) =>
      if !x.phase.Accepted? || r.plan.mode == Server then w
      else
        var found := Copies(w.messages, id, r.plan.sentFolder);
        if |found| > 1 then Close(w, g, FailRow(r, x.smtp, x.sent), saved)
        else if |found| == 1 then
          var u := Only(found);
          if w.messages[u].digest != r.plan.digest then Close(w, g, FailRow(r, x.smtp, x.sent), saved)
          else Put(w, g, r, x.(phase := Located(u)))
        else if !saved then End(w, g)
        else Put(w, g, Persist(r, Running, SmtpAccepted, SentSaving, None), x.(phase := Appending, sent := SentSaving))
    case StoreCopy(_, stored, found) =>
      if !x.phase.Appending? then w
      else
        var after := if stored then AddMessage(w, Message(id, r.plan.sentFolder, r.plan.digest)) else w;
        if stored && found then Put(after, g, r, x.(phase := Located(w.nextUid)))
        else Close(after, g, FailRow(r, x.smtp, x.sent), true)
    case SaveSent(_, saved) =>
      if x.phase.Accepted? && r.plan.mode == Server then
        if saved then Put(w, g, Persist(r, Sent, SmtpAccepted, SentServerManaged, None), x.(phase := Cleaning)) else End(w, g)
      else if x.phase.Located? then
        if saved then Put(w, g, Persist(r, Sent, SmtpAccepted, SentSaved, Some(x.phase.uid)), x.(phase := Cleaning)) else End(w, g)
      else w
    case Cleanup(_, deleted) =>
      if !x.phase.Cleaning? then w
      else if deleted && r.draft.Some? then End(w.(messages := w.messages - {r.draft.value}), g)
      else End(w, g)
    case GiveUp(_, saved) =>
      if MayGiveUp(x.phase) then Close(w, g, FailRow(r, x.smtp, x.sent), saved) else w
  }

  function RowStep(w: World, e: Event): World
    requires RowMove(e) && e.id in w.rows
  {
    var r := w.rows[e.id];
    match e
    case Stage(id) =>
      if r.status == Preparing && Copies(w.messages, id, r.plan.staging) == {}
      then AddMessage(w, Message(id, r.plan.staging, r.plan.digest)) else w
    case Staged(id, located) =>
      if located.None? || Holds(w.messages, located.value, id, r.plan.staging, r.plan.digest)
      then w.(rows := w.rows[id := CompleteStaging(r, located)]) else w
    case Reconciled(id, located) =>
      if id in w.toReconcile && (located.None? || Holds(w.messages, located.value, id, r.plan.staging, r.plan.digest))
      then w.(rows := w.rows[id := ReconcileStaging(r, located)], toReconcile := w.toReconcile - {id}) else w
    case Retry(id) => w.(rows := w.rows[id := RetrySentCopy(r)])
  }

  /** The dispatcher's test under its lock. */
  predicate MayLaunch(active: set<nat>, mailbox: nat) {
    |active| < CAP && mailbox !in active
  }

  function Step(w: World, e: Event): World {
    if ExecutionMove(e) then if At(w, e.g) then ExecutionStep(w, e) else w
    else if RowMove(e) then if e.id in w.rows then RowStep(w, e) else w
    else
      match e
      case ReserveIt(rk, digest, id, p, valid) =>
        var (rows, requests, result) := Reserve(w.rows, w.requests, rk, digest, id, p, valid);
        w.(rows := rows, requests := requests)
      case Restart =>
        World(map id | id in w.rows :: Recover(w.rows[id]), w.requests, w.messages, w.nextUid, map[], {},
              (set id | id in w.rows && w.rows[id].status == Preparing), w.handoffs)
      case Launch(g, id) =>
        if g in w.executions || id !in w.rows || !MayLaunch(w.active, w.rows[id].plan.mailbox) then w
        else
          w.(executions := w.executions[g := Execution(id, w.rows[id].plan.mailbox, Launched, SmtpNotStarted, SentNotStarted)],
             active := w.active + {w.rows[id].plan.mailbox})
  }

  function Run(w: World, es: seq<Event>): World
    decreases |es|
  {
    if es == [] then w else Run(Step(w, es[0]), es[1..])
  }

  function Handoffs(w: World, id: Id): nat {
    if id in w.handoffs then w.handoffs[id] else 0
  }
}
