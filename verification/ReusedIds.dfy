/** Ids of deleted rows may be given out again. A rotation that was checked before its
    mailbox was deleted can then activate a credential nobody checked. */
module ReusedIds {

  import opened Wrappers
  import opened Endpoints
  import opened EndpointProofs

  // ----- the exact condition, for any ids -------------------------------------------

  /** Connecting would use exactly what the item was checked with. */
  predicate ResolvesTo(db: Db, id: EndpointId, item: Item) {
    var r := Resolve(db, id);
    r.Ok? && r.resolved.network == item.network && r.resolved.username == item.username && r.resolved.secret == item.secret
  }

  /** What the row will say after the commit, but for the credential. */
  function ConfigAfter(db: Db, wr: Writer, p: Protocol): Config
    requires p in wr.items && (wr.kind in {Reactivate, Managed} ==> EndpointId(wr.mailbox, p) in db.endpoints)
  {
    var item := wr.items[p];
    match wr.kind
    case Reactivate => db.endpoints[EndpointId(wr.mailbox, p)].config
    case Managed => db.endpoints[EndpointId(wr.mailbox, p)].config.(username := item.username)
    case _ => Config(item.mode, if item.mode == Override then Some(item.network) else None, item.username, 0)
  }

  /** Row and credential still hold what the item was read from, and it can be used. */
  predicate StillHolds(db: Db, wr: Writer, p: Protocol)
    requires p in wr.items
  {
    var id, item := EndpointId(wr.mailbox, p), wr.items[p];
    && item.username != "" && item.secret != "" && item.network.enabled
    && (wr.kind in {Reactivate, Managed} ==> id in db.endpoints)
    && (var config := ConfigAfter(db, wr, p);
        config.mode != DisabledMode && config.username == item.username && Effective(db.connection, config, p) == Some(item.network))
    && (item.source.Existing? ==>
          var c := item.source.id; c in db.credentials && db.credentials[c].mailbox == wr.mailbox && db.credentials[c].secret == item.secret)
  }

  lemma UpdateResolvesIff(db: Db, wr: Writer, created: map<nat, string>, used: map<Protocol, nat>, generation: nat, p: Protocol)
    requires wr.kind in {Update, EnteredCreation} && p in wr.items && CommitUpdate(db, wr, created, used, generation).Some?
    requires EndpointId(wr.mailbox, p) in db.endpoints
    ensures ResolvesTo(CommitUpdate(db, wr, created, used, generation).value, EndpointId(wr.mailbox, p), wr.items[p]) <==> StillHolds(db, wr, p)
  {
    hide NextGeneration;
  }

  lemma AttachResolvesIff(db: Db, wr: Writer, created: map<nat, string>, used: map<Protocol, nat>, address: string, p: Protocol)
    requires wr.kind == Attach && p in wr.items && CommitAttach(db, wr, created, used, address).Some?
    ensures ResolvesTo(CommitAttach(db, wr, created, used, address).value, EndpointId(wr.mailbox, p), wr.items[p]) <==> StillHolds(db, wr, p)
  {
    hide AttachedEndpoints;
    AttachedRow(wr, used, p);
  }

  lemma AttachedRow(wr: Writer, used: map<Protocol, nat>, p: Protocol)
    requires p in wr.items
    ensures var id := EndpointId(wr.mailbox, p);
            id in AttachedEndpoints(wr, used)
            && AttachedEndpoints(wr, used)[id]
               == Written(Endpoint(Config(DisabledMode, None, "", 0), 0, Never, None), wr.items[p], wr.connection, CredentialOf(wr.items[p], used, p), 1)
  {
    AttachedKeys(wr, used);
  }

  lemma ReactivateResolvesIff(db: Db, wr: Writer, p: Protocol)
    requires wr.kind == Reactivate && p in wr.items && CommitReactivate(db, wr).Some?
    ensures ResolvesTo(CommitReactivate(db, wr).value, EndpointId(wr.mailbox, p), wr.items[p]) <==> StillHolds(db, wr, p)
  {
  }

  lemma ManagedResolvesIff(db: Db, wr: Writer, credential: nat, p: Protocol)
    requires wr.kind == Managed && p in wr.items && CommitManaged(db, wr, credential).Some?
    ensures ResolvesTo(CommitManaged(db, wr, credential).value, EndpointId(wr.mailbox, p), wr.items[p]) <==> StillHolds(db, wr, p)
  {
  }

  /** Whatever ids were reused: an endpoint that a commit writes resolves to exactly
      what the writer checked if and only if row and credential still hold what the
      writer read. */
  lemma CommitResolvesIff(w: World, e: Event, p: Protocol)
    requires e.Commit? && e.n in w.writers && p in w.writers[e.n].items && CommitOf(w.db, w.writers[e.n], e).Some?
    requires EndpointId(w.writers[e.n].mailbox, p) in CommitOf(w.db, w.writers[e.n], e).value.endpoints
    ensures ResolvesTo(CommitOf(w.db, w.writers[e.n], e).value, EndpointId(w.writers[e.n].mailbox, p), w.writers[e.n].items[p])
            <==> StillHolds(w.db, w.writers[e.n], p)
  {
    hide ResolvesTo, StillHolds, CommitUpdate, CommitAttach, CommitReactivate, CommitManaged;
    var wr := w.writers[e.n];
    match wr.kind
    case Reactivate => ReactivateResolvesIff(w.db, wr, p);
    case Managed => ManagedResolvesIff(w.db, wr, e.credential, p);
    case Attach => AttachResolvesIff(w.db, wr, e.created, e.used, e.address, p);
    case _ =>
      UpdateRows(w.db, wr, e.created, e.used, e.generation);
      UpdateResolvesIff(w.db, wr, e.created, e.used, e.generation, p);
  }

  lemma UpdateRows(db: Db, wr: Writer, created: map<nat, string>, used: map<Protocol, nat>, generation: nat)
    requires CommitUpdate(db, wr, created, used, generation).Some?
    ensures CommitUpdate(db, wr, created, used, generation).value.endpoints.Keys == db.endpoints.Keys
  {
  }

  // ----- reused ids ---------------------------------------------------------------

  const NET := Network("mail", 993, "tls", true)
  const LINE := Connection(1, true, Templates(NET, NET, NET))
  const ROW := EndpointId(5, Imap)
  const ITEM := Item(Inherit, None, NET, "a@x", "one", Existing(9, 1), 1, 1)
  const CHECKED := Writer(Managed, 5, 1, LINE, Some(LINE), {}, map[Imap := ITEM], {Imap})
  const CHECK := Check(Imap, NET, "a@x", "one")

  const NONE := Db(LINE, map[], map[], map[])

  /** Mailbox 5 with one endpoint and candidate 9. */
  function Settled(secret: string): Db {
    Db(LINE, map[5 := Mailbox("a@x", true, 1)], map[ROW := Endpoint(Config(Inherit, None, "a@x", 0), 1, Never, None)],
       map[9 := Credential(5, secret, 1, Candidate)])
  }

  predicate IsAt(w: World, db: Db, writers: map<nat, Writer>, passed: set<Check>) {
    w.db == db && w.writers == writers && w.passed == passed
  }

  /** Row 5 reads as ready, but what it resolves to never passed a check. */
  ghost predicate Misleading(w: World) {
    && ROW in w.db.endpoints && 5 in w.db.mailboxes && ReadinessOf(w.db, ROW) == Ready
    && var r := Resolve(w.db, ROW); r.Ok? && Check(Imap, r.resolved.network, r.resolved.username, r.resolved.secret) !in w.passed
  }

  ghost predicate CanMislead(w: World) {
    exists es :: Misleading(Run(w, es))
  }

  lemma MisleadsBefore(w: World, e: Event)
    requires CanMislead(Step(w, e))
    ensures CanMislead(w)
  {
    hide Step, Misleading;
    var es :| Misleading(Run(Step(w, e), es));
    var all := [e] + es;
    assert all[1..] == es;
    assert Misleading(Run(w, all));
  }

  function AddBox(w: World): World {
    Step(w, NewMailbox(5, "a@x", true))
  }

  function AddRow(w: World): World {
    Step(AddBox(w), NewEndpoint(ROW, Inherit, "a@x"))
  }

  function AddCandidate(w: World, secret: string): World {
    Step(AddRow(w), NewCandidate(9, 5, secret, 1))
  }

  lemma AddsBox(w: World, secret: string)
    requires w.db == NONE && secret != ""
    ensures IsAt(AddCandidate(w, secret), Settled(secret), w.writers, w.passed)
  {
    var w1, w2, w3 := AddBox(w), AddRow(w), AddCandidate(w, secret);
    assert w1.db.mailboxes == map[5 := Mailbox("a@x", true, 1)];
    assert w2.db.endpoints == map[ROW := Endpoint(Config(Inherit, None, "a@x", 0), 1, Never, None)];
    assert w3.db.credentials == map[9 := Credential(5, secret, 1, Candidate)];
  }

  function Read(w: World): World {
    Step(Step(w, Begin(0, Managed, 5, {})), ViewConnection(0))
  }

  function CheckIt(w: World): World {
    Step(Step(Read(w), FillManaged(0, Imap, 9)), PassCheck(0, Imap))
  }

  const BEGUN := CHECKED.(items := map[], checked := {})
  const FILLED := CHECKED.(checked := {})

  lemma Reads(w: World)
    requires IsAt(w, Settled("one"), map[], {})
    ensures IsAt(Read(w), Settled("one"), map[0 := BEGUN], {})
  {
    assert Step(w, Begin(0, Managed, 5, {})).writers == map[0 := BEGUN.(view := None)];
  }

  lemma Fills(w: World)
    requires IsAt(w, Settled("one"), map[0 := BEGUN], {})
    ensures IsAt(Step(w, FillManaged(0, Imap, 9)), Settled("one"), map[0 := FILLED], {})
  {
    assert ManagedItem(w.db, BEGUN, Imap, 9) == Some(ITEM);
    assert BEGUN.items[Imap := ITEM] == map[Imap := ITEM] && BEGUN.checked - {Imap} == {};
  }

  lemma Passes(w: World)
    requires IsAt(w, Settled("one"), map[0 := FILLED], {})
    ensures IsAt(Step(w, PassCheck(0, Imap)), Settled("one"), map[0 := CHECKED], {CHECK})
  {
    assert FILLED.checked + {Imap} == {Imap};
  }

  lemma ChecksOne(w: World)
    requires IsAt(w, Settled("one"), map[], {})
    ensures IsAt(CheckIt(w), Settled("one"), map[0 := CHECKED], {CHECK})
  {
    hide IsAt, Step;
    Reads(w);
    Fills(Read(w));
    Passes(Step(Read(w), FillManaged(0, Imap, 9)));
  }

  const AFTER := Db(
    LINE, map[5 := Mailbox("a@x", true, 2)], map[ROW := Endpoint(Config(Inherit, None, "a@x", 9), 2, Passed, Some(Versions(1, 2, 9, 1)))],
    map[9 := Credential(5, "two", 1, Active)])

  lemma Activates()
    ensures CommitManaged(Settled("two"), CHECKED, 9) == Some(AFTER)
  {
    var db := Settled("two");
    assert SameRevisions(db, CHECKED);
    var next := CommitManaged(db, CHECKED, 9).value;
    assert next.endpoints == AFTER.endpoints by { assert next.endpoints.Keys == {ROW} && next.endpoints[ROW] == AFTER.endpoints[ROW]; }
    assert db.mailboxes[5 := Mailbox("a@x", true, 2)] == AFTER.mailboxes;
    assert db.credentials[9 := Credential(5, "two", 1, Active)] == AFTER.credentials;
  }

  lemma AfterMisleads(w: World)
    requires w.db == AFTER && w.passed == {CHECK}
    ensures Misleading(w)
  {
  }

  lemma Commits(w: World)
    requires w.writers == map[0 := CHECKED] && CommitManaged(w.db, CHECKED, 9) == Some(AFTER)
    ensures var w' := Step(w, Commit(0, map[], map[], 1, 9, "")); w'.db == AFTER && w'.passed == w.passed
  {
    hide CommitManaged, CommitUpdate, CommitAttach, CommitReactivate, Latest;
  }

  lemma ActivatesTwo(w: World)
    requires IsAt(w, Settled("two"), map[0 := CHECKED], {CHECK})
    ensures Misleading(Step(w, Commit(0, map[], map[], 1, 9, "")))
  {
    hide Misleading, CommitManaged, Step;
    Activates();
    Commits(w);
    AfterMisleads(Step(w, Commit(0, map[], map[], 1, 9, "")));
  }

  /** Candidate 9 of mailbox 5 passes its check; the mailbox is deleted; a new mailbox
      gets id 5 and a candidate id 9. The old rotation still commits. */
  lemma ReusedIdIsReady()
    ensures CanMislead(Start(LINE))
  {
    hide Step, Misleading, CanMislead, Start;
    var w := Start(LINE);
    assert IsAt(w, NONE, map[], {}) by { Starts(); }
    var w3 := AddCandidate(w, "one");
    AddsBox(w, "one");
    var w7 := CheckIt(w3);
    ChecksOne(w3);
    var w8 := Step(w7, DeleteMailbox(5));
    assert IsAt(w8, NONE, map[0 := CHECKED], {CHECK}) by { Deletes(w7); }
    var w11 := AddCandidate(w8, "two");
    AddsBox(w8, "two");
    ActivatesTwo(w11);
    Ends(Step(w11, Commit(0, map[], map[], 1, 9, "")));
    MisleadsBefore(w11, Commit(0, map[], map[], 1, 9, ""));
    Adding(w8, "two");
    MisleadsBefore(w7, DeleteMailbox(5));
    Checking(w3);
    Adding(w, "one");
  }

  lemma Starts()
    ensures IsAt(Start(LINE), NONE, map[], {})
  {}

  lemma Deletes(w: World)
    requires IsAt(w, Settled("one"), map[0 := CHECKED], {CHECK})
    ensures IsAt(Step(w, DeleteMailbox(5)), NONE, map[0 := CHECKED], {CHECK})
  {
    var db := Without(w.db, 5);
    assert db.mailboxes == map[] && db.endpoints == map[] && db.credentials == map[];
  }

  lemma Ends(w: World)
    requires Misleading(w)
    ensures CanMislead(w)
  {
    assert Run(w, []) == w;
  }

  lemma Adding(w: World, secret: string)
    requires CanMislead(AddCandidate(w, secret))
    ensures CanMislead(w)
  {
    hide Step, CanMislead;
    MisleadsBefore(AddRow(w), NewCandidate(9, 5, secret, 1));
    MisleadsBefore(AddBox(w), NewEndpoint(ROW, Inherit, "a@x"));
    MisleadsBefore(w, NewMailbox(5, "a@x", true));
  }

  lemma Checking(w: World)
    requires CanMislead(CheckIt(w))
    ensures CanMislead(w)
  {
    hide Step, CanMislead;
    var begun := Step(w, Begin(0, Managed, 5, {}));
    MisleadsBefore(Step(Read(w), FillManaged(0, Imap, 9)), PassCheck(0, Imap));
    MisleadsBefore(Read(w), FillManaged(0, Imap, 9));
    MisleadsBefore(begun, ViewConnection(0));
    MisleadsBefore(w, Begin(0, Managed, 5, {}));
  }
}
