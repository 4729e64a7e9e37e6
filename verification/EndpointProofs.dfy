/** Ready is sound: what would be used to connect is what a check proved. */
module EndpointProofs {

  import opened Wrappers
  import opened Endpoints

  // ----- what the records mean ------------------------------------------------

  /** The versions `v` of endpoint `id` stand for a combination that passed a check. */
  ghost predicate Certified(w: World, id: EndpointId, v: Versions) {
    && v.connection in w.connections && (id, v.endpoint) in w.configs && v.credential in w.issued
    && var config := w.configs[(id, v.endpoint)];
       var network := Effective(w.connections[v.connection], config, id.protocol);
       && config.credential == v.credential && network.Some?
       && Check(id.protocol, network.value, config.username, w.issued[v.credential]) in w.passed
  }

  ghost predicate RecordsOk(w: World) {
    && w.db.connection.revision in w.connections && w.connections[w.db.connection.revision] == w.db.connection
    && (forall r | r in w.connections :: r <= w.db.connection.revision && w.connections[r].revision == r)
    && (forall id | id in w.db.endpoints ::
          (id, w.db.endpoints[id].revision) in w.configs && w.configs[(id, w.db.endpoints[id].revision)] == w.db.endpoints[id].config)
    && (forall k | k in w.configs && k.0 in w.db.endpoints :: k.1 <= w.db.endpoints[k.0].revision)
  }

  /** A secret never changes; revoking erases it. */
  ghost predicate SecretsOk(w: World) {
    && w.db.credentials.Keys <= w.issued.Keys && 0 !in w.issued
    && (forall c | c in w.db.credentials ::
          w.db.credentials[c].secret == w.issued[c] || (w.db.credentials[c].secret == "" && w.db.credentials[c].state == Revoked))
  }

  ghost predicate EndpointsOk(w: World) {
    forall id | id in w.db.endpoints && w.db.endpoints[id].versions.Some? :: Certified(w, id, w.db.endpoints[id].versions.value)
  }

  /** A passed check has left its versions. */
  ghost predicate Versioned(db: Db) {
    forall id | id in db.endpoints && db.endpoints[id].status == Passed :: db.endpoints[id].versions.Some?
  }

  ghost predicate ItemOk(w: World, wr: Writer, p: Protocol, item: Item) {
    && (item.source.Existing? ==> item.source.id in w.issued && item.secret == w.issued[item.source.id])
    && match wr.kind
       case Reactivate =>
         var id := EndpointId(wr.mailbox, p);
         && item.source.Existing? && item.connection in w.connections && (id, item.endpoint) in w.configs
         && w.configs[(id, item.endpoint)].username == item.username && w.configs[(id, item.endpoint)].credential == item.source.id
         && Effective(w.connections[item.connection], w.configs[(id, item.endpoint)], p) == Some(item.network)
       case Managed =>
         var id := EndpointId(wr.mailbox, p);
         && item.source.Existing? && (id, item.endpoint) in w.configs
         && (wr.view.Some? ==> Effective(wr.view.value, w.configs[(id, item.endpoint)], p) == Some(item.network))
       case _ => Effective(wr.connection, Config(item.mode, item.override, item.username, 0), p) == Some(item.network)
  }

  ghost predicate Known(w: World, c: Connection) {
    c.revision in w.connections && w.connections[c.revision] == c
  }

  ghost predicate WriterOk(w: World, wr: Writer) {
    && Known(w, wr.connection)
    && (wr.view.Some? ==> Known(w, wr.view.value) && wr.connection.revision <= wr.view.value.revision)
    && (wr.kind == Managed && wr.view.None? ==> wr.items == map[])
    && (forall p | p in wr.items :: ItemOk(w, wr, p, wr.items[p]))
    && (forall p | p in wr.checked :: p in wr.items && Check(p, wr.items[p].network, wr.items[p].username, wr.items[p].secret) in w.passed)
  }

  ghost predicate Inv(w: World) {
    RecordsOk(w) && SecretsOk(w) && EndpointsOk(w) && Versioned(w.db) && forall n | n in w.writers :: WriterOk(w, w.writers[n])
  }

  // ----- records only grow ----------------------------------------------------

  ghost predicate Grows(w: World, w': World) {
    && w.passed <= w'.passed
    && (forall r | r in w.connections :: r in w'.connections && w'.connections[r] == w.connections[r])
    && (forall k | k in w.configs :: k in w'.configs && w'.configs[k] == w.configs[k])
    && (forall c | c in w.issued :: c in w'.issued && w'.issued[c] == w.issued[c])
  }

  lemma CertifiedGrows(w: World, w': World, id: EndpointId, v: Versions)
    requires Grows(w, w') && Certified(w, id, v)
    ensures Certified(w', id, v)
  {
  }

  lemma WriterGrows(w: World, w': World, wr: Writer)
    requires Grows(w, w') && WriterOk(w, wr)
    ensures WriterOk(w', wr)
  {
    forall p | p in wr.items ensures ItemOk(w', wr, p, wr.items[p]) {
      ItemGrows(w, w', wr, p, wr.items[p]);
    }
  }

  lemma ItemGrows(w: World, w': World, wr: Writer, p: Protocol, item: Item)
    requires Grows(w, w') && ItemOk(w, wr, p, item)
    ensures ItemOk(w', wr, p, item)
  {
  }

  /** A commit's new rows are recorded; nothing recorded changes meaning. */
  ghost predicate Moves(w: World, db: Db, created: map<nat, string>) {
    && (db.connection == w.db.connection || db.connection.revision == w.db.connection.revision + 1)
    && w.db.endpoints.Keys <= db.endpoints.Keys
    && (forall id | id in w.db.endpoints ::
          || (db.endpoints[id].config == w.db.endpoints[id].config && db.endpoints[id].revision == w.db.endpoints[id].revision)
          || db.endpoints[id].revision == w.db.endpoints[id].revision + 1)
    && (forall id | id in db.endpoints && id !in w.db.endpoints :: NeverRow(w, id))
    && Versioned(db)
    && created.Keys !! w.issued.Keys && 0 !in created
    && db.credentials.Keys == w.db.credentials.Keys + created.Keys
    && (forall c | c in created :: db.credentials[c].secret == created[c])
    && (forall c | c in w.db.credentials :: db.credentials[c].secret == w.db.credentials[c].secret
          && (w.db.credentials[c].state == Revoked ==> db.credentials[c].state == Revoked))
  }

  lemma RecordedKeeps(w: World, db: Db, created: map<nat, string>)
    requires RecordsOk(w) && SecretsOk(w) && Moves(w, db, created)
    ensures Grows(w, Recorded(w, db, created)) && RecordsOk(Recorded(w, db, created)) && SecretsOk(Recorded(w, db, created)) && Versioned(db)
  {
    RecordedRecords(w, db, created);
    RecordedSecrets(w, db, created);
  }

  lemma RecordedRecords(w: World, db: Db, created: map<nat, string>)
    requires RecordsOk(w) && SecretsOk(w) && Moves(w, db, created)
    ensures Grows(w, Recorded(w, db, created)) && RecordsOk(Recorded(w, db, created))
  {
    hide Latest;
    LatestIs(db);
    var w' := Recorded(w, db, created);
    assert w'.configs == w.configs + Latest(db);
    forall k | k in w.configs ensures w'.configs[k] == w.configs[k] {
      if k in Latest(db) { assert k.1 == db.endpoints[k.0].revision; }
    }
    forall k | k in w'.configs && k.0 in db.endpoints ensures k.1 <= db.endpoints[k.0].revision {
      if k !in Latest(db) { assert k in w.configs; }
    }
    forall id | id in db.endpoints ensures (id, db.endpoints[id].revision) in Latest(db) {}
  }

  lemma LatestIs(db: Db)
    ensures forall k :: k in Latest(db) <==> k.0 in db.endpoints && k.1 == db.endpoints[k.0].revision
    ensures forall k | k in Latest(db) :: Latest(db)[k] == db.endpoints[k.0].config
  {
  }

  lemma RecordedSecrets(w: World, db: Db, created: map<nat, string>)
    requires SecretsOk(w) && Moves(w, db, created)
    ensures SecretsOk(Recorded(w, db, created))
  {
  }

  /** Everything but the endpoints' versions is settled by the above. */
  lemma CommitKeeps(w: World, db: Db, created: map<nat, string>)
    requires Inv(w) && Moves(w, db, created)
    requires var w' := Recorded(w, db, created);
             Grows(w, w') ==> forall id | id in db.endpoints && db.endpoints[id].versions.Some? ::
               (id in w.db.endpoints && db.endpoints[id].versions == w.db.endpoints[id].versions) || Certified(w', id, db.endpoints[id].versions.value)
    ensures Inv(Recorded(w, db, created))
  {
    hide Moves, Certified, WriterOk, RecordsOk, SecretsOk, Versioned, Recorded, Grows;
    var w' := Recorded(w, db, created);
    SameWriters(w, db, created);
    RecordedKeeps(w, db, created);
    forall id | id in db.endpoints && db.endpoints[id].versions.Some? ensures Certified(w', id, db.endpoints[id].versions.value) {
      if id in w.db.endpoints && db.endpoints[id].versions == w.db.endpoints[id].versions {
        CertifiedGrows(w, w', id, db.endpoints[id].versions.value);
      }
    }
    forall n | n in w'.writers ensures WriterOk(w', w'.writers[n]) { WriterGrows(w, w', w.writers[n]); }
  }

  lemma DropWriter(w: World, n: nat)
    requires Inv(w)
    ensures Inv(w.(writers := w.writers - {n}))
  {
    hide WriterOk, Certified;
    var w' := w.(writers := w.writers - {n});
    forall m | m in w'.writers ensures WriterOk(w', w'.writers[m]) { WriterGrows(w, w', w.writers[m]); }
    forall id | id in w.db.endpoints && w.db.endpoints[id].versions.Some? ensures Certified(w', id, w.db.endpoints[id].versions.value) {
      CertifiedGrows(w, w', id, w.db.endpoints[id].versions.value);
    }
  }

  // ----- commits --------------------------------------------------------------

  lemma UpdateMoves(w: World, wr: Writer, created: map<nat, string>, used: map<Protocol, nat>, generation: nat)
    requires Inv(w) && CommitUpdate(w.db, wr, created, used, generation).Some? && created.Keys !! w.issued.Keys
    ensures Moves(w, CommitUpdate(w.db, wr, created, used, generation).value, created)
  {
    hide WriterOk, EndpointsOk, RecordsOk, Versioned, NeverRow;
    UpdateVersioned(w.db, wr, created, used, generation);
  }

  lemma UpdateVersioned(db: Db, wr: Writer, created: map<nat, string>, used: map<Protocol, nat>, generation: nat)
    requires Versioned(db) && CommitUpdate(db, wr, created, used, generation).Some?
    ensures Versioned(CommitUpdate(db, wr, created, used, generation).value)
  {
    hide SameRevisions, CredentialsFit, NextGeneration;
  }

  /** What an update writes to one endpoint is certified by the check it made. */
  lemma WrittenIsCertified(w: World, wr: Writer, db: Db, created: map<nat, string>, used: map<Protocol, nat>, generation: nat, id: EndpointId)
    requires WriterOk(w, wr) && wr.kind in {Update, EnteredCreation, Attach} && id.mailbox == wr.mailbox && id.protocol in wr.items && wr.checked == wr.items.Keys
    requires CredentialsFit(w.db, wr, created, used) && id in db.endpoints
    requires exists ep :: db.endpoints[id] == Written(ep, wr.items[id.protocol], wr.connection, CredentialOf(wr.items[id.protocol], used, id.protocol),
                                                      GenerationOf(wr.items[id.protocol], generation))
    requires created.Keys !! w.issued.Keys && Grows(w, Recorded(w, db, created))
    ensures Certified(Recorded(w, db, created), id, db.endpoints[id].versions.value)
  {
    var w' := Recorded(w, db, created);
    var p, item := id.protocol, wr.items[id.protocol];
    var ep := db.endpoints[id];
    assert ItemOk(w, wr, p, item);
    assert p in wr.checked;
    var cid := CredentialOf(item, used, p);
    assert item.secret == w'.issued[cid];
    LatestIs(db);
    assert (id, ep.revision) in Latest(db);
    assert w'.configs[(id, ep.revision)] == ep.config;
    assert Effective(wr.connection, ep.config, p) == Some(item.network);
  }

  lemma UpdateKeeps(w: World, n: nat, created: map<nat, string>, used: map<Protocol, nat>, generation: nat)
    requires Inv(w) && n in w.writers && w.writers[n].kind in {Update, EnteredCreation}
    requires CommitUpdate(w.db, w.writers[n], created, used, generation).Some? && created.Keys !! w.issued.Keys
    ensures Inv(Recorded(w, CommitUpdate(w.db, w.writers[n], created, used, generation).value, created))
  {
    hide Certified, WriterOk, Moves, Recorded, Inv;
    var wr := w.writers[n];
    var db := CommitUpdate(w.db, wr, created, used, generation).value;
    var w' := Recorded(w, db, created);
    UpdateMoves(w, wr, created, used, generation);
    WriterFacts(w, n);
    if Grows(w, w') {
      forall id | id in db.endpoints && db.endpoints[id].versions.Some?
        ensures (id in w.db.endpoints && db.endpoints[id].versions == w.db.endpoints[id].versions) || Certified(w', id, db.endpoints[id].versions.value)
      {
        if id.mailbox == wr.mailbox && id.protocol in wr.items {
          assert db.endpoints[id] == Written(w.db.endpoints[id], wr.items[id.protocol], wr.connection, CredentialOf(wr.items[id.protocol], used, id.protocol), GenerationOf(wr.items[id.protocol], generation));
          WrittenIsCertified(w, wr, db, created, used, generation, id);
        }
      }
    }
    CommitKeeps(w, db, created);
  }

  lemma WriterFacts(w: World, n: nat)
    requires Inv(w) && n in w.writers
    ensures WriterOk(w, w.writers[n]) && RecordsOk(w) && SecretsOk(w)
  {
    hide WriterOk, RecordsOk, SecretsOk, EndpointsOk;
  }

  lemma AttachMoves(w: World, wr: Writer, created: map<nat, string>, used: map<Protocol, nat>, address: string)
    requires Inv(w) && CommitAttach(w.db, wr, created, used, address).Some? && created.Keys !! w.issued.Keys
    requires forall p :: NeverRow(w, EndpointId(wr.mailbox, p))
    ensures Moves(w, CommitAttach(w.db, wr, created, used, address).value, created)
  {
    hide WriterOk, EndpointsOk, RecordsOk, AttachedEndpoints, NewCredentials;
    var db := CommitAttach(w.db, wr, created, used, address).value;
    AttachedKeys(wr, used);
    InsertedCredentials(wr.mailbox, created, 1);
    forall id | id in w.db.endpoints ensures db.endpoints[id] == w.db.endpoints[id] {
      assert id.mailbox != wr.mailbox;
    }
    forall id | id in db.endpoints && id !in w.db.endpoints ensures NeverRow(w, id) && (db.endpoints[id].status == Passed ==> db.endpoints[id].versions.Some?) {
      assert id == EndpointId(wr.mailbox, id.protocol);
      AttachedVersions(wr, used, id);
    }
  }

  lemma AttachedKeys(wr: Writer, used: map<Protocol, nat>)
    ensures forall id :: id in AttachedEndpoints(wr, used) <==> id.mailbox == wr.mailbox && id.protocol in wr.items.Keys + wr.off
  {
    forall id: EndpointId | id.mailbox == wr.mailbox && id.protocol in wr.items.Keys + wr.off ensures id in AttachedEndpoints(wr, used) {
      assert id == EndpointId(wr.mailbox, id.protocol);
    }
  }

  lemma AttachedVersions(wr: Writer, used: map<Protocol, nat>, id: EndpointId)
    requires id in AttachedEndpoints(wr, used)
    ensures AttachedEndpoints(wr, used)[id].status == Passed ==> AttachedEndpoints(wr, used)[id].versions.Some?
  {
    assert id == EndpointId(wr.mailbox, id.protocol);
  }

  lemma InsertedCredentials(mailbox: nat, created: map<nat, string>, generation: nat)
    ensures NewCredentials(mailbox, created, generation).Keys == created.Keys
    ensures forall c | c in created :: NewCredentials(mailbox, created, generation)[c].secret == created[c]
  {
  }

  lemma AttachKeeps(w: World, n: nat, created: map<nat, string>, used: map<Protocol, nat>, address: string)
    requires Inv(w) && n in w.writers && w.writers[n].kind == Attach
    requires CommitAttach(w.db, w.writers[n], created, used, address).Some? && created.Keys !! w.issued.Keys
    requires forall p :: NeverRow(w, EndpointId(w.writers[n].mailbox, p))
    ensures Inv(Recorded(w, CommitAttach(w.db, w.writers[n], created, used, address).value, created))
  {
    hide Certified, WriterOk, Moves, Recorded, Inv;
    var wr := w.writers[n];
    var db := CommitAttach(w.db, wr, created, used, address).value;
    var w' := Recorded(w, db, created);
    AttachMoves(w, wr, created, used, address);
    WriterFacts(w, n);
    if Grows(w, w') {
      forall id | id in db.endpoints && db.endpoints[id].versions.Some?
        ensures (id in w.db.endpoints && db.endpoints[id].versions == w.db.endpoints[id].versions) || Certified(w', id, db.endpoints[id].versions.value)
      {
        if id !in w.db.endpoints {
          var blank := Endpoint(Config(DisabledMode, None, "", 0), 0, Never, None);
          assert id in AttachedEndpoints(wr, used);
          assert id.protocol in wr.items;
          assert wr.items[id.protocol].source.NewSecret?;
          assert db.endpoints[id] == Written(blank, wr.items[id.protocol], wr.connection, CredentialOf(wr.items[id.protocol], used, id.protocol), GenerationOf(wr.items[id.protocol], 1));
          WrittenIsCertified(w, wr, db, created, used, 1, id);
        }
      }
    }
    CommitKeeps(w, db, created);
  }

  lemma ReactivateKeeps(w: World, n: nat)
    requires Inv(w) && n in w.writers && w.writers[n].kind == Reactivate && CommitReactivate(w.db, w.writers[n]).Some?
    ensures Inv(Recorded(w, CommitReactivate(w.db, w.writers[n]).value, map[]))
  {
    hide Certified, Moves, Recorded, Inv;
    var wr := w.writers[n];
    var db := CommitReactivate(w.db, wr).value;
    var w' := Recorded(w, db, map[]);
    ReactivateMoves(w, wr);
    WriterFacts(w, n);
    if Grows(w, w') {
      forall id | id in db.endpoints && db.endpoints[id].versions.Some?
        ensures (id in w.db.endpoints && db.endpoints[id].versions == w.db.endpoints[id].versions) || Certified(w', id, db.endpoints[id].versions.value)
      {
        if id.mailbox == wr.mailbox && id.protocol in wr.items {
          assert id == EndpointId(wr.mailbox, id.protocol);
          ResolvedIsCertified(w, wr, id);
          CertifiedGrows(w, w', id, db.endpoints[id].versions.value);
        }
      }
    }
    CommitKeeps(w, db, map[]);
  }

  lemma ResolvedIsCertified(w: World, wr: Writer, id: EndpointId)
    requires WriterOk(w, wr) && wr.kind == Reactivate && id.mailbox == wr.mailbox && id.protocol in wr.items && wr.checked == wr.items.Keys
    ensures var item := wr.items[id.protocol];
            item.source.Existing? && Certified(w, id, Versions(item.connection, item.endpoint, item.source.id, item.source.generation))
  {
    assert ItemOk(w, wr, id.protocol, wr.items[id.protocol]);
    assert id == EndpointId(wr.mailbox, id.protocol) && id.protocol in wr.checked;
  }

  lemma ReactivateMoves(w: World, wr: Writer)
    requires Inv(w) && CommitReactivate(w.db, wr).Some?
    ensures Moves(w, CommitReactivate(w.db, wr).value, map[])
  {
    hide WriterOk, EndpointsOk, RecordsOk;
  }

  lemma ManagedDb(db: Db, wr: Writer, credential: nat)
    requires CommitManaged(db, wr, credential).Some?
    ensures var next := CommitManaged(db, wr, credential).value;
            && next.connection == db.connection && next.endpoints.Keys == db.endpoints.Keys
            && (forall id | id in db.endpoints :: next.endpoints[id] == db.endpoints[id]
                  || (next.endpoints[id].revision == db.endpoints[id].revision + 1 && next.endpoints[id].versions.Some?))
            && credential in db.credentials && db.credentials[credential].state == Candidate
            && next.credentials == db.credentials[credential := db.credentials[credential].(state := Active)]
  {
    hide SameRevisions;
  }

  lemma ManagedMoves(w: World, wr: Writer, credential: nat)
    requires Inv(w) && CommitManaged(w.db, wr, credential).Some?
    ensures Moves(w, CommitManaged(w.db, wr, credential).value, map[])
  {
    hide WriterOk, EndpointsOk, RecordsOk, CommitManaged;
    ManagedDb(w.db, wr, credential);
  }

  /** The two connection reads of a managed rotation were of one revision, because
      the commit still finds the first one current. */
  lemma ManagedIsCertified(w: World, wr: Writer, credential: nat, id: EndpointId)
    requires RecordsOk(w) && WriterOk(w, wr) && wr.kind == Managed && CommitManaged(w.db, wr, credential).Some?
    requires id in w.db.endpoints && id.mailbox == wr.mailbox && id.protocol in wr.items
    requires Grows(w, Recorded(w, CommitManaged(w.db, wr, credential).value, map[]))
    ensures var db := CommitManaged(w.db, wr, credential).value;
            db.endpoints[id].versions.Some? && Certified(Recorded(w, db, map[]), id, db.endpoints[id].versions.value)
  {
    hide RecordsOk, Inv;
    var p, item := id.protocol, wr.items[id.protocol];
    var db := CommitManaged(w.db, wr, credential).value;
    assert id == EndpointId(wr.mailbox, p) && p in wr.checked;
    assert ItemOk(w, wr, p, item);
    ManagedView(w, wr);
    var was := w.db.endpoints[id];
    assert was.revision == item.endpoint && item.source.id == credential;
    assert w.configs[(id, item.endpoint)] == was.config by { RowRecorded(w, id); }
    ManagedRow(w, wr, credential, id, was, db);
  }

  lemma RowRecorded(w: World, id: EndpointId)
    requires RecordsOk(w) && id in w.db.endpoints
    ensures (id, w.db.endpoints[id].revision) in w.configs && w.configs[(id, w.db.endpoints[id].revision)] == w.db.endpoints[id].config
  {
  }

  lemma ManagedView(w: World, wr: Writer)
    requires RecordsOk(w) && WriterOk(w, wr) && wr.kind == Managed && wr.items != map[] && w.db.connection.revision == wr.connection.revision
    ensures wr.view == Some(wr.connection) && w.db.connection == wr.connection
  {
    hide ItemOk;
  }

  lemma ManagedRow(w: World, wr: Writer, credential: nat, id: EndpointId, was: Endpoint, db: Db)
    requires id.protocol in wr.items && id in db.endpoints && credential in w.issued
    requires var item := wr.items[id.protocol];
             && item.secret == w.issued[credential] && Effective(wr.connection, was.config, id.protocol) == Some(item.network)
             && Check(id.protocol, item.network, item.username, item.secret) in w.passed
             && db.endpoints[id].config == was.config.(credential := credential, username := item.username)
             && db.endpoints[id].revision == was.revision + 1
             && db.endpoints[id].versions.Some?
             && db.endpoints[id].versions.value.connection == wr.connection.revision
             && db.endpoints[id].versions.value.endpoint == was.revision + 1 && db.endpoints[id].versions.value.credential == credential
    requires Known(w, wr.connection) && db.connection == wr.connection && Grows(w, Recorded(w, db, map[]))
    ensures Certified(Recorded(w, db, map[]), id, db.endpoints[id].versions.value)
  {
    hide Latest;
    LatestIs(db);
    var w' := Recorded(w, db, map[]);
    var ep := db.endpoints[id];
    assert (id, ep.revision) in Latest(db);
    assert w'.configs[(id, ep.revision)] == ep.config;
    assert Effective(wr.connection, ep.config, id.protocol) == Effective(wr.connection, was.config, id.protocol);
  }

  lemma ManagedKeeps(w: World, n: nat, credential: nat)
    requires Inv(w) && n in w.writers && w.writers[n].kind == Managed && CommitManaged(w.db, w.writers[n], credential).Some?
    ensures Inv(Recorded(w, CommitManaged(w.db, w.writers[n], credential).value, map[]))
  {
    hide Certified, WriterOk, Moves, Recorded, Inv;
    var wr := w.writers[n];
    var db := CommitManaged(w.db, wr, credential).value;
    var w' := Recorded(w, db, map[]);
    ManagedMoves(w, wr, credential);
    WriterFacts(w, n);
    if Grows(w, w') {
      forall id | id in db.endpoints && db.endpoints[id].versions.Some?
        ensures (id in w.db.endpoints && db.endpoints[id].versions == w.db.endpoints[id].versions) || Certified(w', id, db.endpoints[id].versions.value)
      {
        if id.mailbox == wr.mailbox && id.protocol in wr.items { ManagedIsCertified(w, wr, credential, id); }
      }
    }
    CommitKeeps(w, db, map[]);
  }

  lemma ConfigureKeeps(w: World, expected: nat, enabled: bool, templates: Templates)
    requires Inv(w) && CommitConfigure(w.db, expected, enabled, templates).Some?
    ensures Inv(Recorded(w, CommitConfigure(w.db, expected, enabled, templates).value, map[]))
  {
    hide Certified, WriterOk, Recorded;
    var db := CommitConfigure(w.db, expected, enabled, templates).value;
    assert Moves(w, db, map[]);
    CommitKeeps(w, db, map[]);
  }

  // ----- the writers' own steps -----------------------------------------------

  lemma FillKeeps(w: World, n: nat, p: Protocol, item: Item)
    requires Inv(w) && n in w.writers && ItemOk(w, w.writers[n], p, item)
    requires w.writers[n].kind == Managed ==> w.writers[n].view.Some?
    ensures Inv(Fill(w, n, p, item))
  {
    hide Certified, ItemOk, Known;
    var w' := Fill(w, n, p, item);
    assert Grows(w, w');
    forall id | id in w.db.endpoints && w.db.endpoints[id].versions.Some? ensures Certified(w', id, w.db.endpoints[id].versions.value) {
      CertifiedGrows(w, w', id, w.db.endpoints[id].versions.value);
    }
    forall m | m in w'.writers ensures WriterOk(w', w'.writers[m]) {
      if m != n { WriterGrows(w, w', w.writers[m]); } else { FilledOk(w, w', w.writers[n], p, item); }
    }
  }

  lemma FilledOk(w: World, w': World, wr: Writer, p: Protocol, item: Item)
    requires Grows(w, w') && WriterOk(w, wr) && ItemOk(w, wr, p, item) && (wr.kind == Managed ==> wr.view.Some?)
    ensures WriterOk(w', wr.(items := wr.items[p := item], checked := wr.checked - {p}))
  {
    hide ItemOk;
    var next := wr.(items := wr.items[p := item], checked := wr.checked - {p});
    WriterGrows(w, w', wr);
    ItemGrows(w, w', wr, p, item);
    forall q | q in next.items ensures ItemOk(w', next, q, next.items[q]) {
      SameItem(w', wr, next, q, next.items[q]);
    }
  }

  lemma SameItem(w: World, a: Writer, b: Writer, p: Protocol, item: Item)
    requires ItemOk(w, a, p, item) && b.kind == a.kind && b.mailbox == a.mailbox && b.connection == a.connection && b.view == a.view
    ensures ItemOk(w, b, p, item)
  {
  }

  lemma InputOk(w: World, wr: Writer, p: Protocol, mode: Mode, override: Option<Network>, username: string, source: Source, secret: string)
    requires SecretsOk(w) && wr.kind in {Update, Attach, EnteredCreation}
    requires InputItem(w.db, wr, p, mode, override, username, source, secret).Some?
    ensures ItemOk(w, wr, p, InputItem(w.db, wr, p, mode, override, username, source, secret).value)
  {
  }

  lemma ResolvedOk(w: World, wr: Writer, p: Protocol)
    requires RecordsOk(w) && SecretsOk(w) && wr.kind == Reactivate && ResolvedItem(w.db, wr, p).Some?
    ensures ItemOk(w, wr, p, ResolvedItem(w.db, wr, p).value)
  {
  }

  lemma ManagedOk(w: World, wr: Writer, p: Protocol, credential: nat)
    requires RecordsOk(w) && SecretsOk(w) && wr.kind == Managed && ManagedItem(w.db, wr, p, credential).Some?
    ensures ItemOk(w, wr, p, ManagedItem(w.db, wr, p, credential).value) && wr.view.Some?
  {
  }

  /** Replacing one writer by a sound one, with more checks passed. */
  lemma ReplaceKeeps(w: World, n: nat, wr: Writer, passed: set<Check>)
    requires Inv(w) && w.passed <= passed && WriterOk(w.(passed := passed), wr)
    ensures Inv(w.(writers := w.writers[n := wr], passed := passed))
  {
    hide Certified, WriterOk;
    var w' := w.(writers := w.writers[n := wr], passed := passed);
    assert Grows(w, w') && Grows(w.(passed := passed), w');
    forall id | id in w.db.endpoints && w.db.endpoints[id].versions.Some? ensures Certified(w', id, w.db.endpoints[id].versions.value) {
      CertifiedGrows(w, w', id, w.db.endpoints[id].versions.value);
    }
    forall m | m in w'.writers ensures WriterOk(w', w'.writers[m]) {
      if m == n { WriterGrows(w.(passed := passed), w', wr); } else { WriterGrows(w, w', w.writers[m]); }
    }
  }

  lemma PassedOk(w: World, wr: Writer, p: Protocol)
    requires WriterOk(w, wr) && p in wr.items
    ensures WriterOk(w.(passed := w.passed + {Check(p, wr.items[p].network, wr.items[p].username, wr.items[p].secret)}), wr.(checked := wr.checked + {p}))
  {
    hide ItemOk;
    var w' := w.(passed := w.passed + {Check(p, wr.items[p].network, wr.items[p].username, wr.items[p].secret)});
    WriterGrows(w, w', wr);
    forall q | q in wr.items ensures ItemOk(w', wr.(checked := wr.checked + {p}), q, wr.items[q]) {
      SameItem(w', wr, wr.(checked := wr.checked + {p}), q, wr.items[q]);
    }
  }

  lemma ViewOk(w: World, wr: Writer)
    requires RecordsOk(w) && WriterOk(w, wr) && wr.kind == Managed && wr.view.None?
    ensures WriterOk(w, wr.(view := Some(w.db.connection)))
  {
    hide ItemOk;
  }

  lemma WriterStepKeeps(w: World, e: Event)
    requires e.FillInput? || e.FillResolved? || e.ViewConnection? || e.FillManaged? || e.PassCheck? || e.Commit?
    requires Inv(w) && e.n in w.writers && FreshId(w, e)
    ensures Inv(WriterStep(w, e))
  {
    hide Inv, WriterOk, RecordsOk, SecretsOk, InputItem, ResolvedItem, ManagedItem, ItemOk, CommitUpdate, CommitAttach, CommitReactivate, CommitManaged;
    var n, wr := e.n, w.writers[e.n];
    WriterFacts(w, n);
    match e
    case FillInput(_, p, mode, override, username, source, secret) =>
      if InputItem(w.db, wr, p, mode, override, username, source, secret).Some? && wr.kind in {Update, Attach, EnteredCreation} {
        InputOk(w, wr, p, mode, override, username, source, secret);
        FillKeeps(w, n, p, InputItem(w.db, wr, p, mode, override, username, source, secret).value);
      }
    case FillResolved(_, p) =>
      if ResolvedItem(w.db, wr, p).Some? && wr.kind == Reactivate {
        ResolvedOk(w, wr, p);
        FillKeeps(w, n, p, ResolvedItem(w.db, wr, p).value);
      }
    case ViewConnection(_) =>
      if wr.kind == Managed && wr.view.None? {
        ViewOk(w, wr);
        assert w.(passed := w.passed) == w;
        ReplaceKeeps(w, n, wr.(view := Some(w.db.connection)), w.passed);
      }
    case FillManaged(_, p, credential) =>
      if ManagedItem(w.db, wr, p, credential).Some? && wr.kind == Managed {
        ManagedOk(w, wr, p, credential);
        FillKeeps(w, n, p, ManagedItem(w.db, wr, p, credential).value);
      }
    case PassCheck(_, p) =>
      if p in wr.items {
        PassedOk(w, wr, p);
        ReplaceKeeps(w, n, wr.(checked := wr.checked + {p}), w.passed + {Check(p, wr.items[p].network, wr.items[p].username, wr.items[p].secret)});
      }
    case Commit(_, created, used, generation, credential, address) => CommitStepKeeps(w, e);
  }

  lemma CommitStepKeeps(w: World, e: Event)
    requires Inv(w) && e.Commit? && e.n in w.writers && FreshId(w, e)
    ensures Inv(WriterStep(w, e))
  {
    hide Inv, CommitUpdate, CommitAttach, CommitReactivate, CommitManaged, Recorded, NeverRow;
    var wr := w.writers[e.n];
    if CommitOf(w.db, wr, e).Some? {
      NewIds(w, wr, e);
      var created := if wr.kind in {Update, Attach, EnteredCreation} then e.created else map[];
      match wr.kind {
        case Update => UpdateKeeps(w, e.n, e.created, e.used, e.generation);
        case EnteredCreation => UpdateKeeps(w, e.n, e.created, e.used, e.generation);
        case Attach => AttachKeeps(w, e.n, e.created, e.used, e.address);
        case Reactivate => ReactivateKeeps(w, e.n);
        case Managed => ManagedKeeps(w, e.n, e.credential);
      }
      var w' := Recorded(w, CommitOf(w.db, wr, e).value, created);
      assert w'.writers == w.writers by { SameWriters(w, CommitOf(w.db, wr, e).value, created); }
      DropWriter(w', e.n);
    }
  }

  lemma NewIds(w: World, wr: Writer, e: Event)
    requires e.Commit? && CommitOf(w.db, wr, e).Some? && e.n in w.writers && wr == w.writers[e.n] && FreshId(w, e)
    ensures wr.kind in {Update, EnteredCreation, Attach} ==> e.created.Keys !! w.issued.Keys
    ensures wr.kind == Attach ==> forall p :: NeverRow(w, EndpointId(wr.mailbox, p))
  {
    hide NeverRow;
  }

  lemma SameWriters(w: World, db: Db, created: map<nat, string>)
    ensures Recorded(w, db, created).writers == w.writers && Recorded(w, db, created).db == db
  {
  }

  lemma BeginKeeps(w: World, n: nat, kind: Kind, mailbox: nat, off: set<Protocol>)
    requires Inv(w)
    ensures Inv(Step(w, Begin(n, kind, mailbox, off)))
  {
    hide EndpointsOk, SecretsOk;
    var w' := Step(w, Begin(n, kind, mailbox, off));
    if w' != w {
      assert w.(passed := w.passed) == w;
      assert WriterOk(w, w'.writers[n]);
      ReplaceKeeps(w, n, w'.writers[n], w.passed);
    }
  }

  /** Changes outside connection, endpoints and secrets. */
  lemma TableKeeps(w: World, db: Db)
    requires Inv(w) && db.connection == w.db.connection && db.endpoints == w.db.endpoints && SecretsOk(w.(db := db))
    ensures Inv(w.(db := db))
  {
    hide Certified, WriterOk, SecretsOk;
    var w' := w.(db := db);
    assert Grows(w, w');
    forall id | id in w.db.endpoints && w.db.endpoints[id].versions.Some? ensures Certified(w', id, w.db.endpoints[id].versions.value) {
      CertifiedGrows(w, w', id, w.db.endpoints[id].versions.value);
    }
    forall m | m in w.writers ensures WriterOk(w', w.writers[m]) { WriterGrows(w, w', w.writers[m]); }
  }

  lemma ChangeStateKeeps(w: World, credential: nat, state: CredentialState)
    requires Inv(w)
    ensures Inv(Step(w, ChangeState(credential, state)))
  {
    hide EndpointsOk, RecordsOk, WriterOk;
    var w' := Step(w, ChangeState(credential, state));
    if w' != w { TableKeeps(w, w'.db); }
  }

  lemma NewCandidateMoves(w: World, credential: nat, cr: Credential)
    requires SecretsOk(w) && Versioned(w.db) && credential != 0 && credential !in w.issued
    ensures Moves(w, w.db.(credentials := w.db.credentials[credential := cr]), map[credential := cr.secret])
  {
    hide NeverRow;
  }

  lemma NewCandidateKeeps(w: World, credential: nat, mailbox: nat, secret: string, generation: nat)
    requires Inv(w) && credential != 0 && credential !in w.issued
    ensures Inv(Recorded(w, w.db.(credentials := w.db.credentials[credential := Credential(mailbox, secret, generation, Candidate)]), map[credential := secret]))
  {
    hide WriterOk, Certified, Recorded, RecordsOk, EndpointsOk, Versioned, Moves, SecretsOk;
    NewCandidateMoves(w, credential, Credential(mailbox, secret, generation, Candidate));
    CommitKeeps(w, w.db.(credentials := w.db.credentials[credential := Credential(mailbox, secret, generation, Candidate)]), map[credential := secret]);
  }

  lemma NewEndpointKeeps(w: World, id: EndpointId, mode: Mode, username: string)
    requires Inv(w) && id !in w.db.endpoints && NeverRow(w, id)
    ensures Inv(Recorded(w, w.db.(endpoints := w.db.endpoints[id := Endpoint(Config(mode, None, username, 0), 1, Never, None)]), map[]))
  {
    hide WriterOk, Certified, Recorded, RecordsOk, EndpointsOk;
    var db := w.db.(endpoints := w.db.endpoints[id := Endpoint(Config(mode, None, username, 0), 1, Never, None)]);
    assert Moves(w, db, map[]);
    CommitKeeps(w, db, map[]);
  }

  lemma NewRowsKeep(w: World, e: Event)
    requires Inv(w) && (e.NewCandidate? || e.NewEndpoint?) && FreshId(w, e)
    ensures Inv(Step(w, e))
  {
    hide Inv, Recorded, NextGeneration;
    match e
    case NewCandidate(credential, mailbox, secret, generation) =>
      if Step(w, e) != w { NewCandidateKeeps(w, credential, mailbox, secret, generation); }
    case NewEndpoint(id, mode, username) =>
      if Step(w, e) != w { NewEndpointKeeps(w, id, mode, username); }
  }

  lemma UpdateConnectionKeeps(w: World, enabled: bool)
    requires Inv(w)
    ensures Inv(Recorded(w, w.db.(connection := Connection(w.db.connection.revision + 1, enabled, w.db.connection.templates)), map[]))
  {
    hide Certified, WriterOk, Recorded, RecordsOk;
    var db := w.db.(connection := Connection(w.db.connection.revision + 1, enabled, w.db.connection.templates));
    assert Moves(w, db, map[]);
    CommitKeeps(w, db, map[]);
  }

  lemma DeleteKeeps(w: World, mailbox: nat)
    requires Inv(w)
    ensures Inv(Step(w, DeleteMailbox(mailbox)))
  {
    hide Certified, WriterOk;
    var w' := Step(w, DeleteMailbox(mailbox));
    assert Grows(w, w');
    forall id | id in w'.db.endpoints && w'.db.endpoints[id].versions.Some? ensures Certified(w', id, w'.db.endpoints[id].versions.value) {
      CertifiedGrows(w, w', id, w.db.endpoints[id].versions.value);
    }
    forall m | m in w.writers ensures WriterOk(w', w.writers[m]) { WriterGrows(w, w', w.writers[m]); }
  }

  lemma StepKeeps(w: World, e: Event)
    requires Inv(w) && FreshId(w, e)
    ensures Inv(Step(w, e))
  {
    hide Inv, WriterStep, CommitConfigure, Recorded;
    if e.FillInput? || e.FillResolved? || e.ViewConnection? || e.FillManaged? || e.PassCheck? || e.Commit? {
      if e.n in w.writers { WriterStepKeeps(w, e); }
    } else if e.Begin? {
      BeginKeeps(w, e.n, e.kind, e.mailbox, e.off);
    } else if e.Abandon? {
      DropWriter(w, e.n);
    } else if e.Configure? {
      if CommitConfigure(w.db, e.expected, e.enabled, e.templates).Some? { ConfigureKeeps(w, e.expected, e.enabled, e.templates); }
    } else if e.UpdateConnection? {
      UpdateConnectionKeeps(w, e.enabled);
    } else if e.DeleteMailbox? {
      DeleteKeeps(w, e.mailbox);
    } else if e.ChangeState? {
      ChangeStateKeeps(w, e.credential, e.state);
    } else if e.NewCandidate? || e.NewEndpoint? {
      NewRowsKeep(w, e);
    } else {
      MailboxKeeps(w, e);
    }
  }

  lemma MailboxKeeps(w: World, e: Event)
    requires Inv(w) && (e.SetActive? || e.NewMailbox?)
    ensures Inv(Step(w, e))
  {
    hide EndpointsOk, RecordsOk, WriterOk;
    TableKeeps(w, Step(w, e).db);
  }

  lemma {:induction false} RunKeeps(w: World, es: seq<Event>)
    requires Inv(w) && FreshRun(w, es)
    ensures Inv(Run(w, es))
    decreases |es|
  {
    hide Inv, Step, FreshId;
    if es != [] {
      StepKeeps(w, es[0]);
      RunKeeps(Step(w, es[0]), es[1..]);
    }
  }

  lemma StartOk(c: Connection)
    ensures Inv(Start(c))
  {
  }

  // ----- the promises ---------------------------------------------------------

  lemma ReadyMeans(w: World, id: EndpointId)
    requires Inv(w) && id in w.db.endpoints && id.mailbox in w.db.mailboxes && ReadinessOf(w.db, id) == Ready
    ensures var r := Resolve(w.db, id);
            r.Ok? && Check(id.protocol, r.resolved.network, r.resolved.username, r.resolved.secret) in w.passed
  {
    hide WriterOk;
    var ep := w.db.endpoints[id];
    assert Certified(w, id, ep.versions.value);
    assert w.configs[(id, ep.revision)] == ep.config;
  }

  /** Whatever the writers interleave and however old their reads are, as long as no
      id is used twice: when an endpoint reads as ready, resolving it gives exactly a network, user name and
      secret with which a check of that protocol succeeded. */
  lemma ReadyIsSound(c: Connection, es: seq<Event>, id: EndpointId)
    requires FreshRun(Start(c), es)
    requires var db := Run(Start(c), es).db; id in db.endpoints && id.mailbox in db.mailboxes && ReadinessOf(db, id) == Ready
    ensures var w := Run(Start(c), es);
            var r := Resolve(w.db, id);
            r.Ok? && Check(id.protocol, r.resolved.network, r.resolved.username, r.resolved.secret) in w.passed
  {
    hide Inv, Run;
    StartOk(c);
    RunKeeps(Start(c), es);
    ReadyMeans(Run(Start(c), es), id);
  }

  /** In every reachable state: ready is what resolving an active mailbox's endpoint
      gives when the list also shows the check as passed; so the two readers of the
      cache agree. */
  lemma ReadyIffShownPassed(c: Connection, es: seq<Event>, id: EndpointId)
    requires FreshRun(Start(c), es)
    requires var db := Run(Start(c), es).db; id in db.endpoints && id.mailbox in db.mailboxes
    ensures var db := Run(Start(c), es).db;
            ReadinessOf(db, id) == Ready
            <==> db.mailboxes[id.mailbox].active && Resolve(db, id).Ok? && ShownStatus(db, id) == Passed
  {
    hide Inv, Run;
    StartOk(c);
    RunKeeps(Start(c), es);
    if Run(Start(c), es).db.endpoints[id].status == Passed { PassedHasVersions(Run(Start(c), es), id); }
  }

  lemma PassedHasVersions(w: World, id: EndpointId)
    requires Inv(w) && id in w.db.endpoints && w.db.endpoints[id].status == Passed
    ensures w.db.endpoints[id].versions.Some?
  {
    hide WriterOk, Certified;
  }
}
