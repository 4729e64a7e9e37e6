/** The endpoint tables with their transactions: every write of an endpoint row in
    the order the protocols are handled, all of a transaction or nothing. */
module EndpointStore {

  import opened Wrappers
  import opened Endpoints

  lemma EveryProtocol(p: Protocol)
    ensures p in PROTOCOLS
  {
    assert PROTOCOLS[0] == Imap && PROTOCOLS[1] == Smtp && PROTOCOLS[2] == ManageSieve;
  }

  /** The rows written so far: those of the protocols in `done` are as in `target`. */
  ghost predicate PartlyWritten(
    was: map<EndpointId, Endpoint>, now: map<EndpointId, Endpoint>, target: map<EndpointId, Endpoint>, mailbox: nat, done: seq<Protocol>)
  {
    && now.Keys == was.Keys == target.Keys
    && forall id | id in now :: now[id] == if id.mailbox == mailbox && id.protocol in done then target[id] else was[id]
  }

  lemma AllWritten(was: map<EndpointId, Endpoint>, now: map<EndpointId, Endpoint>, target: map<EndpointId, Endpoint>, mailbox: nat)
    requires PartlyWritten(was, now, target, mailbox, PROTOCOLS[..|PROTOCOLS|])
    requires forall id | id in target && id.mailbox != mailbox :: id in was && target[id] == was[id]
    ensures now == target
  {
    forall id | id in now ensures now[id] == target[id] { EveryProtocol(id.protocol); }
  }

  lemma OneMore(was: map<EndpointId, Endpoint>, now: map<EndpointId, Endpoint>, next: map<EndpointId, Endpoint>,
                target: map<EndpointId, Endpoint>, mailbox: nat, i: nat)
    requires i < |PROTOCOLS| && PartlyWritten(was, now, target, mailbox, PROTOCOLS[..i])
    requires var id := EndpointId(mailbox, PROTOCOLS[i]);
             next == if id in now then now[id := target[id]] else now
    ensures PartlyWritten(was, next, target, mailbox, PROTOCOLS[..i + 1])
  {
    assert PROTOCOLS[..i + 1] == PROTOCOLS[..i] + [PROTOCOLS[i]];
  }

  class EndpointTables {
    var connection: Connection
    var mailboxes: map<nat, Mailbox>
    var endpoints: map<EndpointId, Endpoint>
    var credentials: map<nat, Credential>

    function State(): Db
      reads this
    {
      Db(connection, mailboxes, endpoints, credentials)
    }

    constructor (c: Connection)
      ensures State() == Db(c, map[], map[], map[])
    {
      connection, mailboxes, endpoints, credentials := c, map[], map[], map[];
    }

    method UpdateEndpoints(w: Writer, created: map<nat, string>, used: map<Protocol, nat>, generation: nat) returns (ok: bool)
      requires w.kind == Update
      modifies this
      ensures ok <==> CommitUpdate(old(State()), w, created, used, generation).Some?
      ensures State() == if ok then CommitUpdate(old(State()), w, created, used, generation).value else old(State())
    {
      if !SameRevisions(State(), w) || !CredentialsFit(State(), w, created, used) || !NextGeneration(credentials, w.mailbox, generation) {
        return false;
      }
      ghost var target := UpdatedEndpoints(State(), w, used, generation);
      ghost var was := endpoints;
      for i := 0 to |PROTOCOLS|
        invariant connection == old(connection) && mailboxes == old(mailboxes) && credentials == old(credentials)
        invariant PartlyWritten(was, endpoints, target, w.mailbox, PROTOCOLS[..i])
      {
        ghost var now := endpoints;
        var p := PROTOCOLS[i];
        var id := EndpointId(w.mailbox, p);
        if id in endpoints {
          assert p !in PROTOCOLS[..i];
          if p in w.items {
            var item := w.items[p];
            endpoints := endpoints[id := Written(endpoints[id], item, w.connection, CredentialOf(item, used, p), GenerationOf(item, generation))];
          } else if p in w.off {
            endpoints := endpoints[id := SwitchedOff(endpoints[id])];
          }
        }
        OneMore(was, now, endpoints, target, w.mailbox, i);
      }
      AllWritten(was, endpoints, target, w.mailbox);
      credentials := credentials + NewCredentials(w.mailbox, created, generation);
      mailboxes := mailboxes[w.mailbox := Bumped(mailboxes[w.mailbox], mailboxes[w.mailbox].active)];
      return true;
    }

    /** The activation of a managed credential. A row whose revision moved on undoes
        the whole transaction. */
    method ActivateManaged(w: Writer, credential: nat) returns (ok: bool)
      requires w.kind == Managed
      modifies this
      ensures ok <==> CommitManaged(old(State()), w, credential).Some?
      ensures State() == if ok then CommitManaged(old(State()), w, credential).value else old(State())
    {
      if !SameRevisions(State(), w) || credential !in credentials || credentials[credential].state != Candidate { return false; }
      var pointed, rows := PointEndpoints(w, credential);
      if !pointed { return false; }
      endpoints := rows;
      credentials := credentials[credential := credentials[credential].(state := Active)];
      mailboxes := mailboxes[w.mailbox := Bumped(mailboxes[w.mailbox], mailboxes[w.mailbox].active)];
      return true;
    }

    /** The row of a checked endpoint after the activation. */
    function Pointed(w: Writer, credential: nat, ep: Endpoint, username: string): Endpoint
      requires credential in credentials
      reads this
    {
      Endpoint(ep.config.(credential := credential, username := username), ep.revision + 1, Passed,
               Some(Versions(w.connection.revision, ep.revision + 1, credential, credentials[credential].generation)))
    }

    /** The checked endpoint is still as it was read. */
    predicate Unmoved(w: Writer, credential: nat, p: Protocol)
      requires credential in credentials && p in w.items
      reads this
    {
      var id, item := EndpointId(w.mailbox, p), w.items[p];
      id in endpoints && endpoints[id].revision == item.endpoint && item.source == Existing(credential, credentials[credential].generation)
    }

    /** Points each checked endpoint to the credential, in the order of the protocols. */
    method PointEndpoints(w: Writer, credential: nat) returns (ok: bool, rows: map<EndpointId, Endpoint>)
      requires credential in credentials
      ensures ok <==> forall p | p in w.items :: Unmoved(w, credential, p)
      ensures ok ==> rows == map id | id in endpoints ::
                       if id.mailbox == w.mailbox && id.protocol in w.items then Pointed(w, credential, endpoints[id], w.items[id.protocol].username)
                       else endpoints[id]
    {
      ghost var target := map id | id in endpoints ::
        if id.mailbox == w.mailbox && id.protocol in w.items then Pointed(w, credential, endpoints[id], w.items[id.protocol].username)
        else endpoints[id];
      rows := endpoints;
      for i := 0 to |PROTOCOLS|
        invariant PartlyWritten(endpoints, rows, target, w.mailbox, PROTOCOLS[..i])
        invariant forall q | q in w.items && q in PROTOCOLS[..i] :: Unmoved(w, credential, q)
      {
        ghost var now := rows;
        var p := PROTOCOLS[i];
        var id := EndpointId(w.mailbox, p);
        assert p !in PROTOCOLS[..i];
        if p in w.items {
          if !Unmoved(w, credential, p) { return false, rows; }
          rows := rows[id := Pointed(w, credential, rows[id], w.items[p].username)];
        }
        OneMore(endpoints, now, rows, target, w.mailbox, i);
        assert PROTOCOLS[..i + 1] == PROTOCOLS[..i] + [p];
      }
      forall q | q in w.items ensures q in PROTOCOLS[..|PROTOCOLS|] { EveryProtocol(q); }
      AllWritten(endpoints, rows, target, w.mailbox);
      ok := true;
    }

    /** Afterwards no endpoint reads as ready or is listed as passed, nothing else about
        the endpoints has changed, and a second change from the same read is refused. */
    method ConfigureConnection(expected: nat, enabled: bool, templates: Templates) returns (ok: bool)
      modifies this`connection, this`endpoints
      ensures ok <==> old(connection).revision == expected
      ensures State() == if ok then CommitConfigure(old(State()), expected, enabled, templates).value else old(State())
      ensures ok ==> connection.revision != expected
      ensures ok ==> forall id | id in endpoints ::
                && ShownStatus(State(), id) != Passed
                && (id.mailbox in mailboxes ==> ReadinessOf(State(), id) != Ready)
                && endpoints[id].(status := Never) == old(endpoints)[id].(status := Never)
    {
      if connection.revision != expected { return false; }
      connection := Connection(expected + 1, enabled, templates);
      var left := endpoints.Keys;
      while left != {}
        invariant left <= endpoints.Keys == old(endpoints).Keys
        invariant connection == Connection(expected + 1, enabled, templates)
        invariant forall id | id in endpoints ::
                    endpoints[id] == if id !in left && old(endpoints)[id].status == Passed then old(endpoints)[id].(status := Stale) else old(endpoints)[id]
        decreases |left|
      {
        var id :| id in left;
        left := left - {id};
        if endpoints[id].status == Passed { endpoints := endpoints[id := endpoints[id].(status := Stale)]; }
      }
      assert endpoints == CommitConfigure(old(State()), expected, enabled, templates).value.endpoints;
      return true;
    }
  }
}
