/** The endpoint check cache. An endpoint reads as ready only through a vector of
    versions recorded when a connection check passed; six writers set, bump or
    outdate that vector, each from reads it made earlier. */
module Endpoints {

  import opened Wrappers

  datatype Protocol = Imap | Smtp | ManageSieve
  const PROTOCOLS := [Imap, Smtp, ManageSieve]

  datatype Network = Network(host: string, port: nat, tlsMode: string, enabled: bool)
  datatype Templates = Templates(forImap: Network, forSmtp: Network, forManageSieve: Network)

  function TemplateFor(t: Templates, p: Protocol): Network {
    match p
    case Imap => t.forImap
    case Smtp => t.forSmtp
    case ManageSieve => t.forManageSieve
  }

  datatype Mode = Inherit | Override | DisabledMode

  /** What an endpoint is configured to use; `credential` is 0 for none. */
  datatype Config = Config(mode: Mode, override: Option<Network>, username: string, credential: nat)

  datatype CheckStatus = Never | Passed | Stale
  datatype Versions = Versions(connection: nat, endpoint: nat, credential: nat, generation: nat)
  datatype Endpoint = Endpoint(config: Config, revision: nat, status: CheckStatus, versions: Option<Versions>)
  datatype EndpointId = EndpointId(mailbox: nat, protocol: Protocol)

  datatype CredentialState = Candidate | Active | RevocationPending | Revoked | Retired
  datatype Credential = Credential(mailbox: nat, secret: string, generation: nat, state: CredentialState)

  datatype Connection = Connection(revision: nat, enabled: bool, templates: Templates)
  datatype Mailbox = Mailbox(address: string, active: bool, revision: nat)

  /** One connection with its mailboxes. */
  datatype Db = Db(
    connection: Connection, mailboxes: map<nat, Mailbox>, endpoints: map<EndpointId, Endpoint>, credentials: map<nat, Credential>)

  // ----- reading --------------------------------------------------------------

  /** The network an endpoint uses, none when an override is missing. */
  function Effective(c: Connection, config: Config, p: Protocol): Option<Network> {
    match config.mode
    case Inherit => Some(TemplateFor(c.templates, p))
    case Override => config.override
    case DisabledMode => None
  }

  predicate NetworkEnabled(n: Option<Network>) {
    n.Some? && n.value.enabled
  }

  /** The credential joined to an endpoint: of the same mailbox. */
  predicate Joined(db: Db, id: EndpointId) {
    id in db.endpoints && var cid := db.endpoints[id].config.credential; cid in db.credentials && db.credentials[cid].mailbox == id.mailbox
  }

  datatype Readiness = Disabled | Unconfigured | Ready | Unverified

  /** The readiness rule of the mailbox listing. */
  function ReadinessOf(db: Db, id: EndpointId): Readiness
    requires id in db.endpoints && id.mailbox in db.mailboxes
  {
    var ep := db.endpoints[id];
    if !db.connection.enabled || !db.mailboxes[id.mailbox].active || ep.config.mode == DisabledMode then Disabled
    else if ep.config.username == "" || !Joined(db, id) then Unconfigured
    else
      var cr := db.credentials[ep.config.credential];
      if cr.state != Active || cr.secret == "" || !NetworkEnabled(Effective(db.connection, ep.config, id.protocol)) then Unconfigured
      else if ep.status == Passed && ep.versions == Some(Versions(db.connection.revision, ep.revision, ep.config.credential, cr.generation))
      then Ready
      else Unverified
  }

  datatype Resolved = Resolved(network: Network, username: string, secret: string, versions: Versions)
  datatype Resolution = Refused | Ok(resolved: Resolved)

  /** `ResolveEndpoint`: what would be used to connect. */
  function Resolve(db: Db, id: EndpointId): Resolution {
    if id !in db.endpoints || !db.connection.enabled || db.endpoints[id].config.mode == DisabledMode then Refused
    else
      var ep := db.endpoints[id];
      var network := Effective(db.connection, ep.config, id.protocol);
      if !NetworkEnabled(network) || ep.config.username == "" || !Joined(db, id) then Refused
      else
        var cr := db.credentials[ep.config.credential];
        if cr.secret == "" || cr.state != Active then Refused
        else
          Ok(Resolved(network.value, ep.config.username, cr.secret,
                      Versions(db.connection.revision, ep.revision, ep.config.credential, cr.generation)))
  }

  /** The endpoint list shows a passed check as stale once any version moved on. */
  function ShownStatus(db: Db, id: EndpointId): CheckStatus
    requires id in db.endpoints
  {
    var ep := db.endpoints[id];
    if ep.versions.None? then ep.status
    else
      var v := ep.versions.value;
      if v.connection == db.connection.revision && v.endpoint == ep.revision && Joined(db, id) && v.credential == ep.config.credential
         && v.generation == db.credentials[ep.config.credential].generation
      then ep.status else Stale
  }

  // ----- writers --------------------------------------------------------------

  /** Where a candidate's secret comes from. */
  datatype Source = NewSecret | Existing(id: nat, generation: nat)

  /** A candidate as it is checked: the network, user name and secret to try, and
      the versions they were read at. */
  datatype Item = Item(
    mode: Mode, override: Option<Network>, network: Network, username: string, secret: string, source: Source,
    connection: nat, endpoint: nat)

  datatype Kind = Update | Attach | EnteredCreation | Reactivate | Managed

  /** A writer in flight. `off` are the protocols it switches off, `view` is the
      second connection read of a managed rotation, `checked` the items whose
      check has passed. */
  datatype Writer = Writer(
    kind: Kind, mailbox: nat, mailboxRevision: nat, connection: Connection, view: Option<Connection>,
    off: set<Protocol>, items: map<Protocol, Item>, checked: set<Protocol>)

  /** What a passed check proved. */
  datatype Check = Check(protocol: Protocol, network: Network, username: string, secret: string)

  /** `passed` are the checks that succeeded. The histories record what every
      revision stood for and every secret that was issued; nothing reads them. */
  datatype World = World(
    db: Db, writers: map<nat, Writer>, passed: set<Check>,
    connections: map<nat, Connection>, configs: map<(EndpointId, nat), Config>, issued: map<nat, string>)

  /** `COALESCE(MAX(generation),0)+1` over the mailbox's credentials. */
  predicate NextGeneration(cs: map<nat, Credential>, mailbox: nat, g: nat) {
    && g > 0
    && (forall c | c in cs && cs[c].mailbox == mailbox :: cs[c].generation < g)
    && (g > 1 ==> exists c | c in cs :: cs[c].mailbox == mailbox && cs[c].generation == g - 1)
  }

  // ----- commits --------------------------------------------------------------

  predicate SameRevisions(db: Db, w: Writer) {
    && db.connection.revision == w.connection.revision && db.connection.enabled
    && w.mailbox in db.mailboxes && db.mailboxes[w.mailbox].revision == w.mailboxRevision
    && w.checked == w.items.Keys
  }

  /** The credential id an item ends up with; `used` names the new ones. */
  function CredentialOf(item: Item, used: map<Protocol, nat>, p: Protocol): nat {
    if item.source.Existing? then item.source.id else if p in used then used[p] else 0
  }

  function GenerationOf(item: Item, generation: nat): nat {
    if item.source.Existing? then item.source.generation else generation
  }

  /** `created` are the inserted credentials by id. Each new item uses one with
      its own secret; an existing credential must still be active at the generation
      that was read. */
  predicate CredentialsFit(db: Db, w: Writer, created: map<nat, string>, used: map<Protocol, nat>) {
    && (forall c | c in created :: c > 0 && c !in db.credentials)
    && (forall p | p in w.items && w.items[p].source.NewSecret? :: p in used && used[p] in created && created[used[p]] == w.items[p].secret)
    && (forall p | p in w.items && w.items[p].source.Existing? ::
          var s := w.items[p].source;
          s.id in db.credentials && db.credentials[s.id].mailbox == w.mailbox && db.credentials[s.id].state == Active
          && db.credentials[s.id].generation == s.generation)
  }

  function NewCredentials(mailbox: nat, created: map<nat, string>, generation: nat): map<nat, Credential> {
    map c | c in created :: Credential(mailbox, created[c], generation, Active)
  }

  /** An endpoint row after `UpdateEndpoints` or entered creation wrote it. */
  function Written(ep: Endpoint, item: Item, c: Connection, credential: nat, generation: nat): Endpoint {
    Endpoint(Config(item.mode, if item.mode == Override then Some(item.network) else None, item.username, credential),
             ep.revision + 1, Passed, Some(Versions(c.revision, ep.revision + 1, credential, generation)))
  }

  function SwitchedOff(ep: Endpoint): Endpoint {
    Endpoint(Config(DisabledMode, None, "", 0), ep.revision + 1, Never, None)
  }

  function UpdatedEndpoints(db: Db, w: Writer, used: map<Protocol, nat>, generation: nat): map<EndpointId, Endpoint> {
    map id | id in db.endpoints ::
      if id.mailbox != w.mailbox then db.endpoints[id]
      else if id.protocol in w.items then
        var item := w.items[id.protocol];
        Written(db.endpoints[id], item, w.connection, CredentialOf(item, used, id.protocol), GenerationOf(item, generation))
      else if id.protocol in w.off then SwitchedOff(db.endpoints[id])
      else db.endpoints[id]
  }

  function Bumped(m: Mailbox, active: bool): Mailbox {
    m.(active := active, revision := m.revision + 1)
  }

  /** `UpdateEndpoints` and `enteredCreationCredential`: the second only on rows
      that were never written. */
  function CommitUpdate(db: Db, w: Writer, created: map<nat, string>, used: map<Protocol, nat>, generation: nat): Option<Db> {
    if !SameRevisions(db, w) || !CredentialsFit(db, w, created, used) then None
    else if w.kind == EnteredCreation
            && (generation != 1 || exists id | id in db.endpoints :: id.mailbox == w.mailbox && db.endpoints[id].revision != 1)
    then None
    else if w.kind == Update && !NextGeneration(db.credentials, w.mailbox, generation) then None
    else
      Some(db.(endpoints := UpdatedEndpoints(db, w, used, generation),
               credentials := db.credentials + NewCredentials(w.mailbox, created, generation),
               mailboxes := db.mailboxes[w.mailbox := Bumped(db.mailboxes[w.mailbox], db.mailboxes[w.mailbox].active)]))
  }

  function AttachedEndpoints(w: Writer, used: map<Protocol, nat>): map<EndpointId, Endpoint> {
    map p | p in w.items.Keys + w.off :: EndpointId(w.mailbox, p) :=
      if p in w.items then
        var item := w.items[p];
        Written(Endpoint(Config(DisabledMode, None, "", 0), 0, Never, None), item, w.connection, CredentialOf(item, used, p), 1)
      else SwitchedOff(Endpoint(Config(DisabledMode, None, "", 0), 0, Never, None))
  }

  /** `AttachMailbox`: a new mailbox whose endpoints start at revision 1. */
  function CommitAttach(db: Db, w: Writer, created: map<nat, string>, used: map<Protocol, nat>, address: string): Option<Db> {
    if db.connection.revision != w.connection.revision || !db.connection.enabled || w.mailbox in db.mailboxes
       || (exists id | id in db.endpoints :: id.mailbox == w.mailbox) || w.checked != w.items.Keys
       || !CredentialsFit(db, w, created, used) || (exists p | p in w.items :: w.items[p].source.Existing?)
    then None
    else
      Some(db.(endpoints := db.endpoints + AttachedEndpoints(w, used),
               credentials := db.credentials + NewCredentials(w.mailbox, created, 1),
               mailboxes := db.mailboxes[w.mailbox := Mailbox(address, true, 1)]))
  }

  /** `reactivateMailboxProtocols`: the same configuration, checked again. */
  function CommitReactivate(db: Db, w: Writer): Option<Db> {
    if w.checked != w.items.Keys || w.mailbox !in db.mailboxes || db.mailboxes[w.mailbox].revision != w.mailboxRevision
       || db.mailboxes[w.mailbox].active || !db.connection.enabled
    then None
    else if exists p | p in w.items ::
              var id, item := EndpointId(w.mailbox, p), w.items[p];
              id !in db.endpoints || db.endpoints[id].revision != item.endpoint || !item.source.Existing?
              || db.endpoints[id].config.credential != item.source.id || item.source.id !in db.credentials
              || db.credentials[item.source.id].generation != item.source.generation
              || db.credentials[item.source.id].state != Active || db.connection.revision != item.connection
    then None
    else
      Some(db.(endpoints := map id | id in db.endpoints ::
                 if id.mailbox == w.mailbox && id.protocol in w.items then
                   var item := w.items[id.protocol];
                   if item.source.Existing? then
                     db.endpoints[id].(status := Passed,
                       versions := Some(Versions(item.connection, item.endpoint, item.source.id, item.source.generation)))
                   else db.endpoints[id]
                 else db.endpoints[id],
               mailboxes := db.mailboxes[w.mailbox := Bumped(db.mailboxes[w.mailbox], true)]))
  }

  /** The activation of a managed credential: the endpoints that were checked with
      it are pointed to it. */
  function CommitManaged(db: Db, w: Writer, credential: nat): Option<Db> {
    if !SameRevisions(db, w) || credential !in db.credentials || db.credentials[credential].state != Candidate then None
    else if exists p | p in w.items ::
              var id, item := EndpointId(w.mailbox, p), w.items[p];
              id !in db.endpoints || db.endpoints[id].revision != item.endpoint || item.source != Existing(credential, db.credentials[credential].generation)
    then None
    else
      Some(db.(endpoints := map id | id in db.endpoints ::
                 if id.mailbox == w.mailbox && id.protocol in w.items then
                   var ep := db.endpoints[id];
                   Endpoint(ep.config.(credential := credential, username := w.items[id.protocol].username), ep.revision + 1, Passed,
                            Some(Versions(w.connection.revision, ep.revision + 1, credential, db.credentials[credential].generation)))
                 else db.endpoints[id],
               credentials := db.credentials[credential := db.credentials[credential].(state := Active)],
               mailboxes := db.mailboxes[w.mailbox := Bumped(db.mailboxes[w.mailbox], db.mailboxes[w.mailbox].active)]))
  }

  /** `ConfigureConnection`: the revision moves on and passed checks become stale. */
  function CommitConfigure(db: Db, expected: nat, enabled: bool, templates: Templates): Option<Db> {
    if db.connection.revision != expected then None
    else
      Some(db.(connection := Connection(expected + 1, enabled, templates),
               endpoints := map id | id in db.endpoints ::
                 if db.endpoints[id].status == Passed then db.endpoints[id].(status := Stale) else db.endpoints[id]))
  }

  // ----- steps ----------------------------------------------------------------

  datatype Event =
    // a writer reads the connection and the mailbox revision
    | Begin(n: nat, kind: Kind, mailbox: nat, off: set<Protocol>)
    // it prepares one candidate, reading the credential or the endpoint now
    | FillInput(n: nat, p: Protocol, mode: Mode, override: Option<Network>, username: string, source: Source, secret: string)
    | FillResolved(n: nat, p: Protocol)
    | ViewConnection(n: nat)
    | FillManaged(n: nat, p: Protocol, credential: nat)
    // the protocol check of one candidate passes
    | PassCheck(n: nat, p: Protocol)
    | Commit(n: nat, created: map<nat, string>, used: map<Protocol, nat>, generation: nat, credential: nat, address: string)
    | Abandon(n: nat)
    // the connection and the credentials change
    | Configure(expected: nat, enabled: bool, templates: Templates)
    | UpdateConnection(expected: nat, enabled: bool)
    | NewCandidate(credential: nat, mailbox: nat, secret: string, generation: nat)
    | ChangeState(credential: nat, state: CredentialState)     // retire, or revoke and erase
    | SetActive(mailbox: nat, active: bool)                    // suspend, archive
    | NewMailbox(mailbox: nat, address: string, active: bool)  // import, managed creation
    | NewEndpoint(id: EndpointId, mode: Mode, username: string)
    | DeleteMailbox(mailbox: nat)

  function CommitOf(db: Db, w: Writer, e: Event): Option<Db>
    requires e.Commit?
  {
    match w.kind
    case Update => CommitUpdate(db, w, e.created, e.used, e.generation)
    case EnteredCreation => CommitUpdate(db, w, e.created, e.used, e.generation)
    case Attach => CommitAttach(db, w, e.created, e.used, e.address)
    case Reactivate => CommitReactivate(db, w)
    case Managed => CommitManaged(db, w, e.credential)
  }

  /** What every endpoint's current revision stands for. */
  function Latest(db: Db): map<(EndpointId, nat), Config> {
    map id | id in db.endpoints :: (id, db.endpoints[id].revision) := db.endpoints[id].config
  }

  /** Records what the new state stands for. */
  function Recorded(w: World, db: Db, created: map<nat, string>): World {
    w.(db := db,
       connections := w.connections[db.connection.revision := db.connection],
       configs := w.configs + Latest(db),
       issued := w.issued + created)
  }

  function Fill(w: World, n: nat, p: Protocol, item: Item): World
    requires n in w.writers
  {
    var wr := w.writers[n];
    w.(writers := w.writers[n := wr.(items := wr.items[p := item], checked := wr.checked - {p})])
  }

  /** The candidate of `candidateEndpoints`; an existing credential is read now. */
  function InputItem(db: Db, wr: Writer, p: Protocol, mode: Mode, override: Option<Network>, username: string, source: Source, secret: string): Option<Item> {
    var network := Effective(wr.connection, Config(mode, override, username, 0), p);
    if !NetworkEnabled(network) || username == "" then None
    else if source.NewSecret? then
      if secret == "" then None else Some(Item(mode, override, network.value, username, secret, NewSecret, wr.connection.revision, 0))
    else if source.id in db.credentials && db.credentials[source.id].mailbox == wr.mailbox && db.credentials[source.id].state == Active then
      var cr := db.credentials[source.id];
      Some(Item(mode, override, network.value, username, cr.secret, Existing(source.id, cr.generation), wr.connection.revision, 0))
    else None
  }

  function ResolvedItem(db: Db, wr: Writer, p: Protocol): Option<Item> {
    match Resolve(db, EndpointId(wr.mailbox, p))
    case Refused => None
    case Ok(r) =>
      var config := db.endpoints[EndpointId(wr.mailbox, p)].config;
      Some(Item(config.mode, config.override, r.network, r.username, r.secret,
                Existing(r.versions.credential, r.versions.generation), r.versions.connection, r.versions.endpoint))
  }

  /** A managed candidate: the network as the endpoint list shows it, from the
      second connection read and the row read now; the mailbox address as user name. */
  function ManagedItem(db: Db, wr: Writer, p: Protocol, credential: nat): Option<Item> {
    var id := EndpointId(wr.mailbox, p);
    if wr.view.None? || id !in db.endpoints || wr.mailbox !in db.mailboxes
       || credential !in db.credentials || db.credentials[credential].mailbox != wr.mailbox || db.credentials[credential].secret == "" then None
    else
      var network := Effective(wr.view.value, db.endpoints[id].config, p);
      var cr := db.credentials[credential];
      if !NetworkEnabled(network) then None
      else
        Some(Item(db.endpoints[id].config.mode, db.endpoints[id].config.override, network.value, db.mailboxes[wr.mailbox].address, cr.secret,
                  Existing(credential, cr.generation), wr.connection.revision, db.endpoints[id].revision))
  }

  function WriterStep(w: World, e: Event): World
    requires e.FillInput? || e.FillResolved? || e.ViewConnection? || e.FillManaged? || e.PassCheck? || e.Commit?
    requires e.n in w.writers
  {
    var n, wr := e.n, w.writers[e.n];
    match e
    case FillInput(_, p, mode, override, username, source, secret) =>
      (match InputItem(w.db, wr, p, mode, override, username, source, secret)
       case None => w
       case Some(item) => if wr.kind in {Update, Attach, EnteredCreation} && p !in wr.off then Fill(w, n, p, item) else w)
    case FillResolved(_, p) =>
      (match ResolvedItem(w.db, wr, p)
       case None => w
       case Some(item) => if wr.kind == Reactivate then Fill(w, n, p, item) else w)
    case ViewConnection(_) =>
      if wr.kind == Managed && wr.view.None? then w.(writers := w.writers[n := wr.(view := Some(w.db.connection))]) else w
    case FillManaged(_, p, credential) =>
      (match ManagedItem(w.db, wr, p, credential)
       case None => w
       case Some(item) => if wr.kind == Managed then Fill(w, n, p, item) else w)
    case PassCheck(_, p) =>
      if p in wr.items then
        w.(writers := w.writers[n := wr.(checked := wr.checked + {p})],
           passed := w.passed + {Check(p, wr.items[p].network, wr.items[p].username, wr.items[p].secret)})
      else w
    case Commit(_, created, _, _, _, _) =>
      match CommitOf(w.db, wr, e)
      case None => w
      case Some(db) => Recorded(w, db, if wr.kind in {Update, Attach, EnteredCreation} then created else map[]).(writers := w.writers - {n})
  }

  function Step(w: World, e: Event): World {
    if e.FillInput? || e.FillResolved? || e.ViewConnection? || e.FillManaged? || e.PassCheck? || e.Commit? then
      if e.n in w.writers then WriterStep(w, e) else w
    else
      match e
      case Begin(n, kind, mailbox, off) =>
        if n in w.writers || (kind != Attach && mailbox !in w.db.mailboxes) then w
        else
          w.(writers := w.writers[n := Writer(kind, mailbox, if kind == Attach then 0 else w.db.mailboxes[mailbox].revision,
                                              w.db.connection, None, off, map[], {})])
      case Abandon(n) => w.(writers := w.writers - {n})
      case Configure(expected, enabled, templates) =>
        (match CommitConfigure(w.db, expected, enabled, templates)
         case None => w
         case Some(db) => Recorded(w, db, map[]))
      case UpdateConnection(expected, enabled) =>
        if w.db.connection.revision != expected then w
        else Recorded(w, w.db.(connection := Connection(expected + 1, enabled, w.db.connection.templates)), map[])
      case NewCandidate(credential, mailbox, secret, generation) =>
        if credential == 0 || credential in w.db.credentials || secret == "" || !NextGeneration(w.db.credentials, mailbox, generation) then w
        else
          Recorded(w, w.db.(credentials := w.db.credentials[credential := Credential(mailbox, secret, generation, Candidate)]), map[credential := secret])
      case ChangeState(credential, state) =>
        if credential !in w.db.credentials || state !in {RevocationPending, Revoked, Retired}
           || (w.db.credentials[credential].state == Revoked && state != Revoked)
        then w
        else
          var cr := w.db.credentials[credential];
          w.(db := w.db.(credentials := w.db.credentials[credential := cr.(state := state, secret := if state == Revoked then "" else cr.secret)]))
      case SetActive(mailbox, active) =>
        if mailbox !in w.db.mailboxes || active then w
        else w.(db := w.db.(mailboxes := w.db.mailboxes[mailbox := Bumped(w.db.mailboxes[mailbox], false)]))
      case NewMailbox(mailbox, address, active) =>
        if mailbox in w.db.mailboxes then w
        else w.(db := w.db.(mailboxes := w.db.mailboxes[mailbox := Mailbox(address, active, 1)]))
      case NewEndpoint(id, mode, username) =>
        if id in w.db.endpoints || id.mailbox !in w.db.mailboxes then w
        else Recorded(w, w.db.(endpoints := w.db.endpoints[id := Endpoint(Config(mode, None, username, 0), 1, Never, None)]), map[])
      case DeleteMailbox(mailbox) => w.(db := Without(w.db, mailbox))
  }

  /** `DeleteMailbox`: the rows go, writers in flight do not notice. */
  function Without(db: Db, mailbox: nat): Db {
    db.(mailboxes := db.mailboxes - {mailbox},
        endpoints := map id | id in db.endpoints && id.mailbox != mailbox :: db.endpoints[id],
        credentials := map c | c in db.credentials && db.credentials[c].mailbox != mailbox :: db.credentials[c])
  }

  /** No mailbox or credential id is given out a second time: neither the row of an
      endpoint nor a credential comes back once it was deleted. */
  ghost predicate FreshId(w: World, e: Event) {
    match e
    case NewEndpoint(id, _, _) => id in w.db.endpoints || NeverRow(w, id)
    case NewCandidate(credential, _, _, _) => credential in w.db.credentials || credential !in w.issued
    case Commit(n, created, _, _, _, _) =>
      && (forall c | c in created :: c in w.db.credentials || c !in w.issued)
      && (n in w.writers && w.writers[n].kind == Attach && w.writers[n].mailbox !in w.db.mailboxes ==>
            forall p :: NeverRow(w, EndpointId(w.writers[n].mailbox, p)))
    case _ => true
  }

  ghost predicate NeverRow(w: World, id: EndpointId) {
    forall k | k in w.configs :: k.0 != id
  }

  ghost predicate FreshRun(w: World, es: seq<Event>)
    decreases |es|
  {
    es == [] || (FreshId(w, es[0]) && FreshRun(Step(w, es[0]), es[1..]))
  }

  function Run(w: World, es: seq<Event>): World
    decreases |es|
  {
    if es == [] then w else Run(Step(w, es[0]), es[1..])
  }

  function Start(c: Connection): World {
    World(Db(c, map[], map[], map[]), map[], {}, map[c.revision := c], map[], map[])
  }
}
