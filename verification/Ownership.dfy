/** The single owner: every handler reads members first and later writes with a
    compare-and-set on the revision it read. */
module Ownership {

  type Id = nat
  datatype Role = Owner | Admin | Custom(key: string)
  datatype Status = Invited | Active | Disabled | Departed
  datatype Member = Member(role: Role, status: Status, revision: nat, password: bool)

  /** A handler between its read and its transaction. */
  datatype Pending =
    | Update(actor: Id, id: Id, read: Member, role: Role)
    | TransferFrom(actor: Id, read: Member)
    | Transfer(actor: Id, read: Member, to: Id, target: Member)
    | Delete(actor: Id, id: Id, read: Member)
    | ChangeStatus(id: Id, read: Member, status: Status)

  /** `used` are all ids ever given out. */
  datatype World = World(members: map<Id, Member>, pending: map<nat, Pending>, used: set<Id>)

  const START := World(map[], map[], {})

  datatype Event =
    | Init(id: Id)
    | Create(id: Id, role: Role, password: bool)
    | Finish(id: Id)                              // the end of a member's creation
    | AcceptInvite(id: Id)
    | SetPassword(id: Id)
    | Depart(id: Id, expected: nat)
    | BeginUpdate(n: nat, actor: Id, id: Id, role: Role)
    | BeginTransfer(n: nat, actor: Id)
    | ReadTarget(n: nat, to: Id)
    | BeginDelete(n: nat, actor: Id, id: Id)
    | PlanStatus(n: nat, actor: Id, id: Id, enable: bool)
    | Commit(n: nat)

  function Bump(m: Member): Member {
    m.(revision := m.revision + 1)
  }

  /** Others may not manage the owner's account. */
  predicate Manageable(members: map<Id, Member>, actor: Id, id: Id) {
    actor == id || (id in members && members[id].role != Owner)
  }

  /** The transaction of a pending handler; unchanged when a check or a
      compare-and-set fails. */
  function Apply(members: map<Id, Member>, p: Pending): map<Id, Member> {
    match p
    case Update(actor, id, read, role) =>
      if Manageable(members, actor, id) && id in members && members[id].revision == read.revision
      then members[id := Bump(members[id]).(role := role)] else members
    case TransferFrom(_, _) => members
    case Transfer(actor, read, to, target) =>
      if actor in members && members[actor].revision == read.revision && members[actor].status == Active && members[actor].role == Owner then
        var demoted := members[actor := Bump(members[actor]).(role := Admin)];
        if to in demoted && demoted[to].revision == target.revision && demoted[to].status == Active
        then demoted[to := Bump(demoted[to]).(role := Owner)] else members
      else members
    case Delete(actor, id, read) =>
      if Manageable(members, actor, id) && id in members && members[id].revision == read.revision && members[id].status in {Invited, Departed}
      then members - {id} else members
    case ChangeStatus(id, read, status) =>
      if id in members && members[id].revision == read.revision && members[id].status != Departed
      then members[id := Bump(members[id]).(status := status)] else members
  }

  function Step(w: World, e: Event): World {
    match e
    case Init(id) =>
      if w.members != map[] || w.used != {} then w
      else w.(members := map[id := Member(Owner, Active, 1, true)], used := {id})
    case Create(id, role, password) =>
      if w.used == {} || id in w.members || role == Owner then w
      else w.(members := w.members[id := Member(role, Invited, 1, password)], used := w.used + {id})
    case Finish(id) =>
      if id in w.members && w.members[id].revision == 1 && w.members[id].status == Invited
      then w.(members := w.members[id := Bump(w.members[id]).(status := if w.members[id].password then Active else Invited)]) else w
    case AcceptInvite(id) =>
      if id in w.members && w.members[id].status in {Invited, Active}
      then w.(members := w.members[id := Bump(w.members[id]).(status := Active, password := true)]) else w
    case SetPassword(id) =>
      if id in w.members && w.members[id].status != Departed
      then
        var m := w.members[id];
        w.(members := w.members[id := Bump(m).(status := if m.status == Invited then Active else m.status, password := true)])
      else w
    case Depart(id, expected) =>
      if id in w.members && w.members[id].role != Owner && w.members[id].revision == expected && w.members[id].status != Departed
      then w.(members := w.members[id := Bump(w.members[id]).(status := Departed)]) else w
    case BeginUpdate(n, actor, id, role) =>
      if n in w.pending || id !in w.members then w
      else if role != w.members[id].role && (role == Owner || w.members[id].role == Owner || actor == id) then w
      else w.(pending := w.pending[n := Update(actor, id, w.members[id], role)])
    case BeginTransfer(n, actor) =>
      if n in w.pending || actor !in w.members || w.members[actor].role != Owner then w
      else w.(pending := w.pending[n := TransferFrom(actor, w.members[actor])])
    case ReadTarget(n, to) =>
      if n !in w.pending || !w.pending[n].TransferFrom? || to !in w.members || w.members[to].status != Active then w
      else w.(pending := w.pending[n := Transfer(w.pending[n].actor, w.pending[n].read, to, w.members[to])])
    case BeginDelete(n, actor, id) =>
      if n in w.pending || id !in w.members || w.members[id].role == Owner || actor == id || w.members[id].status !in {Invited, Departed} then w
      else w.(pending := w.pending[n := Delete(actor, id, w.members[id])])
    case PlanStatus(n, actor, id, enable) =>
      if n in w.pending || id !in w.members || w.members[id].status == Departed || !Manageable(w.members, actor, id) then w
      else if !enable && (actor == id || w.members[id].role == Owner) then w
      else
        w.(pending := w.pending[n := ChangeStatus(id, w.members[id], if !enable then Disabled else if w.members[id].password then Active else Invited)])
    case Commit(n) =>
      if n !in w.pending then w else w.(members := Apply(w.members, w.pending[n]), pending := w.pending - {n})
  }

  function Run(w: World, es: seq<Event>): World
    decreases |es|
  {
    if es == [] then w else Run(Step(w, es[0]), es[1..])
  }

  // ----- the invariant --------------------------------------------------------

  /** Exactly one member has the owner role, and that member is active. */
  ghost predicate OneOwner(members: map<Id, Member>) {
    && (exists o :: o in members && members[o].role == Owner && members[o].status == Active)
    && (forall a, b | a in members && b in members && members[a].role == members[b].role == Owner :: a == b)
  }

  ghost predicate Sane(w: World) {
    && (w.used != {} ==> OneOwner(w.members))
    && (w.used == {} ==> w.members == map[])
    && w.members.Keys <= w.used
    && (forall id | id in w.members && w.members[id].status == Active :: w.members[id].password)
  }

  /** Committing this handler would move the role or take the owner's activity: it
      writes back what it read of another member with the same id and revision. */
  predicate Outdated(w: World, n: nat) {
    n in w.pending && match w.pending[n]
      case Update(actor, id, read, role) =>
        && Manageable(w.members, actor, id) && id in w.members && w.members[id].revision == read.revision
        && (w.members[id].role == Owner) != (role == Owner)
      case ChangeStatus(id, read, status) =>
        id in w.members && w.members[id].revision == read.revision && w.members[id].role == Owner && status != Active
      case _ => false
  }

  /** What the reads established about the handler itself. */
  ghost predicate PendingOk(p: Pending) {
    match p
    case Update(actor, id, read, role) => role != read.role ==> role != Owner && read.role != Owner
    case ChangeStatus(id, read, status) => (read.role == Owner && read.password ==> status == Active) && (status == Active ==> read.password)
    case Transfer(_, _, _, target) => target.status == Active
    case _ => true
  }

  /** The owner's row as it is read, while its revision is unchanged. */
  ghost predicate Current(w: World, id: Id, read: Member) {
    id in w.used && (id in w.members ==> w.members[id].revision >= read.revision && (w.members[id].revision == read.revision ==> w.members[id] == read))
  }

  ghost predicate ReadsCurrent(w: World, p: Pending) {
    match p
    case Update(_, id, read, _) => Current(w, id, read)
    case TransferFrom(actor, read) => Current(w, actor, read)
    case Transfer(actor, read, to, target) => Current(w, actor, read) && Current(w, to, target)
    case Delete(_, id, read) => Current(w, id, read)
    case ChangeStatus(id, read, _) => Current(w, id, read)
  }

  ghost predicate Inv(w: World) {
    Sane(w) && forall n | n in w.pending :: PendingOk(w.pending[n]) && ReadsCurrent(w, w.pending[n])
  }

  /** Ids are not given out twice. */
  predicate FreshId(w: World, e: Event) {
    e.Create? ==> e.id !in w.used
  }

  // ----- preservation ---------------------------------------------------------

  /** A row update that bumps the revision keeps every read current. */
  lemma BumpKeeps(w: World, w': World, p: Pending)
    requires ReadsCurrent(w, p) && w.used <= w'.used
    requires forall id | id in w'.members && id in w.used ::
      id in w.members && (w'.members[id] == w.members[id] || w'.members[id].revision > w.members[id].revision)
    ensures ReadsCurrent(w', p)
  {
  }

  lemma ApplyBumps(members: map<Id, Member>, p: Pending)
    ensures forall id | id in Apply(members, p) ::
      id in members && (Apply(members, p)[id] == members[id] || Apply(members, p)[id].revision > members[id].revision)
  {
  }

  /** Whatever ids are given out, a commit keeps the single active owner if and
      only if its read is not outdated. */
  lemma CommitKeepsOwner(w: World, n: nat)
    requires Sane(w) && w.used != {} && n in w.pending && PendingOk(w.pending[n])
    ensures OneOwner(Step(w, Commit(n)).members) <==> !Outdated(w, n)
  {
    var o :| o in w.members && w.members[o].role == Owner && w.members[o].status == Active;
    var after := Apply(w.members, w.pending[n]);
    match w.pending[n]
    case Update(actor, id, read, role) =>
      if !Outdated(w, n) { assert o in after && after[o].role == Owner && after[o].status == Active; }
      else {
        assert forall x | x in after && x != id :: after[x] == w.members[x];
        if role == Owner { assert o in after && id in after && o != id; }
      }
    case ChangeStatus(id, read, status) =>
      if !Outdated(w, n) { assert o in after && after[o].role == Owner && after[o].status == Active; }
      else { assert forall x | x in after && x != id :: after[x] == w.members[x]; }
    case Transfer(actor, read, to, target) =>
      if after != w.members { assert to in after && after[to].role == Owner && after[to].status == Active; }
    case Delete(_, _, _) => assert o in after && after[o] == w.members[o];
    case TransferFrom(_, _) =>
  }

  lemma NeverOutdated(w: World, n: nat)
    requires Inv(w) && w.used != {} && n in w.pending
    ensures !Outdated(w, n)
  {
    assert PendingOk(w.pending[n]) && ReadsCurrent(w, w.pending[n]);
  }

  lemma CommitKeeps(w: World, n: nat)
    requires Inv(w)
    ensures Inv(Step(w, Commit(n)))
  {
    if n in w.pending {
      var w' := Step(w, Commit(n));
      ApplyBumps(w.members, w.pending[n]);
      forall m | m in w'.pending ensures PendingOk(w'.pending[m]) && ReadsCurrent(w', w'.pending[m]) {
        BumpKeeps(w, w', w.pending[m]);
      }
      assert PendingOk(w.pending[n]) && ReadsCurrent(w, w.pending[n]);
      if w.used != {} {
        NeverOutdated(w, n);
        CommitKeepsOwner(w, n);
      }
      ActiveHavePasswords(w, n);
    }
  }

  lemma ActiveHavePasswords(w: World, n: nat)
    requires Inv(w) && n in w.pending
    ensures var after := Apply(w.members, w.pending[n]); forall id | id in after && after[id].status == Active :: after[id].password
  {
    assert PendingOk(w.pending[n]) && ReadsCurrent(w, w.pending[n]);
  }

  /** The writes that need no earlier read. */
  lemma DirectKeeps(w: World, e: Event)
    requires Inv(w) && FreshId(w, e) && (e.Init? || e.Create? || e.Finish? || e.AcceptInvite? || e.SetPassword? || e.Depart?)
    ensures Inv(Step(w, e))
  {
    var w' := Step(w, e);
    forall m | m in w'.pending ensures PendingOk(w'.pending[m]) && ReadsCurrent(w', w'.pending[m]) {
      BumpKeeps(w, w', w.pending[m]);
    }
    DirectSane(w, e);
  }

  lemma DirectSane(w: World, e: Event)
    requires Sane(w) && (e.Init? || e.Create? || e.Finish? || e.AcceptInvite? || e.SetPassword? || e.Depart?)
    ensures Sane(Step(w, e))
  {
    var after := Step(w, e).members;
    if w.used != {} {
      var o :| o in w.members && w.members[o].role == Owner && w.members[o].status == Active;
      assert o in after && after[o].role == Owner && after[o].status == Active;
      assert forall x | x in after && after[x].role == Owner :: x in w.members && w.members[x].role == Owner;
    } else if e.Init? {
      assert after[e.id].role == Owner;
    }
  }

  lemma ReadKeeps(w: World, e: Event)
    requires Inv(w) && (e.BeginUpdate? || e.BeginTransfer? || e.ReadTarget? || e.BeginDelete? || e.PlanStatus?)
    ensures Inv(Step(w, e))
  {
    var w' := Step(w, e);
    forall m | m in w'.pending ensures PendingOk(w'.pending[m]) && ReadsCurrent(w', w'.pending[m]) {
      if m in w.pending { BumpKeeps(w, w', w.pending[m]); }
    }
  }

  lemma StepKeeps(w: World, e: Event)
    requires Inv(w) && FreshId(w, e)
    ensures Inv(Step(w, e))
  {
    hide Inv, Step;
    if e.Commit? { CommitKeeps(w, e.n); }
    else if e.Init? || e.Create? || e.Finish? || e.AcceptInvite? || e.SetPassword? || e.Depart? { DirectKeeps(w, e); }
    else { ReadKeeps(w, e); }
  }

  ghost predicate FreshRun(w: World, es: seq<Event>)
    decreases |es|
  {
    es == [] || (FreshId(w, es[0]) && FreshRun(Step(w, es[0]), es[1..]))
  }

  lemma {:induction false} RunKeeps(w: World, es: seq<Event>)
    requires Inv(w) && FreshRun(w, es)
    ensures Inv(Run(w, es))
    decreases |es|
  {
    hide Inv, Step, FreshId;
    if es != [] {
      StepKeeps(w, es[0]);
      RunKeeps(Step(w, es[0]), es[1..]);
    }
  }

  lemma {:induction false} UsedGrows(w: World, es: seq<Event>)
    requires w.used != {}
    ensures Run(w, es).used != {}
    decreases |es|
  {
    if es != [] { UsedGrows(Step(w, es[0]), es[1..]); }
  }

  /** After initialisation every reachable state has exactly one owner, who is
      active, as long as ids are not reused. */
  lemma ExactlyOneOwner(id: Id, es: seq<Event>)
    requires FreshRun(Step(START, Init(id)), es)
    ensures OneOwner(Run(Step(START, Init(id)), es).members)
  {
    DirectKeeps(START, Init(id));
    var w := Step(START, Init(id));
    RunKeeps(w, es);
    UsedGrows(w, es);
  }

  lemma OwnerStays(before: map<Id, Member>, after: map<Id, Member>, id: Id)
    requires after == before || (id in before && before[id].status in {Invited, Departed} && after == before - {id})
    ensures OneOwner(before) ==> OneOwner(after)
  {
    if o :| OneOwner(before) && o in before && before[o].role == Owner && before[o].status == Active {
      assert o in after;
    }
  }

  // ----- the transactions on the table --------------------------------------------

  class MemberTable {
    var members: map<Id, Member>

    constructor ()
      ensures members == map[]
    {
      members := map[];
    }

    /** `UPDATE ... SET role, revision WHERE id AND revision [AND status]`. */
    method SetRole(id: Id, expected: nat, active: bool, role: Role) returns (n: nat)
      modifies this
      ensures n == (if id in old(members) && old(members)[id].revision == expected && (active ==> old(members)[id].status == Active) then 1 else 0)
      ensures members == if n == 1 then old(members)[id := Bump(old(members)[id]).(role := role)] else old(members)
    {
      if id !in members || members[id].revision != expected || (active && members[id].status != Active) { return 0; }
      members := members[id := Bump(members[id]).(role := role)];
      return 1;
    }

    method UpdateMember(actor: Id, id: Id, read: Member, role: Role) returns (ok: bool)
      modifies this
      ensures members == Apply(old(members), Update(actor, id, read, role))
    {
      if !Manageable(members, actor, id) { return false; }
      var n := SetRole(id, read.revision, false, role);
      return n == 1;
    }

    /** Demotes the actor, then promotes the target; when the second row has moved
        on, the first write is undone with the transaction. */
    method TransferOwnership(actor: Id, read: Member, to: Id, target: Member) returns (ok: bool)
      modifies this
      ensures members == Apply(old(members), Transfer(actor, read, to, target))
      ensures !ok ==> members == old(members)
      ensures OneOwner(old(members)) ==> OneOwner(members)
    {
      var before := members;
      if actor !in members || members[actor].role != Owner { return false; }
      var demoted := SetRole(actor, read.revision, true, Admin);
      if demoted != 1 { return false; }
      var promoted := SetRole(to, target.revision, true, Owner);
      if promoted != 1 {
        members := before;
        return false;
      }
      assert members[to].role == Owner && members[to].status == Active;
      return true;
    }

    /** `DELETE ... WHERE id AND revision AND status IN ('invited','departed')`. */
    method RemoveRow(id: Id, expected: nat) returns (n: nat)
      modifies this
      ensures n == (if id in old(members) && old(members)[id].revision == expected && old(members)[id].status in {Invited, Departed} then 1 else 0)
      ensures members == if n == 1 then old(members) - {id} else old(members)
    {
      if id !in members || members[id].revision != expected || members[id].status !in {Invited, Departed} { return 0; }
      members := members - {id};
      return 1;
    }

    /** Whoever may sign in stays, so the owner does; a second deletion from the same
        read finds nothing. */
    method DeleteMember(actor: Id, id: Id, read: Member) returns (ok: bool)
      modifies this
      ensures members == Apply(old(members), Delete(actor, id, read))
      ensures ok <==> members != old(members)
      ensures ok ==> id !in members && forall m | m in old(members) && m != id :: m in members && members[m] == old(members)[m]
      ensures forall m | m in old(members) && old(members)[m].status in {Active, Disabled} :: m in members
      ensures OneOwner(old(members)) ==> OneOwner(members)
    {
      ghost var before := members;
      if !Manageable(members, actor, id) { return false; }
      var n := RemoveRow(id, read.revision);
      OwnerStays(before, members, id);
      return n == 1;
    }
  }

  // ----- reused ids -----------------------------------------------------------

  /** The member table gives the id of a deleted last row to the next member. If
      that member becomes owner while an update of the old one is still pending,
      the update takes the role away: nobody is owner. */
  lemma ReusedIdLosesOwner()
    ensures CanLoseOwner(START)
  {
    hide CanLoseOwner;
    TakeOver();
    Return();
    Leave();
  }

  ghost predicate CanLoseOwner(w: World) {
    exists es :: Ownerless(Run(w, es))
  }

  predicate Ownerless(w: World) {
    w.used != {} && forall m | m in w.members :: w.members[m].role != Owner
  }

  lemma LosesOn(w: World, e: Event, next: World)
    requires Step(w, e) == next && CanLoseOwner(next)
    ensures CanLoseOwner(w)
  {
    hide Step, Ownerless;
    var es :| Ownerless(Run(next, es));
    var all := [e] + es;
    assert all[1..] == es;
    assert Ownerless(Run(w, all));
  }

  const BOSS := Member(Owner, Active, 1, true)
  const HIRED := Member(Admin, Active, 2, true)
  const KNOWN := Member(Admin, Active, 3, true)
  const HELD := map[0 := Update(2, 2, KNOWN, Admin)]

  /** The second holder of id 2 becomes owner; then the old update commits. */
  lemma TakeOver()
    ensures CanLoseOwner(World(map[1 := BOSS, 2 := HIRED], HELD, {1, 2}))
  {
    var used := {1, 2};
    var w0 := World(map[1 := BOSS, 2 := HIRED], HELD, used);
    var w1 := World(map[1 := BOSS, 2 := HIRED], HELD[1 := TransferFrom(1, BOSS)], used);
    assert Step(w0, BeginTransfer(1, 1)) == w1;
    var w2 := World(map[1 := BOSS, 2 := HIRED], HELD[1 := Transfer(1, BOSS, 2, HIRED)], used);
    assert Step(w1, ReadTarget(1, 2)) == w2;
    var w3 := World(map[1 := Member(Admin, Active, 2, true), 2 := Member(Owner, Active, 3, true)], HELD, used);
    assert Step(w2, Commit(1)) == w3;
    var w4 := Step(w3, Commit(0));
    assert Ownerless(w4);
    assert Ownerless(Run(w4, []));
    LosesOn(w3, Commit(0), w4);
    LosesOn(w2, Commit(1), w3);
    LosesOn(w1, ReadTarget(1, 2), w2);
    LosesOn(w0, BeginTransfer(1, 1), w1);
  }

  /** The id is given out again. */
  lemma Rehired()
    requires CanLoseOwner(World(map[1 := BOSS, 2 := HIRED], HELD, {1, 2}))
    ensures CanLoseOwner(World(map[1 := BOSS], HELD, {1, 2}))
  {
    var used := {1, 2};
    var w0 := World(map[1 := BOSS], HELD, used);
    var w1 := World(map[1 := BOSS, 2 := Member(Admin, Invited, 1, true)], HELD, used);
    assert Step(w0, Create(2, Admin, true)) == w1;
    var w2 := World(map[1 := BOSS, 2 := HIRED], HELD, used);
    assert Step(w1, Finish(2)) == w2;
    LosesOn(w1, Finish(2), w2);
    LosesOn(w0, Create(2, Admin, true), w1);
  }

  /** The first holder of id 2 departs and is deleted. */
  lemma Return()
    requires CanLoseOwner(World(map[1 := BOSS, 2 := HIRED], HELD, {1, 2}))
    ensures CanLoseOwner(World(map[1 := BOSS, 2 := KNOWN], HELD, {1, 2}))
  {
    var used := {1, 2};
    var gone := Member(Admin, Departed, 4, true);
    var w0 := World(map[1 := BOSS, 2 := KNOWN], HELD, used);
    var w1 := World(map[1 := BOSS, 2 := gone], HELD, used);
    assert Step(w0, Depart(2, 3)) == w1;
    var w2 := World(map[1 := BOSS, 2 := gone], HELD[1 := Delete(1, 2, gone)], used);
    assert Step(w1, BeginDelete(1, 1, 2)) == w2;
    var w3 := World(map[1 := BOSS], HELD, used);
    assert Step(w2, Commit(1)) == w3;
    Rehired();
    LosesOn(w2, Commit(1), w3);
    LosesOn(w1, BeginDelete(1, 1, 2), w2);
    LosesOn(w0, Depart(2, 3), w1);
  }

  /** The first holder of id 2 joins and starts an update of their own profile. */
  lemma Leave()
    ensures CanLoseOwner(World(map[1 := BOSS, 2 := KNOWN], HELD, {1, 2})) ==> CanLoseOwner(START)
  {
    if CanLoseOwner(World(map[1 := BOSS, 2 := KNOWN], HELD, {1, 2})) {
      var w1 := World(map[1 := BOSS], map[], {1});
      assert Step(START, Init(1)) == w1;
      var w2 := World(map[1 := BOSS, 2 := Member(Admin, Invited, 1, true)], map[], {1, 2});
      assert Step(w1, Create(2, Admin, true)) == w2;
      var w3 := World(map[1 := BOSS, 2 := HIRED], map[], {1, 2});
      assert Step(w2, Finish(2)) == w3;
      var w4 := World(map[1 := BOSS, 2 := KNOWN], map[], {1, 2});
      assert Step(w3, SetPassword(2)) == w4;
      var w5 := World(map[1 := BOSS, 2 := KNOWN], HELD, {1, 2});
      assert Step(w4, BeginUpdate(0, 2, 2, Admin)) == w5;
      LosesOn(w4, BeginUpdate(0, 2, 2, Admin), w5);
      LosesOn(w3, SetPassword(2), w4);
      LosesOn(w2, Finish(2), w3);
      LosesOn(w1, Create(2, Admin, true), w2);
      LosesOn(START, Init(1), w1);
    }
  }
}
