/** A member leaves: every mailbox of theirs gets a plan, and the targets of the
    affected groups are computed before anything changes, by code of their own. */
module Offboarding {
  import opened Text
  import opened Routing
  import opened RoutingPlans

  datatype ActionName = Handover | ToShared | Suspend | Keep | Unnamed

  datatype MailboxPlan = MailboxPlan(mailbox: nat, expected: nat, action: ActionName, newOwner: nat)

  // ----- the plans ------------------------------------------------------------

  predicate WellFormed(p: MailboxPlan) {
    p.mailbox >= 1 && p.expected >= 1 && p.action != Unnamed && (p.action == Handover <==> p.newOwner >= 1)
  }

  /** New owners are active members other than the one who leaves. */
  predicate OwnerFits(members: map<nat, MemberStatus>, leaver: nat, p: MailboxPlan) {
    p.newOwner > 0 ==> p.newOwner in members && members[p.newOwner] == MemberActive && p.newOwner != leaver
  }

  ghost predicate PlansFit(t: Tables, leaver: nat, ps: seq<MailboxPlan>) {
    && (forall i | 0 <= i < |ps| :: WellFormed(ps[i]) && OwnerFits(t.members, leaver, ps[i]))
    && (forall i, j | 0 <= i < j < |ps| :: ps[i].mailbox != ps[j].mailbox)
    // exactly the leaver's mailboxes, at their current revisions
    && (forall mb | mb in t.mailboxes && mb.owner == leaver :: exists i :: 0 <= i < |ps| && ps[i].mailbox == mb.id && ps[i].expected == mb.revision)
    && (forall i | 0 <= i < |ps| :: ps[i].mailbox in Owned(t.mailboxes, leaver))
  }

  function Owned(ms: seq<Mailbox>, leaver: nat): set<nat> {
    set mb | mb in ms && mb.owner == leaver :: mb.id
  }

  ghost predicate Gathered(ps: seq<MailboxPlan>, plans: map<nat, MailboxPlan>) {
    && (forall id | id in plans :: plans[id] in ps && plans[id].mailbox == id)
    && (forall k | 0 <= k < |ps| :: ps[k].mailbox in plans && plans[ps[k].mailbox] == ps[k])
  }

  method GatherPlans(members: map<nat, MemberStatus>, leaver: nat, ps: seq<MailboxPlan>) returns (ok: bool, plans: map<nat, MailboxPlan>)
    ensures ok <==> (forall i | 0 <= i < |ps| :: WellFormed(ps[i]) && OwnerFits(members, leaver, ps[i]))
                    && (forall i, j | 0 <= i < j < |ps| :: ps[i].mailbox != ps[j].mailbox)
    ensures ok ==> Gathered(ps, plans)
  {
    plans := map[];
    for i := 0 to |ps|
      invariant forall k | 0 <= k < i :: WellFormed(ps[k]) && OwnerFits(members, leaver, ps[k])
      invariant forall k, n | 0 <= k < n < i :: ps[k].mailbox != ps[n].mailbox
      invariant Gathered(ps[..i], plans)
    {
      if !WellFormed(ps[i]) || ps[i].mailbox in plans || !OwnerFits(members, leaver, ps[i]) {
        if ps[i].mailbox in plans { assert exists k | 0 <= k < i :: ps[k].mailbox == ps[i].mailbox; }
        return false, plans;
      }
      assert ps[..i + 1] == ps[..i] + [ps[i]];
      plans := plans[ps[i].mailbox := ps[i]];
    }
    assert ps[..|ps|] == ps;
    ok := true;
  }

  /** Walks the leaver's mailboxes and looks each up. */
  method CountOwned(ms: seq<Mailbox>, leaver: nat, plans: map<nat, MailboxPlan>) returns (ok: bool, count: nat)
    requires Ordered(ms)
    ensures ok <==> forall mb | mb in ms && mb.owner == leaver :: mb.id in plans && plans[mb.id].expected == mb.revision
    ensures ok ==> count == |Owned(ms, leaver)|
  {
    count := 0;
    for i := 0 to |ms|
      invariant count == |Owned(ms[..i], leaver)|
      invariant forall k | 0 <= k < i && ms[k].owner == leaver :: ms[k].id in plans && plans[ms[k].id].expected == ms[k].revision
    {
      var mb := ms[i];
      OwnedNext(ms, leaver, i);
      if mb.owner == leaver {
        if mb.id !in plans || plans[mb.id].expected != mb.revision {
          return false, count;
        }
        count := count + 1;
      }
    }
    assert ms[..|ms|] == ms;
    ok := true;
  }

  /** The checks of `prepareOffboardQuery`: the plans are gathered in a map, each
      owned mailbox is looked up in it, and the counts are compared at the end. */
  method PreparePlans(t: Tables, leaver: nat, ps: seq<MailboxPlan>) returns (ok: bool, plans: map<nat, MailboxPlan>)
    requires Ordered(t.mailboxes)
    ensures ok <==> PlansFit(t, leaver, ps)
    ensures ok ==> plans.Keys == Owned(t.mailboxes, leaver) && Gathered(ps, plans)
  {
    ok, plans := GatherPlans(t.members, leaver, ps);
    if !ok {
      return;
    }
    var covered, count := CountOwned(t.mailboxes, leaver, plans);
    if !covered {
      var mb :| mb in t.mailboxes && mb.owner == leaver && (mb.id !in plans || plans[mb.id].expected != mb.revision);
      NoPlan(t, leaver, ps, plans, mb);
      return false, plans;
    }
    ok := |plans| == count;
    CoverageIs(t, leaver, ps, plans);
    if ok { SameSize(Owned(t.mailboxes, leaver), plans.Keys); }
  }

  lemma CoverageIs(t: Tables, leaver: nat, ps: seq<MailboxPlan>, plans: map<nat, MailboxPlan>)
    requires Gathered(ps, plans)
    requires forall i | 0 <= i < |ps| :: WellFormed(ps[i]) && OwnerFits(t.members, leaver, ps[i])
    requires forall i, j | 0 <= i < j < |ps| :: ps[i].mailbox != ps[j].mailbox
    requires forall mb | mb in t.mailboxes && mb.owner == leaver :: mb.id in plans && plans[mb.id].expected == mb.revision
    ensures Owned(t.mailboxes, leaver) <= plans.Keys
    ensures PlansFit(t, leaver, ps) <==> Owned(t.mailboxes, leaver) == plans.Keys
  {
    hide WellFormed, OwnerFits;
    var owned := Owned(t.mailboxes, leaver);
    forall id | id in owned ensures id in plans {
      var mb :| mb in t.mailboxes && mb.owner == leaver && mb.id == id;
    }
    forall mb | mb in t.mailboxes && mb.owner == leaver
      ensures exists i :: 0 <= i < |ps| && ps[i].mailbox == mb.id && ps[i].expected == mb.revision
    {
      var p := plans[mb.id];
      var i :| 0 <= i < |ps| && ps[i] == p;
      assert ps[i].mailbox == mb.id && ps[i].expected == mb.revision;
    }
    if PlansFit(t, leaver, ps) {
      forall id | id in plans ensures id in owned {
        var i :| 0 <= i < |ps| && ps[i] == plans[id];
      }
    }
  }

  lemma OwnedNext(ms: seq<Mailbox>, leaver: nat, i: nat)
    requires Ordered(ms) && i < |ms|
    ensures Owned(ms[..i + 1], leaver) == Owned(ms[..i], leaver) + (if ms[i].owner == leaver then {ms[i].id} else {})
    ensures ms[i].id !in Owned(ms[..i], leaver)
  {
    assert ms[..i + 1] == ms[..i] + [ms[i]];
    forall mb | mb in ms[..i] ensures mb.id != ms[i].id {
      var k :| 0 <= k < i && ms[..i][k] == mb;
      assert ms[k].id < ms[i].id;
    }
  }

  lemma NoPlan(t: Tables, leaver: nat, ps: seq<MailboxPlan>, plans: map<nat, MailboxPlan>, mb: Mailbox)
    requires mb in t.mailboxes && mb.owner == leaver && (mb.id !in plans || plans[mb.id].expected != mb.revision)
    requires forall k | 0 <= k < |ps| :: ps[k].mailbox in plans && plans[ps[k].mailbox] == ps[k]
    ensures !PlansFit(t, leaver, ps)
  {
  }

  // ----- the changes ----------------------------------------------------------

  /** What the handover transaction writes to a planned mailbox. */
  function Handed(mb: Mailbox, p: MailboxPlan): Mailbox {
    mb.(owner := if p.action == Handover then p.newOwner else 0,
        kind := if p.action == ToShared then Shared else Personal,
        status := if mb.status == Archived then Archived else if p.action == Suspend then Suspended else Active,
        revision := mb.revision + 1)
  }

  function HandedAll(ms: seq<Mailbox>, plans: map<nat, MailboxPlan>): seq<Mailbox> {
    seq(|ms|, i requires 0 <= i < |ms| => if ms[i].id in plans then Handed(ms[i], plans[ms[i].id]) else ms[i])
  }

  /** Departure, then handover. */
  function AfterOffboard(t: Tables, leaver: nat, plans: map<nat, MailboxPlan>): Tables {
    Tables(HandedAll(t.mailboxes, plans), t.members[leaver := Departed])
  }

  /** Part of the mailboxes handed over. */
  ghost predicate HandedSome(was: seq<Mailbox>, ms: seq<Mailbox>, plans: map<nat, MailboxPlan>, done: seq<nat>) {
    |ms| == |was| && forall k | 0 <= k < |ms| ::
      ms[k] == if was[k].id in done && was[k].id in plans then Handed(was[k], plans[was[k].id]) else was[k]
  }

  /** The handover loop: one guarded update per planned mailbox, all or nothing. */
  method ApplyHandover(t: Tables, leaver: nat, plans: map<nat, MailboxPlan>, order: seq<nat>) returns (result: Commit)
    requires Ordered(t.mailboxes) && plans.Keys == (set id | id in order)
    requires forall i, j | 0 <= i < j < |order| :: order[i] != order[j]
    ensures result.Committed? <==> forall id | id in plans :: Fits(t, leaver, plans[id], id)
    ensures result.Committed? ==> result.tables == t.(mailboxes := HandedAll(t.mailboxes, plans))
  {
    hide Fits, HandedSome, Handed, Ordered;
    var ms := t.mailboxes;
    HandedNone(ms, plans);
    for i := 0 to |order|
      invariant HandedSome(t.mailboxes, ms, plans, order[..i])
      invariant forall n | 0 <= n < i :: Fits(t, leaver, plans[order[n]], order[n])
    {
      var id := order[i];
      assert id in plans && id !in order[..i];
      var p := plans[id];
      var k := FindMailbox(ms, id);
      FitsExactly(t, leaver, plans, id, ms, order[..i], k);
      if (p.action == Handover && (p.newOwner !in t.members || t.members[p.newOwner] != MemberActive))
         || k == |ms| || ms[k].owner != leaver || ms[k].revision != p.expected {
        return Conflict;
      }
      HandedNext(t.mailboxes, ms, plans, order[..i], id, k);
      assert order[..i + 1] == order[..i] + [id];
      ms := ms[k := Handed(ms[k], p)];
    }
    assert order[..|order|] == order;
    forall id | id in plans ensures Fits(t, leaver, plans[id], id) {
      var n :| 0 <= n < |order| && order[n] == id;
    }
    HandedEverything(t.mailboxes, ms, plans, order);
    result := Committed(t.(mailboxes := ms));
  }

  lemma HandedNone(ms: seq<Mailbox>, plans: map<nat, MailboxPlan>)
    ensures HandedSome(ms, ms, plans, [])
  {
  }

  lemma HandedEverything(was: seq<Mailbox>, ms: seq<Mailbox>, plans: map<nat, MailboxPlan>, order: seq<nat>)
    requires HandedSome(was, ms, plans, order) && forall id | id in plans :: id in order
    ensures ms == HandedAll(was, plans)
  {
  }

  lemma HandedNext(was: seq<Mailbox>, ms: seq<Mailbox>, plans: map<nat, MailboxPlan>, done: seq<nat>, id: nat, k: nat)
    requires Ordered(was) && HandedSome(was, ms, plans, done) && id in plans && id !in done && k < |ms| && ms[k].id == id
    ensures HandedSome(was, ms[k := Handed(ms[k], plans[id])], plans, done + [id])
  {
    assert was[k].id == id;
    var after := ms[k := Handed(ms[k], plans[id])];
    forall n | 0 <= n < |after|
      ensures after[n] == if was[n].id in done + [id] && was[n].id in plans then Handed(was[n], plans[was[n].id]) else was[n]
    {
      if n < k { assert was[n].id < was[k].id; }
      if k < n { assert was[k].id < was[n].id; }
    }
  }

  /** The guarded update goes through exactly when the plan still fits. */
  lemma FitsExactly(t: Tables, leaver: nat, plans: map<nat, MailboxPlan>, id: nat, ms: seq<Mailbox>, done: seq<nat>, k: nat)
    requires Ordered(t.mailboxes) && HandedSome(t.mailboxes, ms, plans, done) && id in plans && id !in done && k == FindMailbox(ms, id)
    ensures var p := plans[id];
            var owner := p.action == Handover ==> p.newOwner in t.members && t.members[p.newOwner] == MemberActive;
            Fits(t, leaver, p, id) <==> owner && k < |ms| && ms[k].owner == leaver && ms[k].revision == p.expected
  {
    var p := plans[id];
    if k < |ms| { assert t.mailboxes[k] == ms[k] && t.mailboxes[k] in t.mailboxes; }
    if Fits(t, leaver, p, id) {
      var mb :| mb in t.mailboxes && mb.id == id && mb.owner == leaver && mb.revision == p.expected;
      var n :| 0 <= n < |t.mailboxes| && t.mailboxes[n] == mb;
      assert ms[n] == mb;
      UniqueId(t.mailboxes, ms, n, k);
    }
  }

  ghost predicate Fits(t: Tables, leaver: nat, p: MailboxPlan, id: nat) {
    exists mb :: mb in t.mailboxes && mb.id == id && mb.owner == leaver && mb.revision == p.expected
                 && (p.action == Handover ==> p.newOwner in t.members && t.members[p.newOwner] == MemberActive)
  }

  lemma IdsDistinct(ms: seq<Mailbox>)
    requires Ordered(ms)
    ensures forall i, j | 0 <= i < |ms| && 0 <= j < |ms| && ms[i].id == ms[j].id :: i == j
  {
  }

  lemma UniqueId(was: seq<Mailbox>, ms: seq<Mailbox>, n: nat, k: nat)
    requires Ordered(was) && |ms| == |was| && n < |ms| && k <= |ms| && ms[n].id == was[n].id
    requires forall i | 0 <= i < |ms| :: ms[i].id == was[i].id
    requires k < |ms| ==> ms[k].id == was[n].id
    ensures k < |ms| ==> k == n
  {
    IdsDistinct(was);
  }

  // ----- the groups -----------------------------------------------------------

  /** The members of a group who count: active or invited, without the leaver. */
  function Remaining(t: Tables, group: set<nat>, leaver: nat): set<nat> {
    set m | m in group && m in t.members && t.members[m] in {MemberActive, Invited} && m != leaver
  }

  /** The owner a mailbox will have, as the group computation sees it; mailboxes
      whose plan is not a handover are passed over. */
  predicate Counts(mb: Mailbox, plans: map<nat, MailboxPlan>, remaining: set<nat>) {
    && mb.kind == Personal && mb.status == Active && mb.owner != 0
    && (mb.id in plans ==> plans[mb.id].action == Handover)
    && (if mb.id in plans then plans[mb.id].newOwner else mb.owner) in remaining
  }

  function Reowned(mb: Mailbox, plans: map<nat, MailboxPlan>): Mailbox {
    if mb.id in plans then mb.(owner := plans[mb.id].newOwner) else mb
  }

  function OffboardRows(ms: seq<Mailbox>, plans: map<nat, MailboxPlan>, remaining: set<nat>): seq<Mailbox> {
    if ms == [] then []
    else (if Counts(ms[0], plans, remaining) then [Reowned(ms[0], plans)] else []) + OffboardRows(ms[1..], plans, remaining)
  }

  /** Groups that are computed: the leaver counted there, or a new owner does. */
  predicate Affected(t: Tables, group: set<nat>, leaver: nat, plans: map<nat, MailboxPlan>) {
    || (leaver in group && leaver in t.members && t.members[leaver] in {MemberActive, Invited})
    || exists id | id in plans :: plans[id].action == Handover && plans[id].newOwner in Remaining(t, group, leaver)
  }

  function OffboardTargets(t: Tables, group: set<nat>, leaver: nat, plans: map<nat, MailboxPlan>, rule: Rule): Result {
    Targets(OffboardRows(t.mailboxes, plans, Remaining(t, group, leaver)), rule)
  }

  /** The offboarding plan stores no mailbox versions. */
  function TargetsOnly(r: Result): Result {
    if r.Candidates? then r.(versions := []) else r
  }

  method PrepareOffboardGroup(t: Tables, group: set<nat>, leaver: nat, plans: map<nat, MailboxPlan>, rule: Rule)
    returns (affected: bool, r: Result)
    ensures affected <==> Affected(t, group, leaver, plans)
    ensures affected ==> r == TargetsOnly(OffboardTargets(t, group, leaver, plans, rule))
  {
    hide Canonical, Addresses, Versions, OffboardRows, Remaining;
    affected := Affected(t, group, leaver, plans);
    r := Candidates([], []);
    if !affected {
      return;
    }
    var rows := OffboardRows(t.mailboxes, plans, Remaining(t, group, leaver));
    var k, found, _ := Collect(rows, rule);
    if k < |rows| {
      return true, Constraint(rows[k].owner, rows[k].id);
    }
    var targets := SortedKeys(found);
    CanonicalShape(Addresses(rows));
    StrictUnique(targets, Canonical(Addresses(rows)));
    r := Candidates(targets, []);
  }

  // ----- agreement with the recomputation -------------------------------------

  /** Handed over into the group, and only the handover makes it a candidate: the
      query looked at the old kind and status, the update writes new ones. */
  predicate Late(mb: Mailbox, plans: map<nat, MailboxPlan>, remaining: set<nat>) {
    && mb.id in plans && plans[mb.id].action == Handover && plans[mb.id].newOwner in remaining
    && mb.status != Archived && !(mb.kind == Personal && mb.status == Active)
  }

  /** The plans as they were accepted. */
  ghost predicate PlansOf(t: Tables, leaver: nat, plans: map<nat, MailboxPlan>) {
    && leaver > 0 && 0 !in t.members
    && plans.Keys == Owned(t.mailboxes, leaver)
    && (forall id | id in plans :: WellFormed(plans[id]) && OwnerFits(t.members, leaver, plans[id]))
  }

  /** Row by row: a mailbox is a candidate afterwards exactly if it counted before or is late. */
  lemma CandidateAfter(t: Tables, group: set<nat>, leaver: nat, plans: map<nat, MailboxPlan>, mb: Mailbox)
    requires Ordered(t.mailboxes) && PlansOf(t, leaver, plans) && mb in t.mailboxes
    ensures var after := if mb.id in plans then Handed(mb, plans[mb.id]) else mb;
            var remaining := Remaining(t, group, leaver);
            Eligible(after, t.members[leaver := Departed], group, NO_MEMBER)
            <==> Counts(mb, plans, remaining) || Late(mb, plans, remaining)
  {
    if mb.id in plans { OwnedBy(t.mailboxes, leaver, mb); }
    if mb.owner == leaver { assert mb.id in Owned(t.mailboxes, leaver); }
  }

  lemma OwnedBy(ms: seq<Mailbox>, leaver: nat, mb: Mailbox)
    requires Ordered(ms) && mb in ms && mb.id in Owned(ms, leaver)
    ensures mb.owner == leaver
  {
    var other :| other in ms && other.owner == leaver && other.id == mb.id;
    var i :| 0 <= i < |ms| && ms[i] == mb;
    var j :| 0 <= j < |ms| && ms[j] == other;
    IdsDistinct(ms);
  }

  lemma {:induction false} OffboardRowsAre(ms: seq<Mailbox>, plans: map<nat, MailboxPlan>, remaining: set<nat>)
    ensures forall x :: x in OffboardRows(ms, plans, remaining) <==> exists mb :: mb in ms && Counts(mb, plans, remaining) && x == Reowned(mb, plans)
    decreases |ms|
  {
    if ms != [] {
      OffboardRowsAre(ms[1..], plans, remaining);
      assert forall mb :: mb in ms <==> mb == ms[0] || mb in ms[1..];
    }
  }

  lemma AfterRowsAre(t: Tables, group: set<nat>, leaver: nat, plans: map<nat, MailboxPlan>)
    requires Ordered(t.mailboxes) && PlansOf(t, leaver, plans)
    ensures var remaining := Remaining(t, group, leaver);
            var after := AfterOffboard(t, leaver, plans);
            forall x :: x in Rows(after.mailboxes, after.members, group, NO_CHANGE, NO_MEMBER) <==>
              exists mb :: mb in t.mailboxes && (Counts(mb, plans, remaining) || Late(mb, plans, remaining))
                           && x == (if mb.id in plans then Handed(mb, plans[mb.id]) else mb)
  {
    hide Eligible, Counts, Late, Remaining, Handed, PlansOf;
    var after := AfterOffboard(t, leaver, plans);
    var remaining := Remaining(t, group, leaver);
    RowsAre(after, group, NO_CHANGE, NO_MEMBER);
    forall x ensures x in Rows(after.mailboxes, after.members, group, NO_CHANGE, NO_MEMBER) <==>
              exists mb :: mb in t.mailboxes && (Counts(mb, plans, remaining) || Late(mb, plans, remaining))
                           && x == (if mb.id in plans then Handed(mb, plans[mb.id]) else mb)
    {
      if IsCandidate(after, group, NO_CHANGE, NO_MEMBER, x) {
        var i :| 0 <= i < |after.mailboxes| && x == Seen(after.mailboxes[i], NO_CHANGE) && Eligible(x, after.members, group, NO_MEMBER);
        HandedId(t.mailboxes[i], plans);
        CandidateAfter(t, group, leaver, plans, t.mailboxes[i]);
        assert t.mailboxes[i] in t.mailboxes;
      }
      if mb :| mb in t.mailboxes && (Counts(mb, plans, remaining) || Late(mb, plans, remaining)) && x == (if mb.id in plans then Handed(mb, plans[mb.id]) else mb) {
        var i :| 0 <= i < |t.mailboxes| && t.mailboxes[i] == mb;
        HandedId(mb, plans);
        CandidateAfter(t, group, leaver, plans, mb);
        assert after.mailboxes[i] == x && Seen(after.mailboxes[i], NO_CHANGE) == x;
      }
    }
  }

  lemma HandedId(mb: Mailbox, plans: map<nat, MailboxPlan>)
    ensures mb.id in plans ==> Handed(mb, plans[mb.id]).id == mb.id
  {
  }

  /** Both refuse, or both give the same targets. */
  predicate Agree(planned: Result, now: Result) {
    if planned.Candidates? && now.Candidates? then planned.targets == now.targets else planned.Constraint? && now.Constraint?
  }

  ghost predicate CountingBreaks(t: Tables, plans: map<nat, MailboxPlan>, remaining: set<nat>, rule: Rule) {
    exists mb :: mb in t.mailboxes && Counts(mb, plans, remaining) && Breaks(rule, mb)
  }

  /** A mailbox that counts has the same address, up to case. */
  ghost predicate SharesAddress(t: Tables, plans: map<nat, MailboxPlan>, remaining: set<nat>, mb: Mailbox) {
    exists other :: other in t.mailboxes && Counts(other, plans, remaining) && Lower(other.address) == Lower(mb.address)
  }

  /** The separate computation agrees with the recomputation after departure and
      handover, nothing else having changed, if and only if a counting mailbox breaks
      the rule, or every late mailbox fits the rule and shares its address with a
      counting one. A group that is refused before is refused afterwards. */
  lemma OffboardTargetsExact(t: Tables, group: set<nat>, leaver: nat, plans: map<nat, MailboxPlan>, rule: Rule)
    requires Ordered(t.mailboxes) && PlansOf(t, leaver, plans)
    ensures var remaining := Remaining(t, group, leaver);
            var planned := OffboardTargets(t, group, leaver, plans, rule);
            var now := Recompute(AfterOffboard(t, leaver, plans), group, rule);
            && (Agree(planned, now) <==>
                  || CountingBreaks(t, plans, remaining, rule)
                  || forall mb | mb in t.mailboxes && Late(mb, plans, remaining) :: !Breaks(rule, mb) && SharesAddress(t, plans, remaining, mb))
            && (planned.Constraint? ==> now.Constraint?)
  {
    hide Targets, Rows, OffboardRows, Counts, Late, Handed, PlansOf, Remaining, Breaks, SharesAddress, CountingBreaks, Lower;
    var remaining := Remaining(t, group, leaver);
    var after := AfterOffboard(t, leaver, plans);
    var offRows := OffboardRows(t.mailboxes, plans, remaining);
    var rows := Rows(after.mailboxes, after.members, group, NO_CHANGE, NO_MEMBER);
    OffboardRowsAre(t.mailboxes, plans, remaining);
    AfterRowsAre(t, group, leaver, plans);
    RefusedIff(t, plans, remaining, offRows, rows, rule);
    if Targets(offRows, rule).Candidates? {
      CompareRows(t, plans, remaining, offRows, rows, rule);
      forall mb: Mailbox ensures Lower(mb.address) in Targets(offRows, rule).targets <==> SharesAddress(t, plans, remaining, mb) {
        TargetsOfCounting(t, plans, remaining, offRows, rule, mb);
      }
    }
  }

  lemma RefusedIff(t: Tables, plans: map<nat, MailboxPlan>, remaining: set<nat>, offRows: seq<Mailbox>, rows: seq<Mailbox>, rule: Rule)
    requires forall x :: x in offRows <==> exists mb :: mb in t.mailboxes && Counts(mb, plans, remaining) && x == Reowned(mb, plans)
    requires forall x :: x in rows <==>
              exists mb :: mb in t.mailboxes && (Counts(mb, plans, remaining) || Late(mb, plans, remaining))
                           && x == (if mb.id in plans then Handed(mb, plans[mb.id]) else mb)
    ensures Targets(offRows, rule).Constraint? <==> CountingBreaks(t, plans, remaining, rule)
    ensures CountingBreaks(t, plans, remaining, rule) ==> Targets(rows, rule).Constraint?
  {
    hide Canonical, Addresses, Versions, Counts, Late, Handed, Breaks, Reowned;
    BreakIn(offRows, rule);
    BreakIn(rows, rule);
    if x :| x in offRows && Breaks(rule, x) {
      var mb :| mb in t.mailboxes && Counts(mb, plans, remaining) && x == Reowned(mb, plans);
      SameTarget(mb, plans, rule);
    }
    if mb :| mb in t.mailboxes && Counts(mb, plans, remaining) && Breaks(rule, mb) {
      SameTarget(mb, plans, rule);
      assert Reowned(mb, plans) in offRows;
      assert (if mb.id in plans then Handed(mb, plans[mb.id]) else mb) in rows;
    }
  }

  lemma TargetsOfCounting(t: Tables, plans: map<nat, MailboxPlan>, remaining: set<nat>, offRows: seq<Mailbox>, rule: Rule, mb: Mailbox)
    requires forall x :: x in offRows <==> exists mb :: mb in t.mailboxes && Counts(mb, plans, remaining) && x == Reowned(mb, plans)
    requires Targets(offRows, rule).Candidates?
    ensures Lower(mb.address) in Targets(offRows, rule).targets <==> SharesAddress(t, plans, remaining, mb)
  {
    hide Canonical, Addresses, Versions, Counts, Reowned, Lower;
    var a := Lower(mb.address);
    CanonicalShape(Addresses(offRows));
    AddressesIn(offRows);
    assert a in Targets(offRows, rule).targets <==> a in Elements(Targets(offRows, rule).targets);
    assert a in Addresses(offRows) <==> a in Elements(Addresses(offRows));
    if x :| x in offRows && Lower(x.address) == a {
      var other :| other in t.mailboxes && Counts(other, plans, remaining) && x == Reowned(other, plans);
      SameTarget(other, plans, rule);
    }
    if other :| other in t.mailboxes && Counts(other, plans, remaining) && Lower(other.address) == a {
      SameTarget(other, plans, rule);
      assert Reowned(other, plans) in offRows;
    }
  }

  lemma SameTarget(mb: Mailbox, plans: map<nat, MailboxPlan>, rule: Rule)
    ensures Reowned(mb, plans).address == mb.address && (Breaks(rule, Reowned(mb, plans)) <==> Breaks(rule, mb))
    ensures mb.id in plans ==> Handed(mb, plans[mb.id]).address == mb.address && (Breaks(rule, Handed(mb, plans[mb.id])) <==> Breaks(rule, mb))
  {
  }

  lemma CompareRows(t: Tables, plans: map<nat, MailboxPlan>, remaining: set<nat>, offRows: seq<Mailbox>, rows: seq<Mailbox>, rule: Rule)
    requires forall x :: x in offRows <==> exists mb :: mb in t.mailboxes && Counts(mb, plans, remaining) && x == Reowned(mb, plans)
    requires forall x :: x in rows <==>
              exists mb :: mb in t.mailboxes && (Counts(mb, plans, remaining) || Late(mb, plans, remaining))
                           && x == (if mb.id in plans then Handed(mb, plans[mb.id]) else mb)
    requires Targets(offRows, rule).Candidates?
    ensures (Targets(rows, rule).Candidates? && Targets(rows, rule).targets == Targets(offRows, rule).targets)
            <==> forall mb | mb in t.mailboxes && Late(mb, plans, remaining) :: !Breaks(rule, mb) && Lower(mb.address) in Targets(offRows, rule).targets
  {
    hide Canonical, Addresses, Versions, Counts, Late, Handed, Breaks, Reowned;
    var off := Targets(offRows, rule);
    AddressSets(t, plans, remaining, offRows, rows);
    BreakIn(offRows, rule);
    BreakIn(rows, rule);
    BreakSets(t, plans, remaining, offRows, rows, rule);
    CanonicalShape(Addresses(offRows));
    CanonicalShape(Addresses(rows));
    var lates := LateAddresses(t, plans, remaining);
    assert forall mb | mb in t.mailboxes && Late(mb, plans, remaining) :: Lower(mb.address) in lates;
    if Elements(Addresses(rows)) == Elements(Addresses(offRows)) {
      StrictUnique(Canonical(Addresses(rows)), Canonical(Addresses(offRows)));
    }
    assert forall a :: a in off.targets <==> a in Elements(off.targets);
  }

  function LateAddresses(t: Tables, plans: map<nat, MailboxPlan>, remaining: set<nat>): set<string> {
    set mb | mb in t.mailboxes && Late(mb, plans, remaining) :: Lower(mb.address)
  }

  lemma BreakSets(t: Tables, plans: map<nat, MailboxPlan>, remaining: set<nat>, offRows: seq<Mailbox>, rows: seq<Mailbox>, rule: Rule)
    requires forall x :: x in offRows <==> exists mb :: mb in t.mailboxes && Counts(mb, plans, remaining) && x == Reowned(mb, plans)
    requires forall x :: x in rows <==>
              exists mb :: mb in t.mailboxes && (Counts(mb, plans, remaining) || Late(mb, plans, remaining))
                           && x == (if mb.id in plans then Handed(mb, plans[mb.id]) else mb)
    requires forall x | x in offRows :: !Breaks(rule, x)
    ensures (exists x :: x in rows && Breaks(rule, x)) <==> exists mb :: mb in t.mailboxes && Late(mb, plans, remaining) && Breaks(rule, mb)
  {
    hide Counts, Late, Handed, Breaks, Reowned;
    if x :| x in rows && Breaks(rule, x) {
      var mb :| mb in t.mailboxes && (Counts(mb, plans, remaining) || Late(mb, plans, remaining)) && x == (if mb.id in plans then Handed(mb, plans[mb.id]) else mb);
      SameTarget(mb, plans, rule);
      assert Counts(mb, plans, remaining) ==> Reowned(mb, plans) in offRows;
    }
    if mb :| mb in t.mailboxes && Late(mb, plans, remaining) && Breaks(rule, mb) {
      SameTarget(mb, plans, rule);
      assert (if mb.id in plans then Handed(mb, plans[mb.id]) else mb) in rows;
    }
  }

  lemma AddressSets(t: Tables, plans: map<nat, MailboxPlan>, remaining: set<nat>, offRows: seq<Mailbox>, rows: seq<Mailbox>)
    requires forall x :: x in offRows <==> exists mb :: mb in t.mailboxes && Counts(mb, plans, remaining) && x == Reowned(mb, plans)
    requires forall x :: x in rows <==>
              exists mb :: mb in t.mailboxes && (Counts(mb, plans, remaining) || Late(mb, plans, remaining))
                           && x == (if mb.id in plans then Handed(mb, plans[mb.id]) else mb)
    ensures Elements(Addresses(rows)) == Elements(Addresses(offRows)) + LateAddresses(t, plans, remaining)
  {
    hide Counts, Late, Handed, Reowned, Addresses;
    AddressesIn(offRows);
    AddressesIn(rows);
    forall a ensures a in Addresses(rows) <==> a in Addresses(offRows) || a in LateAddresses(t, plans, remaining) {
      if a in Addresses(rows) {
        var x :| x in rows && Lower(x.address) == a;
        var mb :| mb in t.mailboxes && (Counts(mb, plans, remaining) || Late(mb, plans, remaining)) && x == (if mb.id in plans then Handed(mb, plans[mb.id]) else mb);
        SameTarget(mb, plans, Rule(0, "", false));
        if Counts(mb, plans, remaining) { assert Reowned(mb, plans) in offRows; }
      }
      if a in Addresses(offRows) {
        var x :| x in offRows && Lower(x.address) == a;
        var mb :| mb in t.mailboxes && Counts(mb, plans, remaining) && x == Reowned(mb, plans);
        SameTarget(mb, plans, Rule(0, "", false));
        assert (if mb.id in plans then Handed(mb, plans[mb.id]) else mb) in rows;
      }
      if a in LateAddresses(t, plans, remaining) {
        var mb :| mb in t.mailboxes && Late(mb, plans, remaining) && Lower(mb.address) == a;
        SameTarget(mb, plans, Rule(0, "", false));
        assert (if mb.id in plans then Handed(mb, plans[mb.id]) else mb) in rows;
      }
    }
  }

  /** Groups that are passed over keep their result unchanged, versions included. */
  lemma {:induction false} SkippedRows(ms: seq<Mailbox>, t: Tables, group: set<nat>, leaver: nat, plans: map<nat, MailboxPlan>)
    requires Ordered(t.mailboxes) && PlansOf(t, leaver, plans) && !Affected(t, group, leaver, plans)
    requires forall mb | mb in ms :: mb in t.mailboxes
    ensures Rows(HandedAll(ms, plans), t.members[leaver := Departed], group, NO_CHANGE, NO_MEMBER)
         == Rows(ms, t.members, group, NO_CHANGE, NO_MEMBER)
    decreases |ms|
  {
    if ms != [] {
      assert HandedAll(ms, plans)[1..] == HandedAll(ms[1..], plans);
      assert ms[0] in ms && forall mb | mb in ms[1..] :: mb in ms;
      SkippedRows(ms[1..], t, group, leaver, plans);
      SkippedRow(ms[0], t, group, leaver, plans);
    }
  }

  lemma SkippedRow(mb: Mailbox, t: Tables, group: set<nat>, leaver: nat, plans: map<nat, MailboxPlan>)
    requires Ordered(t.mailboxes) && PlansOf(t, leaver, plans) && !Affected(t, group, leaver, plans) && mb in t.mailboxes
    ensures mb.id > 0
    ensures var after := if mb.id in plans then Handed(mb, plans[mb.id]) else mb;
            var members := t.members[leaver := Departed];
            if Eligible(mb, t.members, group, NO_MEMBER) then after == mb && Eligible(after, members, group, NO_MEMBER)
            else !Eligible(after, members, group, NO_MEMBER)
  {
    var i :| 0 <= i < |t.mailboxes| && t.mailboxes[i] == mb;
    if mb.id in plans {
      OwnedBy(t.mailboxes, leaver, mb);
      var p := plans[mb.id];
      assert p.action == Handover && p.newOwner in group ==> p.newOwner in Remaining(t, group, leaver);
    }
    if mb.owner == leaver { assert mb.id in Owned(t.mailboxes, leaver); }
  }

  lemma SkippedGroupsKeepTargets(t: Tables, group: set<nat>, leaver: nat, plans: map<nat, MailboxPlan>, rule: Rule)
    requires Ordered(t.mailboxes) && PlansOf(t, leaver, plans) && !Affected(t, group, leaver, plans)
    ensures Recompute(AfterOffboard(t, leaver, plans), group, rule) == Recompute(t, group, rule)
  {
    hide Targets, PlansOf, Affected;
    SkippedRows(t.mailboxes, t, group, leaver, plans);
  }

  /** A suspended mailbox handed over to a group member: nothing is planned for the
      group, yet the mailbox is active and a candidate afterwards. */
  lemma LateMailboxIsMissed() returns (t: Tables, group: set<nat>, leaver: nat, plans: map<nat, MailboxPlan>, rule: Rule)
    ensures Ordered(t.mailboxes) && PlansOf(t, leaver, plans) && Affected(t, group, leaver, plans)
    ensures var off, now := OffboardTargets(t, group, leaver, plans, rule), Recompute(AfterOffboard(t, leaver, plans), group, rule);
            off.Candidates? && now.Candidates? && off.targets != now.targets
  {
    var mb := Mailbox(5, 1, "a@x", Personal, Suspended, 1, 1);
    t := Tables([mb], map[1 := MemberActive, 2 := MemberActive]);
    plans := map[5 := MailboxPlan(5, 1, Handover, 2)];
    rule := Rule(1, "x", false);
    leaver, group := 1, {2};
    assert Owned([mb], 1) == {5} by { assert mb in [mb]; }
    var remaining := Remaining(t, group, leaver);
    assert 2 in remaining;
    assert OffboardRows([mb], plans, remaining) == [];
    assert Late(mb, plans, remaining) && mb in t.mailboxes && !Breaks(rule, mb);
    MissedTargets(t, group, leaver, plans, rule, mb);
  }

  /** Nothing planned, and a late mailbox: the result differs. */
  lemma MissedTargets(t: Tables, group: set<nat>, leaver: nat, plans: map<nat, MailboxPlan>, rule: Rule, mb: Mailbox)
    requires Ordered(t.mailboxes) && PlansOf(t, leaver, plans) && !rule.sameDomainOnly
    requires OffboardRows(t.mailboxes, plans, Remaining(t, group, leaver)) == []
    requires mb in t.mailboxes && Late(mb, plans, Remaining(t, group, leaver))
    ensures var off, now := OffboardTargets(t, group, leaver, plans, rule), Recompute(AfterOffboard(t, leaver, plans), group, rule);
            off.Candidates? && now.Candidates? && off.targets != now.targets
  {
    hide Canonical, Rows, OffboardRows, Late, Counts, Reowned, Remaining, PlansOf, Lower, Addresses, AfterOffboard;
    var remaining := Remaining(t, group, leaver);
    OffboardTargetsExact(t, group, leaver, plans, rule);
    OffboardRowsAre(t.mailboxes, plans, remaining);
    forall other | other in t.mailboxes ensures !Counts(other, plans, remaining) {
      assert Counts(other, plans, remaining) ==> Reowned(other, plans) in OffboardRows(t.mailboxes, plans, remaining);
    }
    var after := AfterOffboard(t, leaver, plans);
    BreakIn(Rows(after.mailboxes, after.members, group, NO_CHANGE, NO_MEMBER), rule);
  }
}
