/** A stored plan and the tables that changed between planning and commit. The
    commit checks the revisions of what was planned with, but does not ask again who
    is a candidate; the check after it does. */
module PlanRaces {

  import opened Text
  import opened Routing
  import opened RoutingPlans

  /** The desired plan built from what-if results; the versions are those of the
      last rule, and are the same for every rule. */
  ghost predicate PlannedWith(t: Tables, plan: Plan, c: Change, mc: MemberChange) {
    forall i | 0 <= i < |plan.rules| && !plan.rules[i].delete ::
      Compute(t, plan.group, plan.rules[i].rule, c, mc) == Candidates(plan.rules[i].targets, plan.mailboxes)
  }

  predicate HasRule(plan: Plan) {
    plan.checked && exists i | 0 <= i < |plan.rules| :: !plan.rules[i].delete
  }

  /** Every write bumps the revision. */
  ghost predicate SameAtRevision(t0: Tables, t1: Tables) {
    forall a, b | a in t0.mailboxes && b in t1.mailboxes && a.id == b.id && a.revision == b.revision :: a == b
  }

  /** No mailbox began or ceased to count under the planned change, or changed while
      counting. */
  ghost predicate SameCandidates(t0: Tables, t1: Tables, group: set<nat>, c: Change, mc: MemberChange) {
    forall mb :: IsCandidate(t0, group, c, mc, mb) <==> IsCandidate(t1, group, c, mc, mb)
  }

  /** What plan and recomputation look at. */
  lemma SameCandidatesSameResult(t0: Tables, t1: Tables, group: set<nat>, rule: Rule, c: Change, mc: MemberChange)
    requires SameCandidates(t0, t1, group, c, mc) && Compute(t0, group, rule, c, mc).Candidates?
    ensures var was, now := Compute(t0, group, rule, c, mc), Compute(t1, group, rule, c, mc);
            now.Candidates? && now.targets == was.targets && VersionSet(now.versions) == VersionSet(was.versions)
  {
    hide Compute, IsCandidate, Breaks;
    var was, now := Compute(t0, group, rule, c, mc), Compute(t1, group, rule, c, mc);
    ComputeMeaning(t0, group, rule, c, mc);
    ComputeMeaning(t1, group, rule, c, mc);
    assert now.Candidates?;
    assert Elements(now.targets) == Elements(was.targets);
    StrictUnique(now.targets, was.targets);
  }

  /** Equal versions are equal rows. */
  lemma SameVersionsSameCandidates(t0: Tables, t1: Tables, group: set<nat>, rule: Rule, c: Change, mc: MemberChange)
    requires SeenAlike(t0, t1, c) && Compute(t0, group, rule, c, mc).Candidates? && Compute(t1, group, rule, c, mc).Candidates?
    requires VersionSet(Compute(t0, group, rule, c, mc).versions) == VersionSet(Compute(t1, group, rule, c, mc).versions)
    ensures SameCandidates(t0, t1, group, c, mc)
  {
    hide Compute, IsCandidate, SeenAlike;
    ComputeMeaning(t0, group, rule, c, mc);
    ComputeMeaning(t1, group, rule, c, mc);
    var vs0, vs1 := Compute(t0, group, rule, c, mc).versions, Compute(t1, group, rule, c, mc).versions;
    forall mb ensures IsCandidate(t0, group, c, mc, mb) <==> IsCandidate(t1, group, c, mc, mb) {
      var v := Version(mb.id, mb.revision);
      if IsCandidate(t0, group, c, mc, mb) {
        assert v in VersionSet(vs0) && v in VersionSet(vs1);
        var other :| IsCandidate(t1, group, c, mc, other) && v == Version(other.id, other.revision);
        AlikeRows(t0, t1, group, c, mc, mb, other);
      }
      if IsCandidate(t1, group, c, mc, mb) {
        assert v in VersionSet(vs1) && v in VersionSet(vs0);
        var other :| IsCandidate(t0, group, c, mc, other) && v == Version(other.id, other.revision);
        AlikeRows(t0, t1, group, c, mc, other, mb);
      }
    }
  }

  /** Seen through the change, equal id and revision still mean equal rows. */
  ghost predicate SeenAlike(t0: Tables, t1: Tables, c: Change) {
    forall a, b | a in t0.mailboxes && b in t1.mailboxes && a.id == b.id && Seen(a, c).revision == Seen(b, c).revision :: Seen(a, c) == Seen(b, c)
  }

  lemma AlikeRows(t0: Tables, t1: Tables, group: set<nat>, c: Change, mc: MemberChange, a: Mailbox, b: Mailbox)
    requires SeenAlike(t0, t1, c) && IsCandidate(t0, group, c, mc, a) && IsCandidate(t1, group, c, mc, b)
    requires a.id == b.id && a.revision == b.revision
    ensures a == b
  {
    var i :| 0 <= i < |t0.mailboxes| && a == Seen(t0.mailboxes[i], c);
    var j :| 0 <= j < |t1.mailboxes| && b == Seen(t1.mailboxes[j], c);
    assert t0.mailboxes[i] in t0.mailboxes && t1.mailboxes[j] in t1.mailboxes;
  }

  /** Planned at `t0`, committed at `t1`: the check after the commit accepts the plan
      if and only if the same mailboxes count. */
  lemma PlanAcceptedIff(t0: Tables, t1: Tables, after: Tables, plan: Plan, c: Change, mc: MemberChange)
    requires Ordered(t0.mailboxes) && Ordered(t1.mailboxes) && (c.id != 0 ==> c.revision > 0)
    requires PlannedWith(t0, plan, c, mc) && HasRule(plan) && SeenAlike(t0, t1, c)
    requires forall rule :: Recompute(after, plan.group, rule) == Compute(t1, plan.group, rule, c, mc)
    ensures Accepted(after, plan) <==> SameCandidates(t0, t1, plan.group, c, mc)
  {
    hide Compute, Recompute, SameTargets, SameVersions, SameCandidates, SeenAlike, Ordered;
    if SameCandidates(t0, t1, plan.group, c, mc) {
      forall i | 0 <= i < |plan.rules| ensures RuleAccepted(after, plan, plan.rules[i]) {
        if !plan.rules[i].delete { RuleStays(t0, t1, after, plan, i, c, mc); }
      }
    }
    if Accepted(after, plan) {
      var i :| 0 <= i < |plan.rules| && !plan.rules[i].delete;
      assert RuleAccepted(after, plan, plan.rules[i]);
      var rule := plan.rules[i].rule;
      var was, now := Compute(t0, plan.group, rule, c, mc), Compute(t1, plan.group, rule, c, mc);
      assert Recompute(after, plan.group, rule) == now;
      RowVersions(t0, plan.group, rule, c, mc);
      RowVersions(t1, plan.group, rule, c, mc);
      SameVersionsIsSetEquality(now.versions, was.versions);
      SameVersionsSameCandidates(t0, t1, plan.group, rule, c, mc);
    }
  }

  lemma RuleStays(t0: Tables, t1: Tables, after: Tables, plan: Plan, i: nat, c: Change, mc: MemberChange)
    requires Ordered(t0.mailboxes) && Ordered(t1.mailboxes) && (c.id != 0 ==> c.revision > 0)
    requires PlannedWith(t0, plan, c, mc) && i < |plan.rules| && !plan.rules[i].delete && SameCandidates(t0, t1, plan.group, c, mc)
    requires forall rule :: Recompute(after, plan.group, rule) == Compute(t1, plan.group, rule, c, mc)
    ensures RuleAccepted(after, plan, plan.rules[i])
  {
    hide Compute, Recompute, SameTargets, SameVersions, SameCandidates, Ordered;
    var rule := plan.rules[i].rule;
    var was, now := Compute(t0, plan.group, rule, c, mc), Compute(t1, plan.group, rule, c, mc);
    assert Recompute(after, plan.group, rule) == now;
    SameCandidatesSameResult(t0, t1, plan.group, rule, c, mc);
    SameTargetsIsPermutation(now.targets, plan.rules[i].targets);
    RowVersions(t0, plan.group, rule, c, mc);
    RowVersions(t1, plan.group, rule, c, mc);
    SameVersionsIsSetEquality(now.versions, was.versions);
  }

  // ----- mailbox mutations -------------------------------------------------------

  /** What the commit checks of a group's plan from before: its members and the
      mailboxes that were candidates are at their old revisions. */
  ghost predicate Guarded(t0: Tables, t1: Tables, group: set<nat>) {
    && (forall m | m in group :: (m in t0.members <==> m in t1.members) && (m in t0.members ==> t1.members[m] == t0.members[m]))
    && (forall mb | mb in t0.mailboxes && Eligible(mb, t0.members, group, NO_MEMBER) ::
          exists now :: now in t1.mailboxes && now.id == mb.id && now.revision == mb.revision)
  }

  /** No mailbox but the changed one became a candidate. */
  ghost predicate NoNewcomer(t0: Tables, t1: Tables, group: set<nat>, changed: nat) {
    forall mb | mb in t1.mailboxes && mb.id != changed && Eligible(mb, t1.members, group, NO_MEMBER) ::
      exists was :: was in t0.mailboxes && was.id == mb.id && Eligible(was, t0.members, group, NO_MEMBER)
  }

  lemma InOrder(ms: seq<Mailbox>, a: Mailbox, b: Mailbox)
    requires Ordered(ms) && a in ms && b in ms && a.id == b.id
    ensures a == b
  {
    var i :| 0 <= i < |ms| && ms[i] == a;
    var j :| 0 <= j < |ms| && ms[j] == b;
  }

  /** The changed mailbox is at its expected revision when planned and when committed. */
  lemma ChangedIsSame(t0: Tables, t1: Tables, m: Mutation)
    requires Ordered(t0.mailboxes) && Ordered(t1.mailboxes) && SameAtRevision(t0, t1)
    requires CommitMutation(t0, m).Committed? && CommitMutation(t1, m).Committed?
    ensures SeenAlike(t0, t1, Future(m))
    ensures forall a, b | a in t0.mailboxes && b in t1.mailboxes && a.id == b.id == m.id :: a == b
  {
    var a, b := t0.mailboxes[FindMailbox(t0.mailboxes, m.id)], t1.mailboxes[FindMailbox(t1.mailboxes, m.id)];
    assert a in t0.mailboxes && b in t1.mailboxes && a == b;
    forall x, y | x in t0.mailboxes && y in t1.mailboxes && x.id == y.id == m.id ensures x == y {
      InOrder(t0.mailboxes, x, a);
      InOrder(t1.mailboxes, y, b);
    }
  }

  /** A mailbox counts under the mutation as it does without it, but for the changed one. */
  lemma CountsUnder(t: Tables, group: set<nat>, m: Mutation, mb: Mailbox)
    requires mb.id != m.id
    ensures IsCandidate(t, group, Future(m), NO_MEMBER, mb) <==> mb in t.mailboxes && Eligible(mb, t.members, group, NO_MEMBER)
  {
    if IsCandidate(t, group, Future(m), NO_MEMBER, mb) {
      var i :| 0 <= i < |t.mailboxes| && mb == Seen(t.mailboxes[i], Future(m));
      assert t.mailboxes[i] in t.mailboxes;
    }
    if mb in t.mailboxes && Eligible(mb, t.members, group, NO_MEMBER) {
      var i :| 0 <= i < |t.mailboxes| && t.mailboxes[i] == mb;
      assert mb == Seen(t.mailboxes[i], Future(m));
    }
  }

  lemma SameEligible(t0: Tables, t1: Tables, group: set<nat>, mb: Mailbox)
    requires Guarded(t0, t1, group)
    ensures Eligible(mb, t0.members, group, NO_MEMBER) <==> Eligible(mb, t1.members, group, NO_MEMBER)
  {
  }

  lemma ChangedCounts(t: Tables, other: Tables, group: set<nat>, m: Mutation, mb: Mailbox)
    requires mb.id == m.id && IsCandidate(t, group, Future(m), NO_MEMBER, mb)
    requires exists x :: x in t.mailboxes && x.id == m.id && x in other.mailboxes
    requires forall a, b | a in t.mailboxes && b in other.mailboxes && a.id == b.id == m.id :: a == b
    requires forall x :: Eligible(x, t.members, group, NO_MEMBER) ==> Eligible(x, other.members, group, NO_MEMBER)
    ensures IsCandidate(other, group, Future(m), NO_MEMBER, mb)
  {
    var i :| 0 <= i < |t.mailboxes| && mb == Seen(t.mailboxes[i], Future(m)) && Eligible(mb, t.members, group, NO_MEMBER);
    var x :| x in t.mailboxes && x.id == m.id && x in other.mailboxes;
    assert t.mailboxes[i] in t.mailboxes && t.mailboxes[i].id == m.id;
    assert t.mailboxes[i] == x;
    var j :| 0 <= j < |other.mailboxes| && other.mailboxes[j] == x;
    assert mb == Seen(other.mailboxes[j], Future(m));
  }

  lemma MutationCandidates(t0: Tables, t1: Tables, m: Mutation, group: set<nat>)
    requires Ordered(t0.mailboxes) && Ordered(t1.mailboxes) && SameAtRevision(t0, t1) && Guarded(t0, t1, group)
    requires CommitMutation(t0, m).Committed? && CommitMutation(t1, m).Committed?
    ensures SameCandidates(t0, t1, group, Future(m), NO_MEMBER) <==> NoNewcomer(t0, t1, group, m.id)
  {
    hide Eligible, IsCandidate, Ordered, SeenAlike;
    ChangedIsSame(t0, t1, m);
    forall mb ensures Eligible(mb, t0.members, group, NO_MEMBER) <==> Eligible(mb, t1.members, group, NO_MEMBER) { SameEligible(t0, t1, group, mb); }
    if SameCandidates(t0, t1, group, Future(m), NO_MEMBER) {
      forall mb | mb in t1.mailboxes && mb.id != m.id && Eligible(mb, t1.members, group, NO_MEMBER)
        ensures mb in t0.mailboxes
      {
        CountsUnder(t0, group, m, mb);
        CountsUnder(t1, group, m, mb);
      }
    }
    if NoNewcomer(t0, t1, group, m.id) {
      Shared(t0, t1, m);
      forall mb ensures IsCandidate(t0, group, Future(m), NO_MEMBER, mb) <==> IsCandidate(t1, group, Future(m), NO_MEMBER, mb) {
        if mb.id != m.id {
          CountsUnder(t0, group, m, mb);
          CountsUnder(t1, group, m, mb);
          OthersStay(t0, t1, group, m.id, mb);
        } else {
          if IsCandidate(t0, group, Future(m), NO_MEMBER, mb) { ChangedCounts(t0, t1, group, m, mb); }
          if IsCandidate(t1, group, Future(m), NO_MEMBER, mb) { ChangedCounts(t1, t0, group, m, mb); }
        }
      }
    }
  }

  lemma Shared(t0: Tables, t1: Tables, m: Mutation)
    requires Ordered(t0.mailboxes) && Ordered(t1.mailboxes) && SameAtRevision(t0, t1)
    requires CommitMutation(t0, m).Committed? && CommitMutation(t1, m).Committed?
    ensures exists x :: x in t0.mailboxes && x.id == m.id && x in t1.mailboxes
  {
    ChangedIsSame(t0, t1, m);
    var a, b := t0.mailboxes[FindMailbox(t0.mailboxes, m.id)], t1.mailboxes[FindMailbox(t1.mailboxes, m.id)];
    assert a in t0.mailboxes && b in t1.mailboxes;
  }

  lemma StaysIn(t0: Tables, t1: Tables, group: set<nat>, mb: Mailbox)
    requires SameAtRevision(t0, t1) && Guarded(t0, t1, group)
    requires mb in t0.mailboxes && Eligible(mb, t0.members, group, NO_MEMBER)
    ensures mb in t1.mailboxes
  {
    hide Eligible;
    var now :| now in t1.mailboxes && now.id == mb.id && now.revision == mb.revision;
  }

  lemma WasIn(t0: Tables, t1: Tables, group: set<nat>, changed: nat, mb: Mailbox)
    requires Ordered(t1.mailboxes) && SameAtRevision(t0, t1) && Guarded(t0, t1, group) && NoNewcomer(t0, t1, group, changed)
    requires mb.id != changed && mb in t1.mailboxes && Eligible(mb, t1.members, group, NO_MEMBER)
    ensures mb in t0.mailboxes
  {
    hide Eligible, Ordered, Guarded, SameAtRevision;
    var was :| was in t0.mailboxes && was.id == mb.id && Eligible(was, t0.members, group, NO_MEMBER);
    StaysIn(t0, t1, group, was);
    InOrder(t1.mailboxes, was, mb);
  }

  lemma OthersStay(t0: Tables, t1: Tables, group: set<nat>, changed: nat, mb: Mailbox)
    requires Ordered(t0.mailboxes) && Ordered(t1.mailboxes) && SameAtRevision(t0, t1) && Guarded(t0, t1, group) && NoNewcomer(t0, t1, group, changed)
    requires mb.id != changed
    ensures (mb in t0.mailboxes && Eligible(mb, t0.members, group, NO_MEMBER)) <==> (mb in t1.mailboxes && Eligible(mb, t1.members, group, NO_MEMBER))
  {
    hide Eligible, Ordered, Guarded, SameAtRevision, NoNewcomer;
    SameEligible(t0, t1, group, mb);
    if mb in t0.mailboxes && Eligible(mb, t0.members, group, NO_MEMBER) { StaysIn(t0, t1, group, mb); }
    if mb in t1.mailboxes && Eligible(mb, t1.members, group, NO_MEMBER) { WasIn(t0, t1, group, changed, mb); }
  }

  /** A mutation planned at `t0` and committed at `t1`, where the revisions of what
      was planned with still hold: the stored plan is accepted after the commit if
      and only if no other mailbox became a candidate in between. */
  lemma MutationPlanAccepted(t0: Tables, t1: Tables, m: Mutation, plan: Plan)
    requires Ordered(t0.mailboxes) && Ordered(t1.mailboxes) && SameAtRevision(t0, t1) && Guarded(t0, t1, plan.group)
    requires CommitMutation(t0, m).Committed? && CommitMutation(t1, m).Committed?
    requires PlannedWith(t0, plan, Future(m), NO_MEMBER) && HasRule(plan)
    ensures Accepted(CommitMutation(t1, m).tables, plan) <==> NoNewcomer(t0, t1, plan.group, m.id)
  {
    hide Compute, Recompute, Accepted, SameAtRevision, Guarded, NoNewcomer, SameCandidates, PlannedWith, Ordered, SeenAlike;
    forall rule ensures Recompute(CommitMutation(t1, m).tables, plan.group, rule) == Compute(t1, plan.group, rule, Future(m), NO_MEMBER) {
      WhatIfMutation(t1, m, plan.group, rule);
    }
    ChangedIsSame(t0, t1, m);
    MutationCandidates(t0, t1, m, plan.group);
    PlanAcceptedIff(t0, t1, CommitMutation(t1, m).tables, plan, Future(m), NO_MEMBER);
  }

  /** The same for a member's status. Mailboxes that only the new status makes count
      are not among those the commit checks, so they may also have ceased or changed. */
  lemma MemberStatusPlanAccepted(t0: Tables, t1: Tables, id: nat, status: MemberStatus, plan: Plan)
    requires Ordered(t0.mailboxes) && Ordered(t1.mailboxes) && SameAtRevision(t0, t1)
    requires id > 0 && 0 !in t1.members && CommitMemberStatus(t1, id, true, status).Committed?
    requires PlannedWith(t0, plan, NO_CHANGE, MemberChange(id, status)) && HasRule(plan)
    ensures Accepted(CommitMemberStatus(t1, id, true, status).tables, plan)
            <==> SameCandidates(t0, t1, plan.group, NO_CHANGE, MemberChange(id, status))
  {
    hide Compute, Recompute, Accepted, SameCandidates, PlannedWith;
    var after := CommitMemberStatus(t1, id, true, status).tables;
    forall rule ensures Recompute(after, plan.group, rule) == Compute(t1, plan.group, rule, NO_CHANGE, MemberChange(id, status)) {
      WhatIfMemberStatus(t1, id, status, plan.group, rule);
    }
    PlanAcceptedIff(t0, t1, after, plan, NO_CHANGE, MemberChange(id, status));
  }

  // ----- it happens -----------------------------------------------------------------

  /** `CompleteConnectionSetup` gives a mailbox without owner to the administrator who
      completes the setup; it looks at the locks of that mailbox and its connection. */
  function CompleteSetup(t: Tables, actor: nat, id: nat, expected: nat): Commit {
    var k := FindMailbox(t.mailboxes, id);
    if k == |t.mailboxes| || t.mailboxes[k].revision != expected || t.mailboxes[k].kind != Personal || t.mailboxes[k].status != Active
       || t.mailboxes[k].owner !in {0, actor}
    then Conflict
    else Committed(t.(mailboxes := t.mailboxes[k := t.mailboxes[k].(owner := actor, revision := expected + 1)]))
  }

  const MINE := Mailbox(1, 1, "a@x", Personal, Active, 9, 1)
  const FREE := Mailbox(2, 2, "b@y", Personal, Active, 0, 1)
  const MEMBERS: map<nat, MemberStatus> := map[8 := MemberActive, 9 := MemberActive]
  const PLANNING := Tables([MINE, FREE], MEMBERS)
  const COMMITTING := Tables([MINE, FREE.(owner := 9, revision := 2)], MEMBERS)

  const UPDATE := Mutation(1, 1, 9, Personal, Active)
  const EVERYWHERE := Rule(1, "x", false)
  const STORED := Plan(true, {8, 9}, [Version(1, 2)], [RulePlan(EVERYWHERE, Canonical(["a@x"]), false)])

  lemma BothCommit()
    ensures Ordered(PLANNING.mailboxes) && Ordered(COMMITTING.mailboxes)
    ensures CompleteSetup(PLANNING, 9, 2, 1) == Committed(COMMITTING)
    ensures CommitMutation(PLANNING, UPDATE).Committed? && CommitMutation(COMMITTING, UPDATE).Committed?
  {
    var was, now := PLANNING.mailboxes, COMMITTING.mailboxes;
    assert was[0] == MINE && was[1] == FREE && now[0] == MINE && now[1].id == 2;
    assert FindMailbox(was, 2) == 1 && FindMailbox(was, 1) == 0 && FindMailbox(now, 1) == 0;
    assert was[1 := FREE.(owner := 9, revision := 2)] == now;
  }

  lemma NothingPlannedMoved()
    ensures Guarded(PLANNING, COMMITTING, {8, 9}) && SameAtRevision(PLANNING, COMMITTING)
  {
    assert COMMITTING.mailboxes[0] == MINE;
  }

  lemma FreeIsNew()
    ensures !NoNewcomer(PLANNING, COMMITTING, {8, 9}, 1)
  {
    var mb := COMMITTING.mailboxes[1];
    assert mb in COMMITTING.mailboxes && mb.id == 2 && Eligible(mb, MEMBERS, {8, 9}, NO_MEMBER);
    assert forall was | was in PLANNING.mailboxes && was.id == 2 :: was == FREE;
  }

  lemma PlannedAddress(c: Change, mc: MemberChange)
    requires c.id != 2 && mc.id != 9 && Eligible(Seen(MINE, c), MEMBERS, {8, 9}, mc)
    requires Seen(MINE, c).address == "a@x" && Seen(MINE, c).id == 1
    ensures Compute(PLANNING, {8, 9}, EVERYWHERE, c, mc) == Candidates(Canonical(["a@x"]), [Version(1, Seen(MINE, c).revision)])
  {
    hide Canonical;
    var mine := Seen(MINE, c);
    assert PLANNING.mailboxes == [MINE] + [FREE] + [];
    RowsAt([MINE], FREE, [], MEMBERS, {8, 9}, c, mc);
    assert Rows([MINE], MEMBERS, {8, 9}, c, mc) == [mine] by { assert [MINE][1..] == []; }
    assert Rows(PLANNING.mailboxes, MEMBERS, {8, 9}, c, mc) == [mine];
    assert Lower("a@x") == "a@x";
    assert Addresses([mine]) == ["a@x"] && Versions([mine]) == [Version(1, mine.revision)];
    BreakIn([mine], EVERYWHERE);
  }

  /** Mailbox 1 of member 9 is about to be updated; mailbox 2 on another connection
      has no owner. Member 9 completes the setup of that connection in between, and
      the plan is refused after its own commit. */
  lemma SetupSpoilsPlan()
    ensures Ordered(PLANNING.mailboxes) && CompleteSetup(PLANNING, 9, 2, 1) == Committed(COMMITTING)
    ensures CommitMutation(PLANNING, UPDATE).Committed? && CommitMutation(COMMITTING, UPDATE).Committed?
    ensures PlannedWith(PLANNING, STORED, Future(UPDATE), NO_MEMBER) && Guarded(PLANNING, COMMITTING, STORED.group)
    ensures !Accepted(CommitMutation(COMMITTING, UPDATE).tables, STORED)
  {
    hide Compute, CommitMutation, CompleteSetup, Guarded, NoNewcomer, SameAtRevision, Accepted, Canonical, Ordered;
    BothCommit();
    NothingPlannedMoved();
    FreeIsNew();
    PlannedAddress(Future(UPDATE), NO_MEMBER);
    assert !STORED.rules[0].delete;
    MutationPlanAccepted(PLANNING, COMMITTING, UPDATE, STORED);
  }

  const DISABLED := STORED.(mailboxes := [Version(1, 1)])

  /** The same when member 8 of the group is about to be disabled. */
  lemma SetupSpoilsStatusPlan()
    ensures CompleteSetup(PLANNING, 9, 2, 1) == Committed(COMMITTING) && CommitMemberStatus(COMMITTING, 8, true, Disabled).Committed?
    ensures PlannedWith(PLANNING, DISABLED, NO_CHANGE, MemberChange(8, Disabled))
    ensures !Accepted(CommitMemberStatus(COMMITTING, 8, true, Disabled).tables, DISABLED)
  {
    hide Compute, CommitMutation, CompleteSetup, SameAtRevision, SameCandidates, Accepted, Canonical, Ordered;
    var mc := MemberChange(8, Disabled);
    BothCommit();
    NothingPlannedMoved();
    PlannedAddress(NO_CHANGE, mc);
    assert !DISABLED.rules[0].delete;
    assert !SameCandidates(PLANNING, COMMITTING, {8, 9}, NO_CHANGE, mc) by { FreeCounts(mc); }
    MemberStatusPlanAccepted(PLANNING, COMMITTING, 8, Disabled, DISABLED);
  }

  lemma FreeCounts(mc: MemberChange)
    requires mc.id != 9
    ensures !SameCandidates(PLANNING, COMMITTING, {8, 9}, NO_CHANGE, mc)
  {
    var mb := COMMITTING.mailboxes[1];
    assert mb == Seen(mb, NO_CHANGE) && IsCandidate(COMMITTING, {8, 9}, NO_CHANGE, mc, mb);
    assert forall i | 0 <= i < 2 :: PLANNING.mailboxes[i] == Seen(PLANNING.mailboxes[i], NO_CHANGE) && PLANNING.mailboxes[i] != mb;
  }
}
