/** Routing plans: a plan stores the targets a group should have after a change
    that is not made yet. Once the change is made, the plan must be what the
    plain recomputation gives. */
module RoutingPlans {
  import opened Text
  import opened Routing

  datatype RulePlan = RulePlan(rule: Rule, targets: seq<string>, delete: bool)

  /** `checked` is false for address plans and group deletions. */
  datatype Plan = Plan(checked: bool, group: set<nat>, mailboxes: seq<Version>, rules: seq<RulePlan>)

  // ----- comparing candidate mailboxes ----------------------------------------

  predicate DistinctIds(vs: seq<Version>) {
    forall i, j | 0 <= i < j < |vs| :: vs[i].id != vs[j].id
  }

  function VersionSet(vs: seq<Version>): set<Version> {
    set v | v in vs
  }

  function Table(vs: seq<Version>): map<nat, nat> {
    if vs == [] then map[] else Table(vs[..|vs| - 1])[vs[|vs| - 1].id := vs[|vs| - 1].revision]
  }

  /** A missing key reads as 0. */
  function Lookup(m: map<nat, nat>, id: nat): nat {
    if id in m then m[id] else 0
  }

  /** The length-plus-lookup test. */
  predicate SameVersions(versions: seq<Version>, planned: seq<Version>) {
    |versions| == |planned| && forall i | 0 <= i < |versions| :: Lookup(Table(planned), versions[i].id) == versions[i].revision
  }

  lemma DistinctInit(vs: seq<Version>)
    requires DistinctIds(vs) && vs != []
    ensures DistinctIds(vs[..|vs| - 1]) && forall v | v in vs[..|vs| - 1] :: v.id != vs[|vs| - 1].id
  {
    var init := vs[..|vs| - 1];
    assert forall i | 0 <= i < |init| :: init[i] == vs[i];
  }

  lemma {:induction false} TableIs(vs: seq<Version>)
    requires DistinctIds(vs)
    ensures forall v :: v in vs <==> v.id in Table(vs) && Table(vs)[v.id] == v.revision
    decreases |vs|
  {
    hide DistinctIds;
    if vs != [] {
      var init, last := vs[..|vs| - 1], vs[|vs| - 1];
      DistinctInit(vs);
      TableIs(init);
      assert Table(vs) == Table(init)[last.id := last.revision];
      assert forall v :: v in vs <==> v in init || v == last by { assert vs == init + [last]; }
    }
  }

  lemma {:induction false} SetSize(vs: seq<Version>)
    requires DistinctIds(vs)
    ensures |VersionSet(vs)| == |vs|
    decreases |vs|
  {
    if vs == [] { assert VersionSet(vs) == {}; }
    else {
      var init, last := vs[..|vs| - 1], vs[|vs| - 1];
      SetSize(init);
      assert vs == init + [last];
      assert VersionSet(vs) == VersionSet(init) + {last};
      assert last !in init;
    }
  }

  lemma SameSize<T>(a: set<T>, b: set<T>)
    requires a <= b && |a| == |b|
    ensures a == b
  {
    assert |b - a| == |b| - |a|;
  }

  /** By pigeonhole, the test accepts exactly equal sets of mailbox versions. */
  lemma SameVersionsIsSetEquality(versions: seq<Version>, planned: seq<Version>)
    requires DistinctIds(versions) && DistinctIds(planned)
    requires forall v | v in versions :: v.revision > 0
    ensures SameVersions(versions, planned) <==> VersionSet(versions) == VersionSet(planned)
  {
    TableIs(planned);
    SetSize(versions);
    SetSize(planned);
    if SameVersions(versions, planned) {
      forall v | v in VersionSet(versions) ensures v in VersionSet(planned) {
        var i :| 0 <= i < |versions| && versions[i] == v;
        assert Lookup(Table(planned), versions[i].id) == versions[i].revision;
      }
      SameSize(VersionSet(versions), VersionSet(planned));
    }
    if VersionSet(versions) == VersionSet(planned) {
      forall i | 0 <= i < |versions| ensures Lookup(Table(planned), versions[i].id) == versions[i].revision {
        assert versions[i] in VersionSet(planned);
      }
    }
  }

  // ----- validation -----------------------------------------------------------

  /** What a plan promises about one rule. */
  predicate RuleAccepted(t: Tables, plan: Plan, r: RulePlan) {
    r.delete
    || (var now := Recompute(t, plan.group, r.rule);
        now.Candidates? && SameTargets(now.targets, r.targets) && SameVersions(now.versions, plan.mailboxes))
  }

  predicate Accepted(t: Tables, plan: Plan) {
    plan.checked ==> forall i | 0 <= i < |plan.rules| :: RuleAccepted(t, plan, plan.rules[i])
  }

  method ValidateGroupCandidates(t: Tables, plan: Plan) returns (ok: bool)
    ensures ok <==> Accepted(t, plan)
  {
    hide Recompute, SameTargets;
    if !plan.checked {
      return true;
    }
    for i := 0 to |plan.rules|
      invariant forall k | 0 <= k < i :: RuleAccepted(t, plan, plan.rules[k])
    {
      var r := plan.rules[i];
      if r.delete {
        continue;
      }
      var now := ComputeNow(t, plan.group, r.rule);
      if now.Constraint? || !SameTargets(now.targets, r.targets) || |now.versions| != |plan.mailboxes| {
        return false;
      }
      var expected: map<nat, nat> := map[];
      for k := 0 to |plan.mailboxes|
        invariant expected == Table(plan.mailboxes[..k])
      {
        assert plan.mailboxes[..k + 1][..k] == plan.mailboxes[..k];
        expected := expected[plan.mailboxes[k].id := plan.mailboxes[k].revision];
      }
      assert plan.mailboxes[..|plan.mailboxes|] == plan.mailboxes;
      for k := 0 to |now.versions|
        invariant forall n | 0 <= n < k :: Lookup(expected, now.versions[n].id) == now.versions[n].revision
      {
        if Lookup(expected, now.versions[k].id) != now.versions[k].revision {
          assert !SameVersions(now.versions, plan.mailboxes);
          return false;
        }
      }
    }
    ok := true;
  }

  method ComputeNow(t: Tables, group: set<nat>, rule: Rule) returns (r: Result)
    ensures r == Recompute(t, group, rule)
  {
    r := ComputeGroupCandidateTargets(t, group, rule, NO_CHANGE, NO_MEMBER);
  }

  /** Acceptance means: no candidate breaks the rule, the planned targets are a
      permutation of the candidates' addresses, and the planned mailboxes are
      exactly the candidates at their current revisions. */
  lemma AcceptedMeaning(t: Tables, plan: Plan, i: nat)
    requires plan.checked && Accepted(t, plan) && i < |plan.rules| && !plan.rules[i].delete
    requires Ordered(t.mailboxes) && DistinctIds(plan.mailboxes)
    ensures var now := Recompute(t, plan.group, plan.rules[i].rule);
            && now.Candidates? && multiset(plan.rules[i].targets) == multiset(now.targets)
            && VersionSet(plan.mailboxes) == VersionSet(now.versions)
  {
    hide Compute, SameTargets, SameVersions;
    assert RuleAccepted(t, plan, plan.rules[i]);
    var now := Recompute(t, plan.group, plan.rules[i].rule);
    SameTargetsIsPermutation(now.targets, plan.rules[i].targets);
    RowVersions(t, plan.group, plan.rules[i].rule, NO_CHANGE, NO_MEMBER);
    SameVersionsIsSetEquality(now.versions, plan.mailboxes);
  }

  lemma {:induction false} RowIds(ms: seq<Mailbox>, members: map<nat, MemberStatus>, group: set<nat>, c: Change, mc: MemberChange, mb: Mailbox)
    requires mb in Rows(ms, members, group, c, mc)
    ensures exists m :: m in ms && m.id == mb.id
    decreases |ms|
  {
    hide Eligible;
    if mb in Rows(ms[1..], members, group, c, mc) { RowIds(ms[1..], members, group, c, mc, mb); }
    else { assert ms[0].id == mb.id; }
  }

  lemma {:induction false} RowsOrdered(ms: seq<Mailbox>, members: map<nat, MemberStatus>, group: set<nat>, c: Change, mc: MemberChange)
    requires Ordered(ms) && (c.id != 0 ==> c.revision > 0)
    ensures Ordered(Rows(ms, members, group, c, mc))
    decreases |ms|
  {
    hide Eligible, Ordered;
    if ms == [] { NoneOrdered(); }
    else {
      var head, rest := Seen(ms[0], c), Rows(ms[1..], members, group, c, mc);
      TailOrdered(ms);
      RowsOrdered(ms[1..], members, group, c, mc);
      forall mb | mb in rest ensures head.id < mb.id { RowIds(ms[1..], members, group, c, mc, mb); }
      HeadOrdered(head, rest);
      assert [] + rest == rest;
    }
  }

  lemma NoneOrdered()
    ensures Ordered([])
  {}

  lemma HeadOrdered(head: Mailbox, rest: seq<Mailbox>)
    requires Ordered(rest) && head.id > 0 && head.revision > 0 && forall mb | mb in rest :: head.id < mb.id
    ensures Ordered([head] + rest)
  {
    assert forall i | 0 <= i < |rest| :: rest[i] in rest;
  }

  lemma TailOrdered(ms: seq<Mailbox>)
    requires Ordered(ms) && ms != []
    ensures Ordered(ms[1..]) && ms[0].id > 0 && ms[0].revision > 0 && forall mb | mb in ms[1..] :: ms[0].id < mb.id
  {
  }

  lemma RowVersions(t: Tables, group: set<nat>, rule: Rule, c: Change, mc: MemberChange)
    requires Ordered(t.mailboxes) && (c.id != 0 ==> c.revision > 0)
    ensures var r := Compute(t, group, rule, c, mc);
            r.Candidates? ==> DistinctIds(r.versions) && forall v | v in r.versions :: v.revision > 0
  {
    RowsOrdered(t.mailboxes, t.members, group, c, mc);
  }

  // ----- what-if equals after the fact ----------------------------------------

  /** The mutation's update, refused when the mailbox is no longer at the planned revision. */
  datatype Mutation = Mutation(id: nat, expected: nat, owner: nat, kind: Kind, status: MailboxStatus)

  function Future(m: Mutation): Change {
    Change(m.id, m.expected + 1, m.owner, m.kind, m.status)
  }

  function FindMailbox(ms: seq<Mailbox>, id: nat): (k: nat)
    ensures k <= |ms| && (k < |ms| ==> ms[k].id == id) && (k == |ms| ==> forall i | 0 <= i < |ms| :: ms[i].id != id)
  {
    if ms == [] then 0 else if ms[0].id == id then 0
    else
      var k := FindMailbox(ms[1..], id);
      assert forall i | 1 <= i < |ms| :: ms[i] == ms[1..][i - 1];
      k + 1
  }

  datatype Commit = Conflict | Committed(tables: Tables)

  /** `UPDATE mailboxes SET …,revision=revision+1 WHERE id=? AND revision=?`. */
  function CommitMutation(t: Tables, m: Mutation): Commit {
    var k := FindMailbox(t.mailboxes, m.id);
    if k == |t.mailboxes| || t.mailboxes[k].revision != m.expected then Conflict
    else
      var mb := t.mailboxes[k];
      Committed(t.(mailboxes := t.mailboxes[k := mb.(owner := m.owner, kind := m.kind, status := m.status, revision := mb.revision + 1)]))
  }

  lemma {:induction false} SameRows(a: seq<Mailbox>, b: seq<Mailbox>, members: map<nat, MemberStatus>, group: set<nat>, c: Change, d: Change, mc: MemberChange)
    requires |a| == |b| && forall i | 0 <= i < |a| :: Seen(a[i], c) == Seen(b[i], d)
    ensures Rows(a, members, group, c, mc) == Rows(b, members, group, d, mc)
    decreases |a|
  {
    if a != [] {
      assert forall i | 0 <= i < |a| - 1 :: a[1..][i] == a[i + 1] && b[1..][i] == b[i + 1];
      SameRows(a[1..], b[1..], members, group, c, d, mc);
    }
  }

  /** For every group and rule, what was computed with the mutation as a hypothesis
      is what the recomputation gives once it is committed, failures included. */
  lemma WhatIfMutation(t: Tables, m: Mutation, group: set<nat>, rule: Rule)
    requires Ordered(t.mailboxes) && CommitMutation(t, m).Committed?
    ensures Recompute(CommitMutation(t, m).tables, group, rule) == Compute(t, group, rule, Future(m), NO_MEMBER)
  {
    var after := CommitMutation(t, m).tables.mailboxes;
    var k := FindMailbox(t.mailboxes, m.id);
    forall i | 0 <= i < |after| ensures Seen(after[i], NO_CHANGE) == Seen(t.mailboxes[i], Future(m)) {
      if i != k { assert t.mailboxes[i].id != m.id; }
      assert after[i].id > 0;
    }
    SameRows(after, t.mailboxes, t.members, group, NO_CHANGE, Future(m), NO_MEMBER);
  }

  /** Groups of neither the old nor the new owner are not planned for, rightly. */
  lemma OtherGroupsKeepTargets(t: Tables, m: Mutation, group: set<nat>, rule: Rule)
    requires Ordered(t.mailboxes) && CommitMutation(t, m).Committed?
    requires m.owner !in group && t.mailboxes[FindMailbox(t.mailboxes, m.id)].owner !in group
    ensures Recompute(CommitMutation(t, m).tables, group, rule) == Recompute(t, group, rule)
  {
    var k := FindMailbox(t.mailboxes, m.id);
    var after := CommitMutation(t, m).tables.mailboxes;
    var before := t.mailboxes;
    assert before == before[..k] + [before[k]] + before[k + 1..];
    assert after == before[..k] + [after[k]] + before[k + 1..];
    assert before[k].id > 0 && after[k].id > 0;
    RowsAt(before[..k], before[k], before[k + 1..], t.members, group, NO_CHANGE, NO_MEMBER);
    RowsAt(before[..k], after[k], before[k + 1..], t.members, group, NO_CHANGE, NO_MEMBER);
  }

  lemma {:induction false} RowsAt(a: seq<Mailbox>, mb: Mailbox, b: seq<Mailbox>, members: map<nat, MemberStatus>, group: set<nat>, c: Change, mc: MemberChange)
    ensures Rows(a + [mb] + b, members, group, c, mc)
         == Rows(a, members, group, c, mc) + (if Eligible(Seen(mb, c), members, group, mc) then [Seen(mb, c)] else []) + Rows(b, members, group, c, mc)
    decreases |a|
  {
    if a == [] {
      assert a + [mb] + b == [mb] + b;
    } else {
      assert (a + [mb] + b)[1..] == a[1..] + [mb] + b;
      RowsAt(a[1..], mb, b, members, group, c, mc);
    }
  }

  /** A member's new status, refused at another revision or after departure. */
  function CommitMemberStatus(t: Tables, id: nat, current: bool, status: MemberStatus): Commit {
    if id !in t.members || t.members[id] == Departed || !current then Conflict
    else Committed(t.(members := t.members[id := status]))
  }

  lemma WhatIfMemberStatus(t: Tables, id: nat, status: MemberStatus, group: set<nat>, rule: Rule)
    requires id > 0 && 0 !in t.members && CommitMemberStatus(t, id, true, status).Committed?
    ensures Recompute(CommitMemberStatus(t, id, true, status).tables, group, rule)
         == Compute(t, group, rule, NO_CHANGE, MemberChange(id, status))
  {
    MemberRows(t.mailboxes, t.members, id, status, group);
  }

  lemma {:induction false} MemberRows(ms: seq<Mailbox>, members: map<nat, MemberStatus>, id: nat, status: MemberStatus, group: set<nat>)
    requires id in members && id > 0 && 0 !in members
    ensures Rows(ms, members[id := status], group, NO_CHANGE, NO_MEMBER) == Rows(ms, members, group, NO_CHANGE, MemberChange(id, status))
    decreases |ms|
  {
    if ms != [] { MemberRows(ms[1..], members, id, status, group); }
  }

  // ----- incremental equals full ----------------------------------------------

  /** One more candidate: the recomputation is the old result with the lower-cased
      address added and sorted in, and fails exactly when the new one breaks the rule
      or the old one failed. */
  lemma OneMoreRow(a: seq<Mailbox>, mb: Mailbox, b: seq<Mailbox>, rule: Rule)
    ensures var was, now := Targets(a + b, rule), Targets(a + [mb] + b, rule);
            && (now.Candidates? <==> was.Candidates? && !Breaks(rule, mb))
            && (now.Candidates? ==>
                  && now.targets == Canonical(was.targets + [Lower(mb.address)])
                  && VersionSet(now.versions) == VersionSet(was.versions) + {Version(mb.id, mb.revision)})
  {
    hide Canonical, Addresses, Versions;
    var was, now := Targets(a + b, rule), Targets(a + [mb] + b, rule);
    OneMoreIn(a, mb, b);
    BreakIn(a + b, rule);
    BreakIn(a + [mb] + b, rule);
    if now.Candidates? {
      OneMoreTarget(a, mb, b);
      OneMoreVersion(a, mb, b);
    }
  }

  lemma OneMoreIn(a: seq<Mailbox>, mb: Mailbox, b: seq<Mailbox>)
    ensures forall x :: x in a + [mb] + b <==> x in a + b || x == mb
  {
    forall x ensures x in a + [mb] + b <==> x in a + b || x == mb {
      assert x in a + b <==> x in a || x in b;
      assert x in a + [mb] <==> x in a || x == mb;
    }
  }

  lemma OneMoreTarget(a: seq<Mailbox>, mb: Mailbox, b: seq<Mailbox>)
    ensures Canonical(Addresses(a + [mb] + b)) == Canonical(Canonical(Addresses(a + b)) + [Lower(mb.address)])
  {
    hide Canonical, Addresses;
    var x, was, all := Lower(mb.address), Addresses(a + b), Addresses(a + [mb] + b);
    OneMoreIn(a, mb, b);
    AddressesIn(a + b);
    AddressesIn(a + [mb] + b);
    forall y ensures y in all <==> y in was || y == x {
      if y in was {
        var m :| m in a + b && Lower(m.address) == y;
        assert m in a + [mb] + b;
      }
      assert mb in a + [mb] + b;
    }
    CanonicalShape(was);
    CanonicalShape(all);
    AddToCanonical(Canonical(was), x);
    assert Elements(all) == Elements(was) + {x};
    StrictUnique(Canonical(all), Canonical(Canonical(was) + [x]));
  }

  lemma OneMoreVersion(a: seq<Mailbox>, mb: Mailbox, b: seq<Mailbox>)
    ensures VersionSet(Versions(a + [mb] + b)) == VersionSet(Versions(a + b)) + {Version(mb.id, mb.revision)}
  {
    hide Versions;
    var was, all := Versions(a + b), Versions(a + [mb] + b);
    OneMoreIn(a, mb, b);
    VersionsIn(a + b);
    VersionsIn(a + [mb] + b);
    forall v ensures v in all <==> v in was || v == Version(mb.id, mb.revision) {
      if v in was {
        var m :| m in a + b && v == Version(m.id, m.revision);
        assert m in a + [mb] + b;
      }
      assert mb in a + [mb] + b;
    }
  }

  /** Adding a mailbox for a member of the group: the plan's append, sort and
      deduplicate gives what the recomputation gives once the mailbox exists. */
  lemma AdditionIsIncremental(before: seq<Mailbox>, mb: Mailbox, rest: seq<Mailbox>, members: map<nat, MemberStatus>, group: set<nat>, rule: Rule)
    requires mb.id > 0 && Eligible(mb, members, group, NO_MEMBER)
    ensures var was, now := Recompute(Tables(before + rest, members), group, rule), Recompute(Tables(before + [mb] + rest, members), group, rule);
            && (now.Candidates? <==> was.Candidates? && !Breaks(rule, mb))
            && (now.Candidates? ==>
                  && now.targets == Canonical(was.targets + [Lower(mb.address)])
                  && VersionSet(now.versions) == VersionSet(was.versions) + {Version(mb.id, mb.revision)})
  {
    hide Targets, Canonical;
    RowsAt(before, mb, rest, members, group, NO_CHANGE, NO_MEMBER);
    RowsSplit(before, rest, members, group, NO_CHANGE, NO_MEMBER);
    OneMoreRow(Rows(before, members, group, NO_CHANGE, NO_MEMBER), mb, Rows(rest, members, group, NO_CHANGE, NO_MEMBER), rule);
  }

  lemma {:induction false} RowsSplit(a: seq<Mailbox>, b: seq<Mailbox>, members: map<nat, MemberStatus>, group: set<nat>, c: Change, mc: MemberChange)
    ensures Rows(a + b, members, group, c, mc) == Rows(a, members, group, c, mc) + Rows(b, members, group, c, mc)
    decreases |a|
  {
    if a == [] { assert a + b == b; }
    else {
      assert (a + b)[1..] == a[1..] + b;
      RowsSplit(a[1..], b, members, group, c, mc);
    }
  }

  /** The plan for after the addition: each rule's targets with the address sorted in. */
  function Desired(plan: Plan, address: string): Plan {
    plan.(rules := seq(|plan.rules|, i requires 0 <= i < |plan.rules| => plan.rules[i].(targets := Canonical(plan.rules[i].targets + [Lower(address)]))))
  }

  /** The progress check adds the mailbox once it exists. */
  function WithMailbox(plan: Plan, mb: Mailbox): Plan {
    plan.(mailboxes := plan.mailboxes + [Version(mb.id, mb.revision)])
  }

  /** Refused as soon as one rule does not take the new mailbox. */
  method PlanAddition(before: Plan, mb: Mailbox) returns (ok: bool, desired: Plan)
    ensures ok <==> forall i | 0 <= i < |before.rules| :: !Breaks(before.rules[i].rule, mb)
    ensures ok ==> desired == Desired(before, mb.address)
  {
    desired := before;
    for i := 0 to |before.rules|
      invariant desired == before.(rules := desired.rules) && |desired.rules| == |before.rules|
      invariant forall k | 0 <= k < i :: !Breaks(before.rules[k].rule, mb) && desired.rules[k] == Desired(before, mb.address).rules[k]
      invariant forall k | i <= k < |before.rules| :: desired.rules[k] == before.rules[k]
    {
      var rule := desired.rules[i];
      if Breaks(rule.rule, mb) {
        return false, desired;
      }
      desired := desired.(rules := desired.rules[i := rule.(targets := Canonical(rule.targets + [Lower(mb.address)]))]);
    }
    ok := true;
  }

  /** A plan that was accepted before the mailbox existed turns into one that is
      accepted afterwards: address sorted in, mailbox appended. */
  lemma AdditionPlanAccepted(before: seq<Mailbox>, mb: Mailbox, rest: seq<Mailbox>, members: map<nat, MemberStatus>, plan: Plan)
    requires Ordered(before + [mb] + rest) && Ordered(before + rest) && Eligible(mb, members, plan.group, NO_MEMBER)
    requires plan.checked && DistinctIds(plan.mailboxes) && Accepted(Tables(before + rest, members), plan)
    requires forall i | 0 <= i < |plan.rules| :: !Breaks(plan.rules[i].rule, mb)
    ensures Accepted(Tables(before + [mb] + rest, members), WithMailbox(Desired(plan, mb.address), mb))
  {
    hide Compute, Recompute, SameTargets, SameVersions, Canonical, Accepted, Lower;
    var after := WithMailbox(Desired(plan, mb.address), mb);
    assert mb == (before + [mb] + rest)[|before|];
    forall i | 0 <= i < |after.rules| ensures RuleAccepted(Tables(before + [mb] + rest, members), after, after.rules[i]) {
      if !plan.rules[i].delete {
        AcceptedMeaning(Tables(before + rest, members), plan, i);
        AdditionRuleAccepted(before, mb, rest, members, plan, i);
      }
    }
    EachAccepted(Tables(before + [mb] + rest, members), after);
  }

  lemma EachAccepted(t: Tables, plan: Plan)
    requires forall i | 0 <= i < |plan.rules| :: RuleAccepted(t, plan, plan.rules[i])
    ensures Accepted(t, plan)
  {}

  lemma AdditionRuleAccepted(before: seq<Mailbox>, mb: Mailbox, rest: seq<Mailbox>, members: map<nat, MemberStatus>, plan: Plan, i: nat)
    requires Ordered(before + [mb] + rest) && Ordered(before + rest) && mb.id > 0 && mb.revision > 0 && Eligible(mb, members, plan.group, NO_MEMBER)
    requires i < |plan.rules| && !Breaks(plan.rules[i].rule, mb) && DistinctIds(plan.mailboxes)
    requires var was := Recompute(Tables(before + rest, members), plan.group, plan.rules[i].rule);
             was.Candidates? && multiset(plan.rules[i].targets) == multiset(was.targets) && VersionSet(plan.mailboxes) == VersionSet(was.versions)
    ensures var after := WithMailbox(Desired(plan, mb.address), mb);
            RuleAccepted(Tables(before + [mb] + rest, members), after, after.rules[i])
  {
    hide Compute, Canonical, Lower, SameTargets, SameVersions, Rows, Targets, Addresses, Versions;
    var rule, x, v := plan.rules[i].rule, Lower(mb.address), Version(mb.id, mb.revision);
    var was := Recompute(Tables(before + rest, members), plan.group, rule);
    var now := Recompute(Tables(before + [mb] + rest, members), plan.group, rule);
    AdditionIsIncremental(before, mb, rest, members, plan.group, rule);
    assert now.targets == Canonical(plan.rules[i].targets + [x]) by { SameWithOne(was.targets, plan.rules[i].targets, x); }
    SameTargetsIsPermutation(now.targets, now.targets);
    RowVersions(Tables(before + rest, members), plan.group, rule, NO_CHANGE, NO_MEMBER);
    RowVersions(Tables(before + [mb] + rest, members), plan.group, rule, NO_CHANGE, NO_MEMBER);
    NewVersion(before, mb, rest, members, plan, rule);
    SameVersionsIsSetEquality(now.versions, plan.mailboxes + [v]);
  }

  lemma SameWithOne(a: seq<string>, b: seq<string>, x: string)
    requires multiset(a) == multiset(b)
    ensures Canonical(a + [x]) == Canonical(b + [x])
  {
    hide Canonical;
    forall y ensures y in a + [x] <==> y in b + [x] {
      assert y in a <==> y in multiset(a);
      assert y in b <==> y in multiset(b);
    }
    CanonicalOfSet(a + [x], b + [x]);
  }

  /** The new mailbox's id is not among the planned ones. */
  lemma NewVersion(before: seq<Mailbox>, mb: Mailbox, rest: seq<Mailbox>, members: map<nat, MemberStatus>, plan: Plan, rule: Rule)
    requires Ordered(before + [mb] + rest) && DistinctIds(plan.mailboxes)
    requires var was := Recompute(Tables(before + rest, members), plan.group, rule);
             was.Candidates? && VersionSet(plan.mailboxes) == VersionSet(was.versions)
    ensures DistinctIds(plan.mailboxes + [Version(mb.id, mb.revision)])
    ensures VersionSet(plan.mailboxes + [Version(mb.id, mb.revision)]) == VersionSet(plan.mailboxes) + {Version(mb.id, mb.revision)}
  {
    hide Rows, Canonical, Addresses, Versions, Ordered;
    var rows := Rows(before + rest, members, plan.group, NO_CHANGE, NO_MEMBER);
    VersionsIn(rows);
    forall k | 0 <= k < |plan.mailboxes| ensures plan.mailboxes[k].id != mb.id {
      assert plan.mailboxes[k] in VersionSet(Versions(rows));
      var m :| m in rows && plan.mailboxes[k] == Version(m.id, m.revision);
      RowsFrom(before + rest, members, plan.group, m);
      OtherId(before, mb, rest, m.id);
    }
  }

  lemma OtherId(before: seq<Mailbox>, mb: Mailbox, rest: seq<Mailbox>, id: nat)
    requires Ordered(before + [mb] + rest)
    requires exists i :: 0 <= i < |before + rest| && (before + rest)[i].id == id
    ensures id != mb.id
  {
    var all := before + [mb] + rest;
    var j :| 0 <= j < |before + rest| && (before + rest)[j].id == id;
    assert (before + rest)[j] == all[if j < |before| then j else j + 1];
    assert all[|before|] == mb;
  }

  lemma {:induction false} RowsFrom(ms: seq<Mailbox>, members: map<nat, MemberStatus>, group: set<nat>, mb: Mailbox)
    requires mb in Rows(ms, members, group, NO_CHANGE, NO_MEMBER)
    ensures exists i :: 0 <= i < |ms| && ms[i].id == mb.id
    decreases |ms|
  {
    if mb in Rows(ms[1..], members, group, NO_CHANGE, NO_MEMBER) {
      RowsFrom(ms[1..], members, group, mb);
      var i :| 0 <= i < |ms[1..]| && ms[1..][i].id == mb.id;
      assert ms[i + 1].id == mb.id;
    } else {
      assert ms[0].id == mb.id;
    }
  }

  /** A new member joins the group and owns nothing yet: nothing changes. */
  lemma {:induction false} NewMemberRows(ms: seq<Mailbox>, members: map<nat, MemberStatus>, id: nat, group: set<nat>)
    requires id !in members && forall i | 0 <= i < |ms| :: ms[i].owner != id && ms[i].id > 0
    ensures Rows(ms, members[id := Invited], group + {id}, NO_CHANGE, NO_MEMBER) == Rows(ms, members, group, NO_CHANGE, NO_MEMBER)
    decreases |ms|
  {
    if ms != [] {
      assert forall i | 0 <= i < |ms| - 1 :: ms[1..][i] == ms[i + 1];
      NewMemberRows(ms[1..], members, id, group);
    }
  }

  /** What a member creation does to the mailboxes. */
  datatype MailboxAction = NoMailbox | Bind(id: nat, expected: nat) | Obtain(mailbox: Mailbox, position: nat)

  /** The address a creation plans for, empty without a mailbox. */
  function PlannedAddress(t: Tables, action: MailboxAction): string {
    match action
    case NoMailbox => ""
    case Bind(id, _) => var k := FindMailbox(t.mailboxes, id); if k < |t.mailboxes| then t.mailboxes[k].address else ""
    case Obtain(mb, _) => mb.address
  }

  /** The tables after the member exists and the mailbox action is done: bind takes
      an active personal mailbox without owner; create and attach add one. */
  function AfterCreation(t: Tables, member: nat, action: MailboxAction): Commit {
    var joined := t.(members := t.members[member := Invited]);
    match action
    case NoMailbox => Committed(joined)
    case Bind(id, expected) =>
      var k := FindMailbox(t.mailboxes, id);
      if k == |t.mailboxes| || t.mailboxes[k].owner != 0 || t.mailboxes[k].kind != Personal || t.mailboxes[k].status != Active
      then Conflict
      else CommitMutation(joined, Mutation(id, expected, member, Personal, Active))
    case Obtain(mb, position) =>
      if mb.owner != member || mb.kind != Personal || mb.status != Active || mb.id == 0 || position > |t.mailboxes| then Conflict
      else Committed(joined.(mailboxes := t.mailboxes[..position] + [mb] + t.mailboxes[position..]))
  }

  /** The plan of a member creation: the group's targets before, and the new
      address sorted in when there is one. */
  function CreationTargets(was: seq<string>, address: string): seq<string> {
    if address == "" then was else Canonical(was + [Lower(address)])
  }

  /** `now` is `was` with one address sorted in, unless the new mailbox does not fit. */
  predicate Incremental(was: Result, now: Result, fits: bool, address: string, added: set<Version>) {
    && (now.Candidates? <==> was.Candidates? && fits)
    && (now.Candidates? ==> now.targets == CreationTargets(was.targets, address) && VersionSet(now.versions) == VersionSet(was.versions) + added)
  }

  /** The mailbox a creation brings, as a version; none without one. */
  function AddedVersion(t: Tables, member: nat, action: MailboxAction): set<Version>
    requires AfterCreation(t, member, action).Committed?
  {
    if action.NoMailbox? then {} else {Version(NewMailbox(t, member, action).id, NewMailbox(t, member, action).revision)}
  }

  lemma BindIsIncremental(t: Tables, member: nat, id: nat, expected: nat, group: set<nat>, rule: Rule)
    requires Ordered(t.mailboxes) && member > 0 && member !in t.members && 0 !in t.members
    requires forall i | 0 <= i < |t.mailboxes| :: t.mailboxes[i].owner != member && t.mailboxes[i].address != ""
    requires AfterCreation(t, member, Bind(id, expected)).Committed?
    ensures var mb := NewMailbox(t, member, Bind(id, expected));
            Incremental(Recompute(t, group, rule), Recompute(AfterCreation(t, member, Bind(id, expected)).tables, group + {member}, rule),
                        !Breaks(rule, mb), mb.address, {Version(mb.id, mb.revision)})
  {
    hide Canonical, Targets;
    var members, wider := t.members[member := Invited], group + {member};
    var k := FindMailbox(t.mailboxes, id);
    var before, prior, rest := t.mailboxes[..k], t.mailboxes[k], t.mailboxes[k + 1..];
    var mb := NewMailbox(t, member, Bind(id, expected));
    assert t.mailboxes == before + [prior] + rest;
    assert AfterCreation(t, member, Bind(id, expected)).tables.mailboxes == before + [mb] + rest;
    NewMemberRows(t.mailboxes, t.members, member, group);
    RowsAt(before, prior, rest, members, wider, NO_CHANGE, NO_MEMBER);
    RowsAt(before, mb, rest, members, wider, NO_CHANGE, NO_MEMBER);
    var x, y := Rows(before, members, wider, NO_CHANGE, NO_MEMBER), Rows(rest, members, wider, NO_CHANGE, NO_MEMBER);
    assert x + [] + y == x + y;
    OneMoreRow(x, mb, y, rule);
  }

  lemma ObtainIsIncremental(t: Tables, member: nat, mb: Mailbox, position: nat, group: set<nat>, rule: Rule)
    requires Ordered(t.mailboxes) && member > 0 && member !in t.members && mb.address != ""
    requires forall i | 0 <= i < |t.mailboxes| :: t.mailboxes[i].owner != member
    requires AfterCreation(t, member, Obtain(mb, position)).Committed?
    ensures Incremental(Recompute(t, group, rule), Recompute(AfterCreation(t, member, Obtain(mb, position)).tables, group + {member}, rule),
                        !Breaks(rule, mb), mb.address, {Version(mb.id, mb.revision)})
  {
    hide Canonical, Targets;
    var members, wider := t.members[member := Invited], group + {member};
    var before, rest := t.mailboxes[..position], t.mailboxes[position..];
    NewMemberRows(t.mailboxes, t.members, member, group);
    assert t.mailboxes == before + rest;
    AdditionIsIncremental(before, mb, rest, members, wider, rule);
  }

  /** For none, bind, create and attach alike, the planned targets are those of
      the recomputation once the member and the mailbox exist, unless the new
      mailbox breaks the rule, which planning refuses. */
  lemma CreationIsIncremental(t: Tables, member: nat, action: MailboxAction, group: set<nat>, rule: Rule)
    requires Ordered(t.mailboxes) && member > 0 && member !in t.members && 0 !in t.members
    requires forall i | 0 <= i < |t.mailboxes| :: t.mailboxes[i].owner != member && t.mailboxes[i].address != ""
    requires action.Obtain? ==> action.mailbox.address != ""
    requires AfterCreation(t, member, action).Committed?
    ensures Incremental(Recompute(t, group, rule), Recompute(AfterCreation(t, member, action).tables, group + {member}, rule),
                        action.NoMailbox? || !Breaks(rule, NewMailbox(t, member, action)), PlannedAddress(t, action), AddedVersion(t, member, action))
  {
    hide Incremental;
    match action
    case NoMailbox => JoinIsIncremental(t, member, group, rule);
    case Bind(id, expected) => BindIsIncremental(t, member, id, expected, group, rule);
    case Obtain(mb, position) => ObtainIsIncremental(t, member, mb, position, group, rule);
  }

  lemma JoinIsIncremental(t: Tables, member: nat, group: set<nat>, rule: Rule)
    requires Ordered(t.mailboxes) && member !in t.members
    requires forall i | 0 <= i < |t.mailboxes| :: t.mailboxes[i].owner != member
    ensures Incremental(Recompute(t, group, rule), Recompute(AfterCreation(t, member, NoMailbox).tables, group + {member}, rule), true, "", {})
  {
    hide Canonical, Targets;
    NewMemberRows(t.mailboxes, t.members, member, group);
  }

  /** The mailbox as the member's creation leaves it. */
  function NewMailbox(t: Tables, member: nat, action: MailboxAction): Mailbox
    requires !action.NoMailbox? && AfterCreation(t, member, action).Committed?
  {
    match action
    case Bind(id, expected) =>
      var mb := t.mailboxes[FindMailbox(t.mailboxes, id)];
      mb.(owner := member, revision := mb.revision + 1)
    case Obtain(mb, _) => mb
  }

  /** The plan of a creation, for the group with the new member; the progress check
      appends the mailbox once it exists. */
  function CreationPlan(t: Tables, member: nat, action: MailboxAction, plan: Plan): Plan
    requires AfterCreation(t, member, action).Committed?
  {
    var address := PlannedAddress(t, action);
    plan.(group := plan.group + {member},
          rules := seq(|plan.rules|, i requires 0 <= i < |plan.rules| =>
            plan.rules[i].(targets := CreationTargets(plan.rules[i].targets, address))),
          mailboxes := if action.NoMailbox? then plan.mailboxes
                       else plan.mailboxes + [Version(NewMailbox(t, member, action).id, NewMailbox(t, member, action).revision)])
  }

  /** A plan that was accepted before the creation turns into one that is accepted
      after it, unless the new mailbox breaks a rule. */
  lemma CreationPlanAccepted(t: Tables, member: nat, action: MailboxAction, plan: Plan)
    requires Ordered(t.mailboxes) && member > 0 && member !in t.members && 0 !in t.members
    requires forall i | 0 <= i < |t.mailboxes| :: t.mailboxes[i].owner != member && t.mailboxes[i].address != ""
    requires action.Obtain? ==> action.mailbox.address != ""
    requires AfterCreation(t, member, action).Committed? && Ordered(AfterCreation(t, member, action).tables.mailboxes)
    requires plan.checked && DistinctIds(plan.mailboxes) && Accepted(t, plan)
    requires forall i | 0 <= i < |plan.rules| :: action.NoMailbox? || !Breaks(plan.rules[i].rule, NewMailbox(t, member, action))
    ensures Accepted(AfterCreation(t, member, action).tables, CreationPlan(t, member, action, plan))
  {
    hide Recompute, SameTargets, SameVersions, Canonical, Accepted, Breaks, Ordered, DistinctIds, PlannedAddress;
    var after := AfterCreation(t, member, action).tables;
    var next := CreationPlan(t, member, action, plan);
    forall i | 0 <= i < |next.rules| ensures RuleAccepted(after, next, next.rules[i]) {
      if !plan.rules[i].delete {
        AcceptedMeaning(t, plan, i);
        CreationRuleAccepted(t, member, action, plan, i);
      }
    }
    EachAccepted(after, next);
  }

  lemma CreationRuleAccepted(t: Tables, member: nat, action: MailboxAction, plan: Plan, i: nat)
    requires Ordered(t.mailboxes) && member > 0 && member !in t.members && 0 !in t.members
    requires forall k | 0 <= k < |t.mailboxes| :: t.mailboxes[k].owner != member && t.mailboxes[k].address != ""
    requires action.Obtain? ==> action.mailbox.address != ""
    requires AfterCreation(t, member, action).Committed? && Ordered(AfterCreation(t, member, action).tables.mailboxes)
    requires i < |plan.rules| && DistinctIds(plan.mailboxes)
    requires action.NoMailbox? || !Breaks(plan.rules[i].rule, NewMailbox(t, member, action))
    requires var was := Recompute(t, plan.group, plan.rules[i].rule);
             was.Candidates? && multiset(plan.rules[i].targets) == multiset(was.targets) && VersionSet(plan.mailboxes) == VersionSet(was.versions)
    ensures var next := CreationPlan(t, member, action, plan);
            RuleAccepted(AfterCreation(t, member, action).tables, next, next.rules[i])
  {
    hide Compute, SameTargets, SameVersions, Canonical, Breaks, Ordered, DistinctIds, PlannedAddress;
    var rule := plan.rules[i].rule;
    var next := CreationPlan(t, member, action, plan);
    var after := AfterCreation(t, member, action).tables;
    var was, now := Recompute(t, plan.group, rule), Recompute(after, plan.group + {member}, rule);
    CreationIsIncremental(t, member, action, plan.group, rule);
    SameTargetsIsPermutation(now.targets, next.rules[i].targets);
    CreationTargetsSame(was.targets, plan.rules[i].targets, PlannedAddress(t, action));
    RowVersions(after, plan.group + {member}, rule, NO_CHANGE, NO_MEMBER);
    if action.NoMailbox? {
      assert VersionSet(now.versions) == VersionSet(next.mailboxes);
    } else {
      NewIsNew(t, member, action, plan.group, rule);
      var v := Version(NewMailbox(t, member, action).id, NewMailbox(t, member, action).revision);
      OneMorePlanned(plan.mailboxes, v, was.versions, now.versions);
    }
    SameVersionsIsSetEquality(now.versions, next.mailboxes);
  }

  lemma CreationTargetsSame(was: seq<string>, planned: seq<string>, address: string)
    requires multiset(planned) == multiset(was)
    ensures multiset(CreationTargets(was, address)) == multiset(CreationTargets(planned, address))
  {
    hide Canonical;
    if address != "" { SameWithOne(was, planned, Lower(address)); }
  }

  /** The new mailbox was no candidate at that revision before. */
  lemma NewIsNew(t: Tables, member: nat, action: MailboxAction, group: set<nat>, rule: Rule)
    requires Ordered(t.mailboxes) && 0 !in t.members && !action.NoMailbox?
    requires AfterCreation(t, member, action).Committed? && Ordered(AfterCreation(t, member, action).tables.mailboxes)
    requires Recompute(t, group, rule).Candidates?
    ensures var mb := NewMailbox(t, member, action); Version(mb.id, mb.revision) !in Recompute(t, group, rule).versions
  {
    hide Rows, Canonical, Addresses, Versions;
    var mb := NewMailbox(t, member, action);
    var rows := Rows(t.mailboxes, t.members, group, NO_CHANGE, NO_MEMBER);
    VersionsIn(rows);
    forall x | x in rows ensures Version(x.id, x.revision) != Version(mb.id, mb.revision) {
      RowsAre(t, group, NO_CHANGE, NO_MEMBER);
      var i :| 0 <= i < |t.mailboxes| && x == Seen(t.mailboxes[i], NO_CHANGE) && Eligible(x, t.members, group, NO_MEMBER);
      NewIsNotRow(t, member, action, i);
    }
  }

  lemma NewIsNotRow(t: Tables, member: nat, action: MailboxAction, i: nat)
    requires Ordered(t.mailboxes) && !action.NoMailbox? && i < |t.mailboxes|
    requires AfterCreation(t, member, action).Committed? && Ordered(AfterCreation(t, member, action).tables.mailboxes)
    ensures var mb := NewMailbox(t, member, action);
            t.mailboxes[i].id > 0 && (t.mailboxes[i].id != mb.id || t.mailboxes[i].revision != mb.revision)
  {
    match action
    case Bind(id, _) =>
      var k := FindMailbox(t.mailboxes, id);
      assert t.mailboxes[i].id == t.mailboxes[k].id ==> i == k;
    case Obtain(mb, position) =>
      var all := AfterCreation(t, member, action).tables.mailboxes;
      assert all[position] == mb;
      assert t.mailboxes[i] == all[if i < position then i else i + 1];
  }

  lemma OneMorePlanned(planned: seq<Version>, v: Version, was: seq<Version>, now: seq<Version>)
    requires DistinctIds(planned) && DistinctIds(now) && VersionSet(planned) == VersionSet(was) && VersionSet(now) == VersionSet(was) + {v}
    requires v !in was
    ensures DistinctIds(planned + [v]) && VersionSet(planned + [v]) == VersionSet(now)
  {
    forall k | 0 <= k < |planned| ensures planned[k].id != v.id {
      assert planned[k] in VersionSet(was) && planned[k] in VersionSet(now) && v in VersionSet(now);
      var a :| 0 <= a < |now| && now[a] == planned[k];
      var b :| 0 <= b < |now| && now[b] == v;
    }
  }
}
