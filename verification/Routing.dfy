/** Group routing: which mailboxes receive a group's mail, computed from the
    member and mailbox tables, possibly with one hypothetical change. */
module Routing {
  import opened Text

  datatype Kind = Personal | Shared
  datatype MailboxStatus = Active | Suspended | Archived
  datatype MemberStatus = MemberActive | Invited | Disabled | Departed

  /** `owner` is 0 for none; ids and revisions start at 1. */
  datatype Mailbox = Mailbox(
    id: nat, connection: nat, address: string, kind: Kind, status: MailboxStatus, owner: nat, revision: nat)

  datatype Tables = Tables(mailboxes: seq<Mailbox>, members: map<nat, MemberStatus>)

  /** Mailboxes come out of the database ordered by id. */
  predicate Ordered(mailboxes: seq<Mailbox>) {
    && (forall i | 0 <= i < |mailboxes| :: mailboxes[i].id > 0 && mailboxes[i].revision > 0)
    && (forall i, j | 0 <= i < j < |mailboxes| :: mailboxes[i].id < mailboxes[j].id)
  }

  /** What-if values for one mailbox or one member; id 0 changes nothing. */
  datatype Change = Change(id: nat, revision: nat, owner: nat, kind: Kind, status: MailboxStatus)
  datatype MemberChange = MemberChange(id: nat, status: MemberStatus)

  const NO_CHANGE := Change(0, 0, 0, Personal, Active)
  const NO_MEMBER := MemberChange(0, MemberActive)

  function Seen(mb: Mailbox, c: Change): Mailbox {
    if mb.id == c.id then mb.(revision := c.revision, owner := c.owner, kind := c.kind, status := c.status) else mb
  }

  predicate Eligible(mb: Mailbox, members: map<nat, MemberStatus>, group: set<nat>, mc: MemberChange) {
    && mb.kind == Personal && mb.status == Active
    && mb.owner in members && mb.owner in group
    && (if mb.owner == mc.id then mc.status else members[mb.owner]) in {MemberActive, Invited}
  }

  /** The candidate query. */
  function Rows(mailboxes: seq<Mailbox>, members: map<nat, MemberStatus>, group: set<nat>, c: Change, mc: MemberChange): seq<Mailbox> {
    if mailboxes == [] then []
    else
      var mb := Seen(mailboxes[0], c);
      (if Eligible(mb, members, group, mc) then [mb] else []) + Rows(mailboxes[1..], members, group, c, mc)
  }

  /** The rule whose targets are computed; some providers demand that all targets
      are on the rule's own connection and domain. */
  datatype Rule = Rule(connection: nat, domain: string, sameDomainOnly: bool)

  /** The part after the last at sign, empty without one. */
  function DomainOf(address: string): string {
    if address == "" then ""
    else if address[|address| - 1] == '@' then ""
    else if '@' in address then DomainOf(address[..|address| - 1]) + [address[|address| - 1]]
    else ""
  }

  predicate Breaks(rule: Rule, mb: Mailbox) {
    rule.sameDomainOnly && (mb.connection != rule.connection || DomainOf(mb.address) != rule.domain)
  }

  datatype Version = Version(id: nat, revision: nat)

  datatype Result =
    | Constraint(member: nat, mailbox: nat)
    | Candidates(targets: seq<string>, versions: seq<Version>)

  function Addresses(rows: seq<Mailbox>): seq<string> {
    seq(|rows|, i requires 0 <= i < |rows| => Lower(rows[i].address))
  }

  function Versions(rows: seq<Mailbox>): seq<Version> {
    seq(|rows|, i requires 0 <= i < |rows| => Version(rows[i].id, rows[i].revision))
  }

  /** The first row that breaks the rule, in id order. */
  function FirstBreak(rows: seq<Mailbox>, rule: Rule): (k: nat)
    ensures k <= |rows|
    ensures k < |rows| ==> Breaks(rule, rows[k])
    ensures forall i | 0 <= i < k :: !Breaks(rule, rows[i])
  {
    if rows == [] then 0
    else if Breaks(rule, rows[0]) then 0
    else
      var k := FirstBreak(rows[1..], rule);
      assert forall i | 1 <= i < k + 1 :: rows[i] == rows[1..][i - 1];
      k + 1
  }

  function Targets(rows: seq<Mailbox>, rule: Rule): Result {
    var k := FirstBreak(rows, rule);
    if k < |rows| then Constraint(rows[k].owner, rows[k].id)
    else Candidates(Canonical(Addresses(rows)), Versions(rows))
  }

  /** `computeGroupCandidateTargets`. */
  function Compute(t: Tables, group: set<nat>, rule: Rule, c: Change, mc: MemberChange): Result {
    Targets(Rows(t.mailboxes, t.members, group, c, mc), rule)
  }

  /** The plain recomputation, with no hypothesis. */
  function Recompute(t: Tables, group: set<nat>, rule: Rule): Result {
    Compute(t, group, rule, NO_CHANGE, NO_MEMBER)
  }

  // ----- the loop -------------------------------------------------------------

  /** The keys of a set in whatever order, then sorted. */
  method SortedKeys(s: set<string>) returns (r: seq<string>)
    ensures StrictlyAscending(r) && Elements(r) == s
  {
    var left, list := s, [];
    while left != {}
      invariant left <= s && left !! Elements(list) && left + Elements(list) == s
      invariant forall i, j | 0 <= i < j < |list| :: list[i] != list[j]
      decreases |left|
    {
      var x :| x in left;
      assert forall i | 0 <= i < |list| :: list[i] in Elements(list);
      assert Elements(list + [x]) == Elements(list) + {x};
      list, left := list + [x], left - {x};
    }
    r := Sort(list);
    SortElements(list);
    SortDistinct(list);
  }

  lemma {:induction false} SortDistinct(list: seq<string>)
    requires forall i, j | 0 <= i < j < |list| :: list[i] != list[j]
    ensures StrictlyAscending(Sort(list))
  {
    var r := Sort(list);
    forall i, j | 0 <= i < j < |r| ensures r[i] != r[j] {
      if r[i] == r[j] {
        TwiceIn(r, i, j);
        OnceIn(list, r[i]);
      }
    }
  }

  lemma TwiceIn(s: seq<string>, i: nat, j: nat)
    requires i < j < |s| && s[i] == s[j]
    ensures multiset(s)[s[i]] >= 2
  {
    assert s == s[..j] + s[j..];
    assert s[..j][i] in multiset(s[..j]) && s[j..][0] in multiset(s[j..]);
  }

  lemma {:induction false} OnceIn(s: seq<string>, x: string)
    requires forall i, j | 0 <= i < j < |s| :: s[i] != s[j]
    ensures multiset(s)[x] <= 1
    decreases |s|
  {
    if s != [] {
      assert s == [s[0]] + s[1..];
      OnceIn(s[1..], x);
      if s[0] == x { assert x !in s[1..]; }
    }
  }

  /** One pass over the rows, stopping at the first that breaks the rule. */
  method Collect(rows: seq<Mailbox>, rule: Rule) returns (k: nat, found: set<string>, versions: seq<Version>)
    ensures k == FirstBreak(rows, rule)
    ensures k == |rows| ==> found == Elements(Addresses(rows)) && versions == Versions(rows)
  {
    found, versions := {}, [];
    for i := 0 to |rows|
      invariant found == Elements(Addresses(rows[..i]))
      invariant versions == Versions(rows[..i])
      invariant forall k | 0 <= k < i :: !Breaks(rule, rows[k])
    {
      var mb := rows[i];
      if Breaks(rule, mb) {
        FirstIs(rows, rule, i);
        return i, found, versions;
      }
      assert rows[..i + 1] == rows[..i] + [mb];
      assert Addresses(rows[..i + 1]) == Addresses(rows[..i]) + [Lower(mb.address)];
      assert Elements(Addresses(rows[..i]) + [Lower(mb.address)]) == found + {Lower(mb.address)};
      found := found + {Lower(mb.address)};
      versions := versions + [Version(mb.id, mb.revision)];
    }
    assert rows[..|rows|] == rows;
    FirstIs(rows, rule, |rows|);
    k := |rows|;
  }

  method ComputeGroupCandidateTargets(t: Tables, group: set<nat>, rule: Rule, c: Change, mc: MemberChange) returns (r: Result)
    ensures r == Compute(t, group, rule, c, mc)
  {
    hide Canonical, Rows, Addresses, Versions;
    var rows := Rows(t.mailboxes, t.members, group, c, mc);
    var k, found, versions := Collect(rows, rule);
    if k < |rows| {
      return Constraint(rows[k].owner, rows[k].id);
    }
    var targets := SortedKeys(found);
    CanonicalShape(Addresses(rows));
    StrictUnique(targets, Canonical(Addresses(rows)));
    r := Candidates(targets, versions);
  }

  lemma FirstIs(rows: seq<Mailbox>, rule: Rule, k: nat)
    requires k <= |rows| && (k < |rows| ==> Breaks(rule, rows[k]))
    requires forall i | 0 <= i < k :: !Breaks(rule, rows[i])
    ensures FirstBreak(rows, rule) == k
  {
    var f := FirstBreak(rows, rule);
    assert f < |rows| ==> Breaks(rule, rows[f]);
  }

  // ----- what it computes -----------------------------------------------------

  ghost predicate IsCandidate(t: Tables, group: set<nat>, c: Change, mc: MemberChange, mb: Mailbox) {
    exists i :: 0 <= i < |t.mailboxes| && mb == Seen(t.mailboxes[i], c) && Eligible(mb, t.members, group, mc)
  }

  lemma {:induction false} RowsAre(t: Tables, group: set<nat>, c: Change, mc: MemberChange)
    ensures forall mb :: mb in Rows(t.mailboxes, t.members, group, c, mc) <==> IsCandidate(t, group, c, mc, mb)
    decreases |t.mailboxes|
  {
    if t.mailboxes != [] {
      var rest := t.(mailboxes := t.mailboxes[1..]);
      var head := Seen(t.mailboxes[0], c);
      RowsAre(rest, group, c, mc);
      forall mb ensures mb in Rows(t.mailboxes, t.members, group, c, mc) <==> IsCandidate(t, group, c, mc, mb) {
        if IsCandidate(rest, group, c, mc, mb) {
          var i :| 0 <= i < |rest.mailboxes| && mb == Seen(rest.mailboxes[i], c) && Eligible(mb, t.members, group, mc);
          assert t.mailboxes[i + 1] == rest.mailboxes[i];
        }
        if IsCandidate(t, group, c, mc, mb) {
          var i :| 0 <= i < |t.mailboxes| && mb == Seen(t.mailboxes[i], c) && Eligible(mb, t.members, group, mc);
          if i > 0 { assert t.mailboxes[i] == rest.mailboxes[i - 1]; }
        }
      }
    }
  }

  /** The result is a constraint failure exactly when a candidate breaks the rule;
      otherwise the targets are, in order and once each, the lower-cased addresses
      of the candidates. */
  lemma ComputeMeaning(t: Tables, group: set<nat>, rule: Rule, c: Change, mc: MemberChange)
    ensures var r := Compute(t, group, rule, c, mc);
            && (r.Constraint? <==> exists mb :: IsCandidate(t, group, c, mc, mb) && Breaks(rule, mb))
            && (r.Candidates? ==>
                  && StrictlyAscending(r.targets)
                  && (forall a :: a in r.targets <==> exists mb :: IsCandidate(t, group, c, mc, mb) && Lower(mb.address) == a)
                  && (forall v :: v in r.versions <==> exists mb :: IsCandidate(t, group, c, mc, mb) && v == Version(mb.id, mb.revision)))
  {
    hide IsCandidate;
    var rows := Rows(t.mailboxes, t.members, group, c, mc);
    RowsAre(t, group, c, mc);
    BreakIn(rows, rule);
    CanonicalShape(Addresses(rows));
    AddressesIn(rows);
    VersionsIn(rows);
    var targets := Canonical(Addresses(rows));
    assert forall a :: a in targets <==> a in Elements(targets);
    assert forall a :: a in Addresses(rows) <==> a in Elements(Addresses(rows));
  }

  lemma BreakIn(rows: seq<Mailbox>, rule: Rule)
    ensures FirstBreak(rows, rule) < |rows| <==> exists mb :: mb in rows && Breaks(rule, mb)
  {
    var k := FirstBreak(rows, rule);
    if k < |rows| { assert rows[k] in rows; }
  }

  lemma AddressesIn(rows: seq<Mailbox>)
    ensures forall a :: a in Addresses(rows) <==> exists mb :: mb in rows && Lower(mb.address) == a
  {
    forall a ensures a in Addresses(rows) <==> exists mb :: mb in rows && Lower(mb.address) == a {
      if a in Addresses(rows) {
        var i :| 0 <= i < |rows| && Addresses(rows)[i] == a;
        assert rows[i] in rows;
      }
      if mb :| mb in rows && Lower(mb.address) == a {
        var i :| 0 <= i < |rows| && rows[i] == mb;
        assert Addresses(rows)[i] == a;
      }
    }
  }

  lemma VersionsIn(rows: seq<Mailbox>)
    ensures forall v :: v in Versions(rows) <==> exists mb :: mb in rows && v == Version(mb.id, mb.revision)
  {
    forall v ensures v in Versions(rows) <==> exists mb :: mb in rows && v == Version(mb.id, mb.revision) {
      if v in Versions(rows) {
        var i :| 0 <= i < |rows| && Versions(rows)[i] == v;
        assert rows[i] in rows;
      }
      if mb :| mb in rows && v == Version(mb.id, mb.revision) {
        var i :| 0 <= i < |rows| && rows[i] == mb;
        assert Versions(rows)[i] == v;
      }
    }
  }
}
