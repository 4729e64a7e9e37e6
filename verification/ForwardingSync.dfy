/** The fold of everything a provider reported about a registered forwarding into
    its row: addresses, reports, modes, states and the verified flag. */
module ForwardingSync {

  import opened Wrappers
  import opened Text
  import opened Forwarding

  /** A stored resource; `body` is what its saved JSON decodes to. */
  datatype Resource = Resource(key: string, state: string, body: Option<Observation>)

  datatype Seen = Seen(
    targets: seq<string>, reports: map<string, Report>, states: map<string, string>, modes: map<string, Mode>, verified: bool)

  const NOTHING := Seen([], map[], map[], map[], true)

  function Join(s: Seen, target: string, report: Report): Report {
    if target in s.reports && s.reports[target] != report then Unknown else report
  }

  function AddTarget(s: Seen, target: string, report: Report): Seen {
    var joined := Join(s, target, report);
    s.(targets := s.targets + [target], reports := s.reports[target := joined], verified := s.verified && joined == Active)
  }

  function AddTargets(s: Seen, info: Info, n: nat): Seen
    requires n <= |info.targets|
  {
    if n == 0 then s else AddTarget(AddTargets(s, info, n - 1), info.targets[n - 1], ReportOf(info, info.targets[n - 1]))
  }

  function AddMode(s: Seen, key: string, info: Info, desired: Mode): Seen {
    s.(modes := s.modes[key := info.mode], verified := s.verified && info.mode != Unverified && info.mode == desired)
  }

  function Add(lib: Library, s: Seen, r: Resource, desired: Mode): Result<Seen> {
    var s := s.(states := s.states[r.key := r.state]);
    if r.state != "present" then Ok(s.(verified := false))
    else if r.body.None? then Err(Malformed)
    else if r.body.value.forwarding.None? then Ok(s.(verified := false))
    else
      var info := Normalize(lib, r.body.value);
      if info.Err? then Err(info.error)
      else Ok(AddTargets(AddMode(s, r.key, info.value, desired), info.value, |info.value.targets|))
  }

  function See(lib: Library, rs: seq<Resource>, desired: Mode): Result<Seen> {
    if rs == [] then Ok(NOTHING)
    else
      var s := See(lib, rs[..|rs| - 1], desired);
      if s.Err? then s else Add(lib, s.value, rs[|rs| - 1], desired)
  }

  method ObserveResources(lib: Library, rs: seq<Resource>, desired: Mode) returns (r: Result<Seen>)
    ensures r == See(lib, rs, desired)
  {
    var s := NOTHING;
    for i := 0 to |rs|
      invariant See(lib, rs[..i], desired) == Ok(s)
    {
      var resource := rs[i];
      ghost var was := s;
      assert rs[..i + 1][..i] == rs[..i];
      assert See(lib, rs[..i + 1], desired) == Add(lib, was, resource, desired);
      s := s.(states := s.states[resource.key := resource.state]);
      if resource.state != "present" {
        s := s.(verified := false);
        continue;
      }
      if resource.body.None? {
        SeeStops(lib, rs, desired, i + 1);
        return Err(Malformed);
      }
      if resource.body.value.forwarding.None? {
        s := s.(verified := false);
        continue;
      }
      var info := NormalizedForwarding(lib, resource.body.value);
      if info.Err? {
        SeeStops(lib, rs, desired, i + 1);
        return Err(info.error);
      }
      s := AddMode(s, resource.key, info.value, desired);
      ghost var start := s;
      for j := 0 to |info.value.targets|
        invariant s == AddTargets(start, info.value, j)
      {
        var target := info.value.targets[j];
        s := AddTarget(s, target, ReportOf(info.value, target));
      }
    }
    assert rs[..|rs|] == rs;
    return Ok(s);
  }

  lemma {:induction false} SeeStops(lib: Library, rs: seq<Resource>, desired: Mode, n: nat)
    requires n <= |rs| && See(lib, rs[..n], desired).Err?
    ensures See(lib, rs, desired) == See(lib, rs[..n], desired)
    decreases |rs|
  {
    if n == |rs| { assert rs[..n] == rs; }
    else {
      assert rs[..|rs| - 1][..n] == rs[..n];
      SeeStops(lib, rs[..|rs| - 1], desired, n);
    }
  }

  // ----- what the fold means ----------------------------------------------------

  predicate Counts(r: Resource) {
    r.state == "present" && r.body.Some? && r.body.value.forwarding.Some?
  }

  function InfoOf(lib: Library, r: Resource): Option<Info> {
    if Counts(r) && Normalize(lib, r.body.value).Ok? then Some(Normalize(lib, r.body.value).value) else None
  }

  /** The report resource `r` gives about `target`, if it names it. */
  function Said(lib: Library, r: Resource, target: string): Option<Report> {
    var info := InfoOf(lib, r);
    if info.Some? && target in info.value.targets then Some(ReportOf(info.value, target)) else None
  }

  predicate Readable(lib: Library, r: Resource) {
    r.state == "present" ==> r.body.Some? && (r.body.value.forwarding.Some? ==> Normalize(lib, r.body.value).Ok?)
  }

  /** `r` is present, forwards in the desired mode, and every target is active. */
  ghost predicate Confirms(lib: Library, r: Resource, desired: Mode) {
    var info := InfoOf(lib, r);
    && info.Some? && info.value.mode == desired != Unverified
    && forall t | t in info.value.targets :: ReportOf(info.value, t) == Active
  }

  ghost predicate Agreed(lib: Library, rs: seq<Resource>, target: string, report: Report) {
    && (exists r | r in rs :: Said(lib, r, target) == Some(report))
    && forall r | r in rs :: Said(lib, r, target).Some? ==> Said(lib, r, target) == Some(report)
  }

  /** The join of all reports about a target: the one they agree on, else unknown. */
  ghost predicate Verdict(lib: Library, rs: seq<Resource>, target: string, report: Report) {
    Agreed(lib, rs, target, report) || (report == Unknown && forall x :: !Agreed(lib, rs, target, x))
  }

  ghost predicate DistinctKeys(rs: seq<Resource>) {
    forall i, j | 0 <= i < j < |rs| :: rs[i].key != rs[j].key
  }

  ghost predicate TargetsRight(lib: Library, rs: seq<Resource>, s: Seen) {
    && (forall t :: t in s.targets <==> exists r :: r in rs && Said(lib, r, t).Some?)
    && (forall t :: t in s.reports <==> t in s.targets)
    && (forall t | t in s.reports :: Verdict(lib, rs, t, s.reports[t]))
  }

  ghost predicate StatesRight(rs: seq<Resource>, states: map<string, string>) {
    && (forall k :: k in states <==> exists r :: r in rs && r.key == k)
    && (forall r | r in rs :: r.key in states && states[r.key] == r.state)
  }

  ghost predicate ModesRight(lib: Library, rs: seq<Resource>, modes: map<string, Mode>) {
    && (forall k :: k in modes <==> exists r :: r in rs && r.key == k && InfoOf(lib, r).Some?)
    && (forall r | r in rs && InfoOf(lib, r).Some? :: r.key in modes && modes[r.key] == InfoOf(lib, r).value.mode)
  }

  ghost predicate KeysRight(lib: Library, rs: seq<Resource>, s: Seen) {
    StatesRight(rs, s.states) && ModesRight(lib, rs, s.modes)
  }

  ghost predicate FlagRight(lib: Library, rs: seq<Resource>, desired: Mode, s: Seen) {
    s.verified <==> forall r | r in rs :: Confirms(lib, r, desired)
  }

  lemma {:induction false} AddTargetsShape(s: Seen, info: Info, n: nat)
    requires StrictlyAscending(info.targets) && n <= |info.targets|
    ensures var a := AddTargets(s, info, n);
            && a.states == s.states && a.modes == s.modes
            && a.targets == s.targets + info.targets[..n]
            && (forall t :: t in a.reports <==> t in s.reports || t in info.targets[..n])
            && (forall t | t in a.reports :: a.reports[t] == if t in info.targets[..n] then Join(s, t, ReportOf(info, t)) else s.reports[t])
            && (a.verified <==> s.verified && forall t | t in info.targets[..n] :: Join(s, t, ReportOf(info, t)) == Active)
  {
    hide ReportOf, Le;
    if n > 0 {
      AddTargetsShape(s, info, n - 1);
      var t := info.targets[n - 1];
      assert info.targets[..n] == info.targets[..n - 1] + [t];
      assert t !in info.targets[..n - 1] by {
        forall k | 0 <= k < n - 1 ensures info.targets[k] != t { assert Lt(info.targets[k], info.targets[n - 1]); }
      }
    }
  }

  /** Joining one more report keeps the verdict right. */
  lemma JoinIsVerdict(lib: Library, rs: seq<Resource>, r: Resource, s: Seen, t: string)
    requires TargetsRight(lib, rs, s) && Said(lib, r, t).Some?
    ensures Verdict(lib, rs + [r], t, Join(s, t, Said(lib, r, t).value))
  {
    hide Said;
    var report := Said(lib, r, t).value;
    assert r in rs + [r];
    if t !in s.reports {
      assert Agreed(lib, rs + [r], t, report);
    } else {
      var before := s.reports[t];
      var other :| other in rs && Said(lib, other, t).Some?;
      assert Agreed(lib, rs, t, before) && before == report ==> Agreed(lib, rs + [r], t, report) by {
        if x :| x in rs && Said(lib, x, t) == Some(before) { assert x in rs + [r]; }
      }
      forall x | Agreed(lib, rs + [r], t, x) ensures x == report && Agreed(lib, rs, t, x) {
        assert Said(lib, other, t) == Some(x) by { assert other in rs + [r]; }
        assert forall y | y in rs :: y in rs + [r];
      }
    }
  }

  lemma SilenceKeepsVerdict(lib: Library, rs: seq<Resource>, r: Resource, t: string, report: Report)
    requires Said(lib, r, t).None? && Verdict(lib, rs, t, report)
    ensures Verdict(lib, rs + [r], t, report)
  {
    hide Said;
    forall x ensures Agreed(lib, rs, t, x) <==> Agreed(lib, rs + [r], t, x) {
      assert forall y :: y in rs + [r] <==> y in rs || y == r;
    }
  }

  lemma AddKeepsTargets(lib: Library, rs: seq<Resource>, r: Resource, desired: Mode, s: Seen)
    requires TargetsRight(lib, rs, s) && Add(lib, s, r, desired).Ok?
    ensures TargetsRight(lib, rs + [r], Add(lib, s, r, desired).value)
  {
    hide Normalize, Verdict, Join, ReportOf, StrictlyAscending;
    var a := Add(lib, s, r, desired).value;
    AddShape(lib, s, r, desired);
    assert forall y :: y in rs + [r] <==> y in rs || y == r;
    forall t ensures t in a.targets <==> exists y :: y in rs + [r] && Said(lib, y, t).Some? {
      assert t in a.targets <==> t in s.targets || Said(lib, r, t).Some?;
    }
    forall t | t in a.reports ensures Verdict(lib, rs + [r], t, a.reports[t]) {
      if Said(lib, r, t).Some? { JoinIsVerdict(lib, rs, r, s, t); }
      else { SilenceKeepsVerdict(lib, rs, r, t, s.reports[t]); }
    }
  }

  /** One resource adds what it says, joined with what was there. */
  lemma AddShape(lib: Library, s: Seen, r: Resource, desired: Mode)
    requires Add(lib, s, r, desired).Ok?
    ensures var a := Add(lib, s, r, desired).value;
            && (forall t :: t in a.targets <==> t in s.targets || Said(lib, r, t).Some?)
            && (forall t :: t in a.reports <==> t in s.reports || Said(lib, r, t).Some?)
            && (forall t | t in a.reports :: a.reports[t] == if Said(lib, r, t).Some? then Join(s, t, Said(lib, r, t).value) else s.reports[t])
            && a.states == s.states[r.key := r.state]
            && a.modes == (if InfoOf(lib, r).Some? then s.modes[r.key := InfoOf(lib, r).value.mode] else s.modes)
            && (a.verified <==> s.verified && InfoOf(lib, r).Some? && InfoOf(lib, r).value.mode == desired != Unverified
                                && forall t | t in InfoOf(lib, r).value.targets :: Join(s, t, ReportOf(InfoOf(lib, r).value, t)) == Active)
  {
    hide Normalize, ReportOf, StrictlyAscending, Normal, Carries;
    if InfoOf(lib, r).Some? {
      var info := InfoOf(lib, r).value;
      assert StrictlyAscending(info.targets) by { NormalizeMeans(lib, r.body.value); NormalIsAscending(lib, info); }
      var start := AddMode(s.(states := s.states[r.key := r.state]), r.key, info, desired);
      AddTargetsShape(start, info, |info.targets|);
      assert info.targets[..|info.targets|] == info.targets;
    }
  }

  lemma NormalIsAscending(lib: Library, info: Info)
    requires Normal(lib, info)
    ensures StrictlyAscending(info.targets)
  {}

  lemma AddKeepsKeys(lib: Library, rs: seq<Resource>, r: Resource, desired: Mode, s: Seen)
    requires KeysRight(lib, rs, s) && Add(lib, s, r, desired).Ok?
    requires forall y | y in rs :: y.key != r.key
    ensures KeysRight(lib, rs + [r], Add(lib, s, r, desired).value)
  {
    AddShape(lib, s, r, desired);
    hide Add, InfoOf, Said, Join, ReportOf, StatesRight, ModesRight;
    AddState(rs, r, s.states);
    AddModeOf(lib, rs, r, s.modes);
  }

  lemma AddState(rs: seq<Resource>, r: Resource, states: map<string, string>)
    requires StatesRight(rs, states) && forall y | y in rs :: y.key != r.key
    ensures StatesRight(rs + [r], states[r.key := r.state])
  {
    var now, all := states[r.key := r.state], rs + [r];
    assert r in all && forall y | y in rs :: y in all;
    forall k | k in now ensures exists y :: y in all && y.key == k {
      if k != r.key { var y :| y in rs && y.key == k; assert y in all; }
    }
  }

  lemma AddModeOf(lib: Library, rs: seq<Resource>, r: Resource, modes: map<string, Mode>)
    requires ModesRight(lib, rs, modes) && forall y | y in rs :: y.key != r.key
    ensures ModesRight(lib, rs + [r], if InfoOf(lib, r).Some? then modes[r.key := InfoOf(lib, r).value.mode] else modes)
  {
    hide InfoOf;
    var now, all := if InfoOf(lib, r).Some? then modes[r.key := InfoOf(lib, r).value.mode] else modes, rs + [r];
    assert r in all && forall y | y in rs :: y in all;
    forall k | k in now ensures exists y :: y in all && y.key == k && InfoOf(lib, y).Some? {
      if k in modes { var y :| y in rs && y.key == k && InfoOf(lib, y).Some?; assert y in all; }
    }
  }

  lemma AddKeepsFlag(lib: Library, rs: seq<Resource>, r: Resource, desired: Mode, s: Seen)
    requires FlagRight(lib, rs, desired, s) && TargetsRight(lib, rs, s) && Add(lib, s, r, desired).Ok?
    ensures FlagRight(lib, rs + [r], desired, Add(lib, s, r, desired).value)
  {
    AddShape(lib, s, r, desired);
    hide Add, InfoOf, ReportOf;
    assert forall y :: y in rs + [r] <==> y in rs || y == r;
    if s.verified {
      forall t | t in s.reports ensures s.reports[t] == Active {
        ConfirmedIsActive(lib, rs, desired, t, s.reports[t]);
      }
      assert forall t, x :: Join(s, t, x) == Active <==> x == Active;
      var a := Add(lib, s, r, desired).value;
      assert a.verified <==> Confirms(lib, r, desired);
      assert (forall y | y in rs + [r] :: Confirms(lib, y, desired)) <==> Confirms(lib, r, desired);
    }
  }

  lemma ConfirmedIsActive(lib: Library, rs: seq<Resource>, desired: Mode, t: string, report: Report)
    requires Verdict(lib, rs, t, report)
    requires exists r :: r in rs && Said(lib, r, t).Some?
    requires forall r | r in rs :: Confirms(lib, r, desired)
    ensures report == Active
  {
    hide InfoOf, ReportOf;
    var r :| r in rs && Said(lib, r, t).Some?;
    assert Agreed(lib, rs, t, Active) by {
      assert forall y | y in rs :: Confirms(lib, y, desired);
      assert Said(lib, r, t) == Some(Active);
    }
  }

  /** The fold succeeds exactly when every resource can be read, and then its result
      is determined by the set of resources alone. */
  lemma {:induction false} SeeMeans(lib: Library, rs: seq<Resource>, desired: Mode)
    ensures See(lib, rs, desired).Ok? <==> forall r | r in rs :: Readable(lib, r)
    ensures See(lib, rs, desired).Ok? ==> TargetsRight(lib, rs, See(lib, rs, desired).value) && FlagRight(lib, rs, desired, See(lib, rs, desired).value)
    ensures See(lib, rs, desired).Ok? && DistinctKeys(rs) ==> KeysRight(lib, rs, See(lib, rs, desired).value)
  {
    if rs == [] {
      NothingMeans(lib, desired);
    } else {
      hide Add, TargetsRight, FlagRight, KeysRight, Readable, DistinctKeys;
      var init, r := rs[..|rs| - 1], rs[|rs| - 1];
      SeeMeans(lib, init, desired);
      assert rs == init + [r];
      assert forall y :: y in rs <==> y in init || y == r;
      var s := See(lib, init, desired);
      if s.Ok? {
        AddReads(lib, s.value, r, desired);
        if Add(lib, s.value, r, desired).Ok? {
          AddKeepsTargets(lib, init, r, desired, s.value);
          AddKeepsFlag(lib, init, r, desired, s.value);
          if DistinctKeys(rs) {
            DistinctBefore(init, r);
            AddKeepsKeys(lib, init, r, desired, s.value);
          }
        }
      }
    }
  }

  lemma DistinctBefore(init: seq<Resource>, r: Resource)
    requires DistinctKeys(init + [r])
    ensures DistinctKeys(init) && forall y | y in init :: y.key != r.key
  {
    var rs := init + [r];
    assert forall i | 0 <= i < |init| :: init[i] == rs[i];
    assert rs[|init|] == r;
  }

  lemma NothingMeans(lib: Library, desired: Mode)
    ensures TargetsRight(lib, [], NOTHING) && FlagRight(lib, [], desired, NOTHING) && KeysRight(lib, [], NOTHING)
  {}

  lemma AddReads(lib: Library, s: Seen, r: Resource, desired: Mode)
    ensures Add(lib, s, r, desired).Ok? <==> Readable(lib, r)
  {
    hide Normalize, AddTargets;
  }

  // ----- the order of the resources does not matter -----------------------------

  lemma VerdictUnique(lib: Library, rs: seq<Resource>, t: string, a: Report, b: Report)
    requires Verdict(lib, rs, t, a) && Verdict(lib, rs, t, b)
    ensures a == b
  {
    hide Said;
  }

  lemma VerdictOfSet(lib: Library, rs: seq<Resource>, others: seq<Resource>, t: string, report: Report)
    requires forall r :: r in rs <==> r in others
    requires Verdict(lib, rs, t, report)
    ensures Verdict(lib, others, t, report)
  {
    hide Said;
    assert forall x :: Agreed(lib, rs, t, x) <==> Agreed(lib, others, t, x);
  }

  /** Resources with distinct remote keys give the same observation in every order. */
  lemma {:induction false} OrderDoesNotMatter(lib: Library, rs: seq<Resource>, others: seq<Resource>, desired: Mode)
    requires multiset(rs) == multiset(others) && DistinctKeys(rs) && DistinctKeys(others)
    ensures See(lib, rs, desired).Ok? <==> See(lib, others, desired).Ok?
    ensures See(lib, rs, desired).Ok? ==>
              var a, b := See(lib, rs, desired).value, See(lib, others, desired).value;
              Canonical(a.targets) == Canonical(b.targets) && a.(targets := []) == b.(targets := [])
  {
    hide See, Readable, Canonical, Confirms, TargetsRight, KeysRight;
    forall r ensures r in rs <==> r in others {
      assert r in rs <==> r in multiset(rs);
      assert r in others <==> r in multiset(others);
    }
    SeeMeans(lib, rs, desired);
    SeeMeans(lib, others, desired);
    if See(lib, rs, desired).Ok? {
      var a, b := See(lib, rs, desired).value, See(lib, others, desired).value;
      SameTargetsSeen(lib, rs, others, a, b);
      SameKeysSeen(lib, rs, others, a, b);
    }
  }

  lemma SameTargetsSeen(lib: Library, rs: seq<Resource>, others: seq<Resource>, a: Seen, b: Seen)
    requires forall r :: r in rs <==> r in others
    requires TargetsRight(lib, rs, a) && TargetsRight(lib, others, b)
    ensures Canonical(a.targets) == Canonical(b.targets) && a.reports == b.reports
  {
    hide Verdict, Said, Canonical;
    CanonicalOfSet(a.targets, b.targets);
    forall t | t in a.reports ensures t in b.reports && a.reports[t] == b.reports[t] {
      VerdictOfSet(lib, rs, others, t, a.reports[t]);
      VerdictUnique(lib, others, t, a.reports[t], b.reports[t]);
    }
  }

  lemma SameKeysSeen(lib: Library, rs: seq<Resource>, others: seq<Resource>, a: Seen, b: Seen)
    requires forall r :: r in rs <==> r in others
    requires KeysRight(lib, rs, a) && KeysRight(lib, others, b)
    ensures a.states == b.states && a.modes == b.modes
  {
    hide InfoOf;
    forall k | k in a.states ensures k in b.states && a.states[k] == b.states[k] {
      var r :| r in rs && r.key == k;
    }
    forall k | k in a.modes ensures k in b.modes && a.modes[k] == b.modes[k] {
      var r :| r in rs && r.key == k && InfoOf(lib, r).Some?;
    }
  }

  // ----- the row ------------------------------------------------------------------

  datatype SyncState = Pending | Synced | NotKnown | Failed

  datatype Json =
    | Strings(strings: seq<string>) | ModeWord(mode: Mode) | Modes(modes: map<string, Mode>) | Reports(reports: map<string, Report>)
    | States(states: map<string, string>) | Word(word: string) | Flag(flag: bool) | OtherJson(text: string)

  /** The saved status text; `canonical` when it is exactly what encoding writes. */
  datatype Stored = NotJson | Document(doc: map<string, Json>, canonical: bool)

  datatype Registration = Registration(
    id: nat, targets: Option<seq<string>>, mode: Mode, status: Stored, state: SyncState, revision: nat)

  function Describe(doc: map<string, Json>, desired: seq<string>, mode: Mode, s: Seen): map<string, Json> {
    doc["desiredTargets" := Strings(desired)]["desiredDeliveryMode" := ModeWord(mode)]
       ["observedTargets" := Strings(Canonical(s.targets))]["observedDeliveryModes" := Modes(s.modes)]
       ["statusByTarget" := Reports(s.reports)]["remoteStates" := States(s.states)]
       ["verificationSource" := Word("provider_read")]["systemVerified" := Flag(s.verified)]
  }

  function NextState(state: SyncState, desired: seq<string>, s: Seen): SyncState {
    if state == Pending then Pending
    else if !SameTargets(desired, Canonical(s.targets)) then Failed
    else if s.verified then Synced
    else NotKnown
  }

  function SyncRow(lib: Library, rs: seq<Resource>, row: Registration): Result<Registration> {
    var seen := See(lib, rs, row.mode);
    if seen.Err? then Err(seen.error)
    else if rs == [] then Ok(row)
    else if row.targets.None? || row.status.NotJson? then Err(Malformed)
    else
      var body := Document(Describe(row.status.doc, row.targets.value, row.mode, seen.value), true);
      var next := NextState(row.state, row.targets.value, seen.value);
      Ok(if body != row.status || next != row.state then row.(status := body, state := next, revision := row.revision + 1) else row)
  }

  function ResourcesOf(resources: map<nat, seq<Resource>>, id: nat): seq<Resource> {
    if id in resources then resources[id] else []
  }

  function SyncRows(lib: Library, resources: map<nat, seq<Resource>>, rows: seq<Registration>): Result<seq<Registration>> {
    if rows == [] then Ok([])
    else
      var init := SyncRows(lib, resources, rows[..|rows| - 1]);
      var row := rows[|rows| - 1];
      if init.Err? then init
      else
        var synced := SyncRow(lib, ResourcesOf(resources, row.id), row);
        if synced.Err? then Err(synced.error) else Ok(init.value + [synced.value])
  }

  class Forwardings {
    var rows: seq<Registration>
    var resources: map<nat, seq<Resource>>

    /** One transaction: all rows of the connection, or none. */
    method SyncForwardingObservations(lib: Library) returns (ok: bool)
      modifies this`rows
      ensures ok <==> SyncRows(lib, resources, old(rows)).Ok?
      ensures rows == if ok then SyncRows(lib, resources, old(rows)).value else old(rows)
    {
      hide See, Describe, NextState, ResourcesOf;
      var work := rows;
      for i := 0 to |rows|
        invariant rows == old(rows) && |work| == |rows| && work[i..] == rows[i..]
        invariant SyncRows(lib, resources, rows[..i]) == Ok(work[..i])
      {
        var row := work[i];
        assert row == work[i..][0] == rows[i..][0];
        var rs := ResourcesOf(resources, row.id);
        var seen := ObserveResources(lib, rs, row.mode);
        assert rows[..i + 1] == rows[..i] + [row];
        SyncOneMore(lib, resources, rows[..i], row, work[..i]);
        if seen.Err? || (rs != [] && (row.targets.None? || row.status.NotJson?)) {
          SyncStops(lib, resources, rows, i + 1);
          return false;
        }
        ghost var was := work;
        if rs != [] {
          var body := Document(Describe(row.status.doc, row.targets.value, row.mode, seen.value), true);
          var next := NextState(row.state, row.targets.value, seen.value);
          if body != row.status || next != row.state {
            work := work[i := row.(status := body, state := next, revision := row.revision + 1)];
          }
        }
        assert work[..i + 1] == was[..i] + [work[i]];
        assert work[i + 1..] == was[i..][1..] == rows[i..][1..];
      }
      assert rows[..|rows|] == rows && work[..|rows|] == work;
      rows := work;
      return true;
    }
  }

  lemma SyncOneMore(lib: Library, resources: map<nat, seq<Resource>>, rows: seq<Registration>, row: Registration, done: seq<Registration>)
    requires SyncRows(lib, resources, rows) == Ok(done)
    ensures var synced := SyncRow(lib, ResourcesOf(resources, row.id), row);
            SyncRows(lib, resources, rows + [row]) == if synced.Err? then Err(synced.error) else Ok(done + [synced.value])
  {
    hide SyncRow;
    assert (rows + [row])[..|rows|] == rows;
  }

  lemma {:induction false} SyncStops(lib: Library, resources: map<nat, seq<Resource>>, rows: seq<Registration>, n: nat)
    requires n <= |rows| && SyncRows(lib, resources, rows[..n]).Err?
    ensures SyncRows(lib, resources, rows).Err?
    decreases |rows|
  {
    if n == |rows| { assert rows[..n] == rows; }
    else {
      assert rows[..|rows| - 1][..n] == rows[..n];
      SyncStops(lib, resources, rows[..|rows| - 1], n);
    }
  }

  lemma SyncRowTwice(lib: Library, rs: seq<Resource>, row: Registration)
    requires SyncRow(lib, rs, row).Ok?
    ensures SyncRow(lib, rs, SyncRow(lib, rs, row).value) == SyncRow(lib, rs, row)
  {
    hide See, Canonical, SameTargets;
    if rs != [] {
      var seen := See(lib, rs, row.mode).value;
      var once := Describe(row.status.doc, row.targets.value, row.mode, seen);
      assert Describe(once, row.targets.value, row.mode, seen) == once;
    }
  }

  lemma {:induction false} SyncRowsEach(lib: Library, resources: map<nat, seq<Resource>>, rows: seq<Registration>)
    requires SyncRows(lib, resources, rows).Ok?
    ensures |SyncRows(lib, resources, rows).value| == |rows|
    ensures forall i | 0 <= i < |rows| ::
              SyncRow(lib, ResourcesOf(resources, rows[i].id), rows[i]) == Ok(SyncRows(lib, resources, rows).value[i])
  {
    if rows != [] {
      hide SyncRow;
      SyncRowsEach(lib, resources, rows[..|rows| - 1]);
    }
  }

  /** A second sync over the same observations changes no row and no revision. */
  lemma {:induction false} SecondSyncChangesNothing(lib: Library, resources: map<nat, seq<Resource>>, rows: seq<Registration>)
    requires SyncRows(lib, resources, rows).Ok?
    ensures SyncRows(lib, resources, SyncRows(lib, resources, rows).value) == SyncRows(lib, resources, rows)
  {
    if rows != [] {
      hide SyncRow, ResourcesOf;
      var init, row := rows[..|rows| - 1], rows[|rows| - 1];
      SecondSyncChangesNothing(lib, resources, init);
      var before := SyncRows(lib, resources, init).value;
      var synced := SyncRow(lib, ResourcesOf(resources, row.id), row).value;
      SyncRowTwice(lib, ResourcesOf(resources, row.id), row);
      SyncKeepsId(lib, ResourcesOf(resources, row.id), row);
      SyncOneMore(lib, resources, before, synced, before);
    }
  }

  lemma SyncKeepsId(lib: Library, rs: seq<Resource>, row: Registration)
    requires SyncRow(lib, rs, row).Ok?
    ensures SyncRow(lib, rs, row).value.id == row.id
  {
    hide See, Describe, NextState;
  }

  /** What a synced registration promises: its desired targets are exactly the
      observed ones, and every resource confirms them in the desired mode. */
  lemma SyncedMeans(lib: Library, rs: seq<Resource>, row: Registration)
    requires SyncRow(lib, rs, row).Ok? && rs != [] && row.state != Pending
    ensures SyncRow(lib, rs, row).value.state == Synced
            <==> (forall r | r in rs :: Confirms(lib, r, row.mode))
                 && (forall t :: t in row.targets.value <==> exists r :: r in rs && Said(lib, r, t).Some?)
                 && (forall i, j | 0 <= i < j < |row.targets.value| :: row.targets.value[i] != row.targets.value[j])
  {
    hide See, Confirms, Said, Canonical, Verdict, SameTargets, StrictlyAscending;
    var seen := See(lib, rs, row.mode).value;
    var desired, observed := row.targets.value, Canonical(seen.targets);
    SeeMeans(lib, rs, row.mode);
    CanonicalShape(seen.targets);
    forall t ensures t in observed <==> exists r :: r in rs && Said(lib, r, t).Some? {
      assert t in observed <==> t in Elements(observed);
    }
    SameAsStrict(desired, observed);
  }

  /** Comparing with a canonical list is set equality plus freedom from duplicates. */
  lemma SameAsStrict(a: seq<string>, b: seq<string>)
    requires StrictlyAscending(b)
    ensures SameTargets(a, b) <==> (forall t :: t in a <==> t in b) && forall i, j | 0 <= i < j < |a| :: a[i] != a[j]
  {
    SameTargetsIsPermutation(a, b);
    assert forall i, j | 0 <= i < j < |b| :: b[i] != b[j];
    DistinctCounts(b);
    forall t ensures t in a <==> t in multiset(a) {}
    forall t ensures t in b <==> t in multiset(b) {}
    if forall i, j | 0 <= i < j < |a| :: a[i] != a[j] {
      DistinctCounts(a);
      if forall t :: t in a <==> t in b {
        assert multiset(a) == multiset(b);
      }
    } else {
      var i, j :| 0 <= i < j < |a| && a[i] == a[j];
      TwiceCounts(a, i, j);
    }
  }

  lemma {:induction false} DistinctCounts(s: seq<string>)
    requires forall i, j | 0 <= i < j < |s| :: s[i] != s[j]
    ensures forall t :: multiset(s)[t] == if t in s then 1 else 0
  {
    if s != [] {
      DistinctCounts(s[..|s| - 1]);
      assert s == s[..|s| - 1] + [s[|s| - 1]];
    }
  }

  lemma TwiceCounts(s: seq<string>, i: nat, j: nat)
    requires i < j < |s| && s[i] == s[j]
    ensures multiset(s)[s[i]] >= 2
  {
    assert s == s[..i] + [s[i]] + s[i + 1..j] + [s[j]] + s[j + 1..];
  }
}
