/** What provider reads say about a mailbox's forwarding: one resource in normal
    form, and the fold of all resources of a registration into its row. */
module Forwarding {

  import opened Wrappers
  import opened Text

  // ----- addresses and domains ------------------------------------------------

  predicate Space(c: char) {
    c in " \t\n\r" || c as int in {11, 12}
  }

  function TrimLeft(s: string): string {
    if s != "" && Space(s[0]) then TrimLeft(s[1..]) else s
  }

  function TrimRight(s: string): string {
    if s != "" && Space(s[|s| - 1]) then TrimRight(s[..|s| - 1]) else s
  }

  function Folded(s: string): string {
    Lower(TrimRight(TrimLeft(s)))
  }

  /** The address parser and the IDNA conversion, which belong to other packages. */
  datatype Library = Library(parses: string -> bool, toAscii: string -> Option<string>)

  function NormalizeEmail(lib: Library, s: string): Option<string> {
    var address := Folded(s);
    if address == "" || !lib.parses(address) then None else Some(address)
  }

  function CanonicalDomain(lib: Library, s: string): Option<string> {
    var ascii := lib.toAscii(Folded(s));
    if ascii.None? || ascii.value == "" || '.' !in ascii.value || (exists c | c in "/@\r\n\0" :: c in ascii.value)
    then None else ascii
  }

  /** IDNA conversion leaves its own results alone. */
  ghost predicate Settled(lib: Library) {
    forall d, v | lib.toAscii(d) == Some(v) :: Folded(v) == v && lib.toAscii(v) == Some(v)
  }

  predicate Alphanumeric(c: char) {
    'a' <= c <= 'z' || '0' <= c <= '9'
  }

  predicate ValidLocalPart(s: string) {
    && 1 <= |s| <= 64
    && Alphanumeric(s[0]) && Alphanumeric(s[|s| - 1])
    && forall c | c in s :: Alphanumeric(c) || c in "._+-"
  }

  // ----- one resource -----------------------------------------------------------

  datatype Mode = Redirect | Copy | Unverified | OtherMode
  datatype Report = Active | PendingConfirmation | Blocked | Unknown | OtherReport

  datatype Info = Info(domain: string, localPart: string, targets: seq<string>, mode: Mode, reports: map<string, Report>)

  /** An empty field is a locator entry that is absent. */
  datatype Locator = Locator(domain: string, mailboxLocalPart: string, localPart: string, targetAddress: string)
  datatype Observation = Observation(isForwarding: bool, remoteKey: string, locator: Locator, forwarding: Option<Info>)

  datatype Error =
    | Incomplete | BadDomain | BadSource | NoRemoteKey | OtherDomain | OtherSource | BadTarget | TargetIsSource
    | BadReport | ConflictingReports | OtherTarget | NoTarget | Malformed
  datatype Result<T> = Ok(value: T) | Err(error: Error)

  function ReportOf(info: Info, target: string): Report {
    if target in info.reports then info.reports[target] else OtherReport
  }

  function Source(info: Info, domain: string): string {
    Lower(info.localPart + "@" + domain)
  }

  predicate Names(text: string, value: string) {
    text == "" || Lower(text) == Lower(value)
  }

  datatype Gathered = Gathered(targets: seq<string>, reports: map<string, Report>)

  function GatherOne(lib: Library, info: Info, source: string, g: Gathered, target: string): Result<Gathered> {
    var address := NormalizeEmail(lib, target);
    var report := ReportOf(info, target);
    if address.None? then Err(BadTarget)
    else if address.value == source then Err(TargetIsSource)
    else if report == OtherReport then Err(BadReport)
    else if address.value in g.reports && g.reports[address.value] != report then Err(ConflictingReports)
    else Ok(Gathered(g.targets + [address.value], g.reports[address.value := report]))
  }

  function Gather(lib: Library, info: Info, source: string, n: nat): Result<Gathered>
    requires n <= |info.targets|
  {
    if n == 0 then Ok(Gathered([], map[]))
    else
      var g := Gather(lib, info, source, n - 1);
      if g.Err? then g else GatherOne(lib, info, source, g.value, info.targets[n - 1])
  }

  /** The checks before the targets are read; the domain in its canonical form. */
  function CheckSource(lib: Library, item: Observation): Result<Info> {
    if !item.isForwarding || item.forwarding.None? then Err(Incomplete)
    else
      var info := item.forwarding.value;
      var domain := CanonicalDomain(lib, info.domain);
      if domain.None? then Err(BadDomain)
      else if !ValidLocalPart(Lower(info.localPart)) || info.mode == OtherMode then Err(BadSource)
      else if item.remoteKey == "" then Err(NoRemoteKey)
      else if !Names(item.locator.domain, domain.value) then Err(OtherDomain)
      else if !Names(item.locator.mailboxLocalPart, info.localPart) || !Names(item.locator.localPart, info.localPart) then Err(OtherSource)
      else Ok(info.(domain := domain.value))
  }

  function CheckTargets(lib: Library, item: Observation, info: Info, g: Gathered): Result<Info> {
    var named := item.locator.targetAddress;
    if named != "" && NormalizeEmail(lib, named).None? then Err(BadTarget)
    else if named != "" && g.targets != [NormalizeEmail(lib, named).value] then Err(OtherTarget)
    else if g.targets == [] then Err(NoTarget)
    else Ok(info.(targets := Canonical(g.targets), reports := g.reports))
  }

  function Normalize(lib: Library, item: Observation): Result<Info> {
    var checked := CheckSource(lib, item);
    if checked.Err? then checked
    else
      var info := checked.value;
      var g := Gather(lib, info, Source(info, info.domain), |info.targets|);
      if g.Err? then Err(g.error) else CheckTargets(lib, item, info, g.value)
  }

  method NormalizedForwarding(lib: Library, item: Observation) returns (r: Result<Info>)
    ensures r == Normalize(lib, item)
  {
    var checked := CheckSource(lib, item);
    if checked.Err? { return checked; }
    var info := checked.value;
    var source := Source(info, info.domain);
    var targets: seq<string>, reports: map<string, Report> := [], map[];
    for i := 0 to |info.targets|
      invariant Gather(lib, info, source, i) == Ok(Gathered(targets, reports))
    {
      var added := GatherOne(lib, info, source, Gathered(targets, reports), info.targets[i]);
      assert Gather(lib, info, source, i + 1) == added;
      if added.Err? {
        GatherStops(lib, info, source, i + 1, |info.targets|);
        return Err(added.error);
      }
      targets, reports := added.value.targets, added.value.reports;
    }
    r := CheckTargets(lib, item, info, Gathered(targets, reports));
  }

  lemma {:induction false} GatherStops(lib: Library, info: Info, source: string, m: nat, n: nat)
    requires m <= n <= |info.targets|
    requires Gather(lib, info, source, m).Err?
    ensures Gather(lib, info, source, n) == Gather(lib, info, source, m)
  {
    if m < n { GatherStops(lib, info, source, m, n - 1); }
  }

  // ----- normal form ----------------------------------------------------------

  lemma {:induction false} LowerAt(s: string, i: nat)
    requires i < |s|
    ensures Lower(s)[i] == LowerChar(s[i])
  {
    if i > 0 { LowerAt(s[1..], i - 1); }
  }

  lemma {:induction false} LowerTwice(s: string)
    ensures Lower(Lower(s)) == Lower(s)
  {
    if s != "" {
      LowerTwice(s[1..]);
      assert Lower(s)[1..] == Lower(s[1..]);
    }
  }

  lemma {:induction false} TrimLeftShape(s: string)
    ensures var t := TrimLeft(s); t == "" || !Space(t[0])
  {
    if s != "" && Space(s[0]) { TrimLeftShape(s[1..]); }
  }

  lemma {:induction false} TrimRightShape(s: string)
    ensures var t := TrimRight(s); t <= s && (t == "" || !Space(t[|t| - 1]))
  {
    if s != "" && Space(s[|s| - 1]) { TrimRightShape(s[..|s| - 1]); }
  }

  lemma FoldedTwice(s: string)
    ensures Folded(Folded(s)) == Folded(s)
  {
    var left := TrimLeft(s);
    var t := TrimRight(left);
    TrimLeftShape(s);
    TrimRightShape(left);
    if t != "" {
      LowerAt(t, 0);
      LowerAt(t, |t| - 1);
      assert TrimRight(TrimLeft(Lower(t))) == Lower(t);
    }
    LowerTwice(t);
  }

  /** The normal form: sorted addresses without duplicates, each normalized, none
      of them the source, each with a report this system knows. */
  ghost predicate Normal(lib: Library, info: Info) {
    && StrictlyAscending(info.targets)
    && info.reports.Keys == Elements(info.targets)
    && info.targets != []
    && forall a | a in info.targets :: NormalizeEmail(lib, a) == Some(a) && a != Source(info, info.domain) && info.reports[a] != OtherReport
  }

  ghost predicate GatheredFrom(lib: Library, info: Info, source: string, n: nat, g: Gathered)
    requires n <= |info.targets|
  {
    && |g.targets| == n && source !in g.targets
    && (forall a :: a in g.reports <==> a in g.targets)
    && forall k | 0 <= k < n :: NormalizeEmail(lib, info.targets[k]) == Some(g.targets[k])
                                && g.reports[g.targets[k]] == ReportOf(info, info.targets[k]) != OtherReport
  }

  lemma GatherOneMeans(lib: Library, info: Info, source: string, n: nat, g: Gathered)
    requires n < |info.targets| && GatheredFrom(lib, info, source, n, g)
    requires GatherOne(lib, info, source, g, info.targets[n]).Ok?
    ensures GatheredFrom(lib, info, source, n + 1, GatherOne(lib, info, source, g, info.targets[n]).value)
  {
    hide NormalizeEmail, ReportOf;
    var h := GatherOne(lib, info, source, g, info.targets[n]).value;
    assert h.targets == g.targets + [h.targets[n]];
    forall k | 0 <= k < n ensures h.targets[k] == g.targets[k] && h.reports[h.targets[k]] == g.reports[g.targets[k]] {
      assert g.targets[k] in g.targets;
    }
  }

  lemma {:induction false} GatherMeans(lib: Library, info: Info, source: string, n: nat)
    requires n <= |info.targets|
    requires Gather(lib, info, source, n).Ok?
    ensures GatheredFrom(lib, info, source, n, Gather(lib, info, source, n).value)
  {
    if n == 0 {
      NothingGathered(lib, info, source);
    } else {
      hide GatherOne, GatheredFrom;
      GatherMeans(lib, info, source, n - 1);
      GatherOneMeans(lib, info, source, n - 1, Gather(lib, info, source, n - 1).value);
    }
  }

  lemma NothingGathered(lib: Library, info: Info, source: string)
    ensures GatheredFrom(lib, info, source, 0, Gathered([], map[]))
  {
    hide NormalizeEmail;
  }

  /** What a normalized resource says: exactly the normalized forms of the
      addresses reported, each with the report given for it. */
  lemma NormalizeMeans(lib: Library, item: Observation)
    requires Normalize(lib, item).Ok?
    ensures item.forwarding.Some? && Normal(lib, Normalize(lib, item).value)
    ensures Carries(lib, item.forwarding.value, Normalize(lib, item).value)
  {
    hide NormalizeEmail, CanonicalDomain, Gather, GatheredFrom, Normal, Carries, Source, Canonical;
    var was, info := item.forwarding.value, CheckSource(lib, item).value;
    var source := Source(info, info.domain);
    GatherMeans(lib, info, source, |info.targets|);
    var g := Gather(lib, info, source, |info.targets|).value;
    CheckSourceMeans(lib, item);
    GatheredIsNormal(lib, was, info, g);
  }

  /** `now` has the addresses of `was` in normal form, each with its report. */
  ghost predicate Carries(lib: Library, was: Info, now: Info) {
    && Some(now.domain) == CanonicalDomain(lib, was.domain) && now.localPart == was.localPart && now.mode == was.mode != OtherMode
    && (forall a :: a in now.targets <==> exists t :: t in was.targets && NormalizeEmail(lib, t) == Some(a))
    && (forall t | t in was.targets :: NormalizeEmail(lib, t).Some? && NormalizeEmail(lib, t).value in now.reports
                                        && now.reports[NormalizeEmail(lib, t).value] == ReportOf(was, t))
  }

  lemma CheckSourceMeans(lib: Library, item: Observation)
    requires CheckSource(lib, item).Ok?
    ensures var was, info := item.forwarding.value, CheckSource(lib, item).value;
            info == was.(domain := info.domain) && Some(info.domain) == CanonicalDomain(lib, was.domain) && was.mode != OtherMode
  {
    hide CanonicalDomain, Source, Lower, ValidLocalPart;
  }

  lemma NormalizedTwice(lib: Library, s: string)
    requires NormalizeEmail(lib, s).Some?
    ensures NormalizeEmail(lib, NormalizeEmail(lib, s).value) == NormalizeEmail(lib, s)
  {
    hide Folded;
    FoldedTwice(s);
  }

  lemma GatheredIsNormal(lib: Library, was: Info, info: Info, g: Gathered)
    requires info == was.(domain := info.domain) && Some(info.domain) == CanonicalDomain(lib, was.domain) && was.mode != OtherMode
    requires GatheredFrom(lib, info, Source(info, info.domain), |info.targets|, g) && g.targets != []
    ensures var now := info.(targets := Canonical(g.targets), reports := g.reports); Normal(lib, now) && Carries(lib, was, now)
  {
    hide NormalizeEmail, CanonicalDomain, Source, Canonical, StrictlyAscending;
    var now := info.(targets := Canonical(g.targets), reports := g.reports);
    CanonicalShape(g.targets);
    forall a ensures a in now.targets <==> a in g.targets {
      assert a in now.targets <==> a in Elements(now.targets);
    }
    assert g.targets[0] in now.targets;
    assert Source(now, now.domain) == Source(info, info.domain) by { SourceOf(now, info, info.domain); }
    forall a ensures a in now.targets <==> exists t :: t in was.targets && NormalizeEmail(lib, t) == Some(a) {
      if a in g.targets {
        var k :| 0 <= k < |g.targets| && g.targets[k] == a;
        assert was.targets[k] in was.targets;
      }
    }
    forall a | a in now.targets ensures NormalizeEmail(lib, a) == Some(a) && now.reports[a] != OtherReport {
      var k :| 0 <= k < |g.targets| && g.targets[k] == a;
      NormalizedTwice(lib, was.targets[k]);
    }
    forall t | t in was.targets
      ensures NormalizeEmail(lib, t).Some? && NormalizeEmail(lib, t).value in now.reports
      ensures now.reports[NormalizeEmail(lib, t).value] == ReportOf(was, t)
    {
      var k :| 0 <= k < |was.targets| && was.targets[k] == t;
      assert g.targets[k] in g.targets;
    }
  }

  lemma SourceOf(a: Info, b: Info, domain: string)
    requires a.localPart == b.localPart
    ensures Source(a, domain) == Source(b, domain)
  {}

  lemma {:induction false} GatherNormal(lib: Library, info: Info, n: nat)
    requires Normal(lib, info) && n <= |info.targets|
    ensures var g := Gather(lib, info, Source(info, info.domain), n);
            g.Ok? && g.value.targets == info.targets[..n] && (forall a :: a in g.value.reports <==> a in info.targets[..n])
            && forall a | a in g.value.reports :: a in info.reports && g.value.reports[a] == info.reports[a]
  {
    hide NormalizeEmail, Source, StrictlyAscending;
    if n > 0 {
      GatherNormal(lib, info, n - 1);
      var t := info.targets[n - 1];
      assert info.targets[..n] == info.targets[..n - 1] + [t];
      assert t in info.targets && t in info.reports.Keys;
    }
  }

  lemma CheckSourceTwice(lib: Library, item: Observation, info: Info)
    requires Settled(lib) && CheckSource(lib, item).Ok?
    requires info.domain == CheckSource(lib, item).value.domain && info.localPart == item.forwarding.value.localPart
    requires info.mode == item.forwarding.value.mode
    ensures CheckSource(lib, item.(forwarding := Some(info))) == Ok(info)
  {
    hide Folded, Lower, ValidLocalPart;
    var d := item.forwarding.value.domain;
    assert lib.toAscii(Folded(d)) == Some(info.domain);
    assert CanonicalDomain(lib, info.domain) == Some(info.domain);
  }

  /** Normalizing what is already normalized changes nothing. */
  lemma NormalizeTwice(lib: Library, item: Observation)
    requires Settled(lib)
    requires Normalize(lib, item).Ok?
    ensures Normalize(lib, item.(forwarding := Some(Normalize(lib, item).value))) == Normalize(lib, item)
  {
    hide Gather, CheckSource, Source, Canonical, NormalizeEmail, CanonicalDomain, Settled, StrictlyAscending;
    var info := Normalize(lib, item).value;
    NormalizeMeans(lib, item);
    var first := CheckSource(lib, item).value;
    CheckSourceMeans(lib, item);
    CheckSourceTwice(lib, item, info);
    GatherNormal(lib, info, |info.targets|);
    var g := Gather(lib, info, Source(info, info.domain), |info.targets|).value;
    assert info.targets[..|info.targets|] == info.targets;
    assert g == Gathered(info.targets, info.reports) by {
      assert forall a :: a in g.reports <==> a in info.reports.Keys;
      assert g.reports == info.reports;
    }
    CanonicalTwice(info.targets);
    var was := Gather(lib, first, Source(first, first.domain), |first.targets|).value;
    if |was.targets| == 1 { CanonicalOne(was.targets); }
  }

  lemma CanonicalTwice(s: seq<string>)
    requires StrictlyAscending(s)
    ensures Canonical(s) == s
  {
    CanonicalShape(s);
    StrictUnique(Canonical(s), s);
  }

  lemma CanonicalOne(s: seq<string>)
    requires |s| == 1
    ensures Canonical(s) == s
  {
    CanonicalTwice(s);
  }
}
