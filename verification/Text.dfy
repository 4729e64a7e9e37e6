/** Sorted string lists: what `sort.Strings`, `uniqueStrings` and
    `sameRoutingTargets` compute, and why a sorted list without duplicates is a
    canonical form for a set of strings. */
module Text {

  // ----- strings.ToLower, on ASCII ------------------------------------------

  function LowerChar(c: char): char {
    if 'A' <= c <= 'Z' then (c as int + 32) as char else c
  }

  function Lower(s: string): (r: string)
    ensures |r| == |s|
  {
    if s == "" then "" else [LowerChar(s[0])] + Lower(s[1..])
  }

  // ----- order ---------------------------------------------------------------

  /** Byte-wise lexicographic order, the order of Go strings. */
  predicate Le(a: string, b: string) {
    a == "" || (b != "" && (a[0] < b[0] || (a[0] == b[0] && Le(a[1..], b[1..]))))
  }

  predicate Lt(a: string, b: string) {
    Le(a, b) && a != b
  }

  lemma {:induction false} LeReflexive(a: string)
    ensures Le(a, a)
  {
    if a != "" { LeReflexive(a[1..]); }
  }

  lemma {:induction false} LeAntisymmetric(a: string, b: string)
    requires Le(a, b) && Le(b, a)
    ensures a == b
  {
    if a != "" {
      LeAntisymmetric(a[1..], b[1..]);
      assert a == [a[0]] + a[1..] && b == [b[0]] + b[1..];
    }
  }

  lemma {:induction false} LeTransitive(a: string, b: string, c: string)
    requires Le(a, b) && Le(b, c)
    ensures Le(a, c)
  {
    if a != "" && a[0] == b[0] == c[0] { LeTransitive(a[1..], b[1..], c[1..]); }
  }

  lemma {:induction false} LeTotal(a: string, b: string)
    ensures Le(a, b) || Le(b, a)
  {
    if a != "" && b != "" && a[0] == b[0] { LeTotal(a[1..], b[1..]); }
  }

  ghost predicate Ascending(s: seq<string>) {
    forall i, j | 0 <= i < j < |s| :: Le(s[i], s[j])
  }

  /** No duplicates and in order: the shape every stored target list has. */
  ghost predicate StrictlyAscending(s: seq<string>) {
    forall i, j | 0 <= i < j < |s| :: Lt(s[i], s[j])
  }

  function Elements(s: seq<string>): set<string> {
    set x | x in s
  }

  // ----- sort.Strings -------------------------------------------------------

  function Insert(x: string, s: seq<string>): (r: seq<string>)
    ensures multiset(r) == multiset{x} + multiset(s)
    ensures Ascending(s) ==> Ascending(r)
  {
    if s == [] then [x]
    else if Le(x, s[0]) then
      assert Ascending(s) ==> Ascending([x] + s) by { InsertFront(x, s); }
      [x] + s
    else
      assert s == [s[0]] + s[1..];
      var t := Insert(x, s[1..]);
      assert Ascending(s) ==> Ascending([s[0]] + t) by {
        if Ascending(s) {
          LeTotal(x, s[0]);
          forall y | y in t ensures Le(s[0], y) {
            assert y in multiset(t);
            assert y == x || y in multiset(s[1..]);
          }
          InsertFrontAll(s[0], t);
        }
      }
      [s[0]] + t
  }

  lemma InsertFrontAll(x: string, s: seq<string>)
    requires Ascending(s) && forall y | y in s :: Le(x, y)
    ensures Ascending([x] + s)
  {
    var r := [x] + s;
    forall i, j | 0 <= i < j < |r| ensures Le(r[i], r[j]) {
      if i == 0 { assert r[j] == s[j - 1]; } else { assert r[i] == s[i - 1] && r[j] == s[j - 1]; }
    }
  }

  lemma InsertFront(x: string, s: seq<string>)
    requires s != [] && Le(x, s[0])
    ensures Ascending(s) ==> Ascending([x] + s)
  {
    if Ascending(s) {
      forall y | y in s ensures Le(x, y) {
        var i :| 0 <= i < |s| && s[i] == y;
        if i > 0 { LeTransitive(x, s[0], s[i]); }
      }
      InsertFrontAll(x, s);
    }
  }

  function Sort(s: seq<string>): (r: seq<string>)
    ensures Ascending(r)
    ensures multiset(r) == multiset(s)
  {
    if s == [] then []
    else
      assert s == [s[0]] + s[1..];
      Insert(s[0], Sort(s[1..]))
  }

  /** The first element is the least, so equal contents start equally. */
  lemma SameFirst(a: seq<string>, b: seq<string>)
    requires Ascending(a) && Ascending(b) && a != [] && b != [] && a[0] in b && b[0] in a
    ensures a[0] == b[0]
  {
    hide Le;
    var i :| 0 <= i < |b| && b[i] == a[0];
    var j :| 0 <= j < |a| && a[j] == b[0];
    if i > 0 && j > 0 { LeAntisymmetric(a[0], b[0]); }
  }

  lemma {:induction false} AscendingUnique(a: seq<string>, b: seq<string>)
    requires Ascending(a) && Ascending(b) && multiset(a) == multiset(b)
    ensures a == b
  {
    hide Le;
    assert |a| == |multiset(a)| == |multiset(b)| == |b|;
    if a != [] {
      assert a[0] in multiset(b) && b[0] in multiset(a);
      SameFirst(a, b);
      var x, p, q := a[0], a[1..], b[1..];
      assert a == [x] + p && b == [x] + q;
      assert multiset(p) == multiset(a) - multiset{x} == multiset(b) - multiset{x} == multiset(q);
      TailAscending(a);
      TailAscending(b);
      AscendingUnique(p, q);
    }
  }

  lemma TailAscending(a: seq<string>)
    requires Ascending(a) && a != []
    ensures Ascending(a[1..])
  {
    hide Le;
    assert forall i | 0 <= i < |a| - 1 :: a[1..][i] == a[i + 1];
  }

  // ----- uniqueStrings ------------------------------------------------------

  /** Drops every element equal to the one kept just before it. */
  function Unique(s: seq<string>): (r: seq<string>) {
    if |s| == 0 then []
    else
      var r := Unique(s[..|s| - 1]);
      if r == [] || r[|r| - 1] != s[|s| - 1] then r + [s[|s| - 1]] else r
  }

  /** `uniqueStrings` compacts its own backing array; the front of the array is
      the result and the rest is left over. */
  method UniqueInPlace(a: array<string>) returns (n: nat)
    modifies a
    ensures n <= a.Length
    ensures a[..n] == Unique(old(a[..]))
  {
    n := 0;
    ghost var was := a[..];
    for i := 0 to a.Length
      invariant n <= i
      invariant a[..n] == Unique(was[..i])
      invariant forall k | i <= k < a.Length :: a[k] == was[k]
    {
      assert was[..i + 1][..i] == was[..i];
      if n == 0 || a[n - 1] != a[i] {
        a[n] := a[i];
        n := n + 1;
      }
    }
    assert was[..a.Length] == was;
  }

  lemma {:induction false} UniqueElements(s: seq<string>)
    ensures forall x :: x in Unique(s) <==> x in s
    ensures s != [] ==> Unique(s) != [] && Unique(s)[|Unique(s)| - 1] == s[|s| - 1]
  {
    if s != [] {
      var init, last := s[..|s| - 1], s[|s| - 1];
      UniqueElements(init);
      assert forall x :: x in s <==> x in init || x == last by { assert s == init + [last]; }
      var r := Unique(init);
      assert forall x :: x in r + [last] <==> x in r || x == last;
    }
  }

  lemma {:induction false} UniqueAscends(s: seq<string>)
    requires Ascending(s)
    ensures StrictlyAscending(Unique(s))
  {
    hide Le;
    if s != [] {
      var init, last := s[..|s| - 1], s[|s| - 1];
      assert Ascending(init) by { assert forall i | 0 <= i < |init| :: init[i] == s[i]; }
      UniqueAscends(init);
      UniqueElements(init);
      if Unique(init) == [] || Unique(init)[|Unique(init)| - 1] != last { AppendAscends(init, last); }
    }
  }

  /** Nothing before the last element equals the new one. */
  lemma AppendAscends(init: seq<string>, last: string)
    requires Ascending(init + [last]) && StrictlyAscending(Unique(init))
    requires forall x :: x in Unique(init) <==> x in init
    requires var r := Unique(init); r != [] ==> r[|r| - 1] != last
    ensures StrictlyAscending(Unique(init) + [last])
  {
    hide Le, Unique;
    var r, s := Unique(init), init + [last];
    var t := r + [last];
    forall i | 0 <= i < |r| ensures Le(r[i], last) {
      assert r[i] in init;
      var p :| 0 <= p < |init| && init[p] == r[i];
      assert s[p] == r[i] && s[|init|] == last;
    }
    forall i, j | 0 <= i < j < |t| ensures Lt(t[i], t[j]) {
      if j == |r| && i < |r| - 1 && r[i] == last {
        assert Lt(r[i], r[|r| - 1]);
        LeAntisymmetric(r[i], r[|r| - 1]);
      }
    }
  }

  lemma UniqueShape(s: seq<string>)
    ensures Elements(Unique(s)) == Elements(s)
    ensures s != [] ==> Unique(s) != [] && Unique(s)[|Unique(s)| - 1] == s[|s| - 1]
    ensures Ascending(s) ==> StrictlyAscending(Unique(s))
  {
    hide Le;
    UniqueElements(s);
    if Ascending(s) { UniqueAscends(s); }
  }

  // ----- canonical lists ----------------------------------------------------

  /** `sort.Strings` then `uniqueStrings`. */
  function Canonical(s: seq<string>): (r: seq<string>) {
    Unique(Sort(s))
  }

  lemma SortElements(s: seq<string>)
    ensures Elements(Sort(s)) == Elements(s)
  {
    forall x ensures x in Sort(s) <==> x in s {
      assert x in Sort(s) <==> x in multiset(Sort(s));
      assert x in s <==> x in multiset(s);
    }
  }

  lemma CanonicalShape(s: seq<string>)
    ensures StrictlyAscending(Canonical(s))
    ensures Elements(Canonical(s)) == Elements(s)
  {
    UniqueShape(Sort(s));
    SortElements(s);
  }

  /** `sameRoutingTargets`: equal after sorting both. */
  predicate SameTargets(a: seq<string>, b: seq<string>) {
    Sort(a) == Sort(b)
  }

  lemma SameTargetsIsPermutation(a: seq<string>, b: seq<string>)
    ensures SameTargets(a, b) <==> multiset(a) == multiset(b)
  {
    if multiset(a) == multiset(b) { AscendingUnique(Sort(a), Sort(b)); }
  }

  /** A strictly ascending list is determined by its elements. */
  lemma {:induction false} StrictUnique(a: seq<string>, b: seq<string>)
    requires StrictlyAscending(a) && StrictlyAscending(b)
    requires Elements(a) == Elements(b)
    ensures a == b
  {
    assert a != [] ==> a[0] in Elements(b);
    assert b != [] ==> b[0] in Elements(a);
    if a != [] {
      assert a[0] in Elements(b) && b[0] in Elements(a);
      var i :| 0 <= i < |b| && b[i] == a[0];
      var j :| 0 <= j < |a| && a[j] == b[0];
      if i > 0 && j > 0 {
        assert Lt(b[0], b[i]) && Lt(a[0], a[j]);
        LeAntisymmetric(a[0], b[0]);
      }
      assert a[0] == b[0];
      forall x ensures x in a[1..] <==> x in b[1..] {
        if x in a[1..] {
          var p :| 1 <= p < |a| && a[p] == x;
          assert Lt(a[0], a[p]) && x in Elements(b);
        }
        if x in b[1..] {
          var p :| 1 <= p < |b| && b[p] == x;
          assert Lt(b[0], b[p]) && x in Elements(a);
        }
      }
      assert Elements(a[1..]) == Elements(b[1..]);
      StrictUnique(a[1..], b[1..]);
      assert a == [a[0]] + a[1..] && b == [b[0]] + b[1..];
    }
  }

  /** On lists without duplicates in order, comparing after sorting is exactly
      set equality, and is the same as comparing the lists. */
  lemma SameTargetsIsSetEquality(a: seq<string>, b: seq<string>)
    requires StrictlyAscending(a) && StrictlyAscending(b)
    ensures SameTargets(a, b) <==> Elements(a) == Elements(b)
    ensures SameTargets(a, b) <==> a == b
  {
    SortFixesAscending(a);
    SortFixesAscending(b);
    if Elements(a) == Elements(b) { StrictUnique(a, b); }
  }

  lemma SortFixesAscending(a: seq<string>)
    requires StrictlyAscending(a)
    ensures Sort(a) == a
  {
    AscendingUnique(Sort(a), a);
  }

  /** Adding one address to a stored list and restoring its shape. */
  lemma AddToCanonical(targets: seq<string>, x: string)
    ensures StrictlyAscending(Canonical(targets + [x]))
    ensures Elements(Canonical(targets + [x])) == Elements(targets) + {x}
  {
    CanonicalShape(targets + [x]);
    assert forall y :: y in targets + [x] <==> y in targets || y == x;
  }

  /** The canonical form depends on the set of elements alone. */
  lemma CanonicalOfSet(a: seq<string>, b: seq<string>)
    requires forall x :: x in a <==> x in b
    ensures Canonical(a) == Canonical(b)
  {
    hide Canonical;
    CanonicalShape(a);
    CanonicalShape(b);
    assert Elements(a) == Elements(b);
    StrictUnique(Canonical(a), Canonical(b));
  }
}
