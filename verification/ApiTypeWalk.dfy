/** The recursive walk over Go types. `fuel` bounds the depth of nested calls, so
    that running on and on is a value (`None`) one can reason about. */
module ApiTypeWalk {

  import opened Wrappers
  import opened ApiTypes

  datatype Rendered = Rendered(g: Generator, ts: Ts)
  datatype Walked = Walked(g: Generator, all: seq<Candidate>)

  /** The type a field is rendered with: embedded fields lose their pointer. */
  function Target(graph: Graph, f: Field): TypeId {
    if f.embedded && f.json == "" && At(graph, f.typ).shape.Pointer? then At(graph, f.typ).shape.elem else f.typ
  }

  predicate Flattened(graph: Graph, f: Field) {
    f.embedded && f.json == "" && At(graph, Target(graph, f)).shape.Struct?
  }

  function FieldsOf(graph: Graph, t: TypeId): seq<Field> {
    if At(graph, t).shape.Struct? then At(graph, t).shape.fields else []
  }

  predicate IsBytes(graph: Graph, elem: TypeId) {
    At(graph, elem).shape == Integer(true)
  }

  predicate IsKey(graph: Graph, key: TypeId) {
    At(graph, key).shape.String? || At(graph, key).shape.Integer?
  }

  function OrFail(g: Generator, ok: bool): Generator {
    if ok then g else Fail(g)
  }

  function ObjectOf(w: Walked): Ts {
    Object(Survivors(w.all, |w.all|))
  }

  function NameOf(f: Field): string {
    if f.json != "" then f.json else f.name
  }

  function Wrap(r: Option<Rendered>, wrap: Ts -> Ts): Option<Rendered> {
    if r.None? then None else Some(Rendered(r.value.g, wrap(r.value.ts)))
  }

  function Expr(graph: Graph, g: Generator, t: TypeId, fuel: nat): Option<Rendered>
    decreases fuel, 0
  {
    if fuel == 0 then None
    else
      match At(graph, t).special
      case Time => Some(Rendered(g, Word("string")))
      case RawJson => Some(Rendered(g, Word("unknown")))
      case CustomJson => Some(Rendered(Fail(g), Word("unknown")))
      case Enum(values) =>
        var d := Declare(g, t, At(graph, t).name);
        Some(Rendered(if d.isNew then Write(d.g, d.name, Decl(t, Some(Choice(values)))) else d.g, Ref(d.name, t)))
      case Plain =>
        match At(graph, t).shape
        case Bool => Some(Rendered(g, Word("boolean")))
        case Integer(_) => Some(Rendered(g, Word("number")))
        case Float => Some(Rendered(g, Word("number")))
        case String => Some(Rendered(g, Word("string")))
        case Interface => Some(Rendered(g, Word("unknown")))
        case Pointer(elem) => Wrap(Expr(graph, g, elem, fuel - 1), ts => OrNull(ts))
        case List(elem) =>
          if IsBytes(graph, elem) then Some(Rendered(g, Word("string")))
          else Wrap(Expr(graph, g, elem, fuel - 1), ts => ArrayOf(ts))
        case Map(key, elem) => Wrap(Expr(graph, OrFail(g, IsKey(graph, key)), elem, fuel - 1), ts => Record(ts))
        case Struct(fields) =>
          if At(graph, t).name == "" then
            var w := Walk(graph, g, fields, |fields|, 0, fuel - 1);
            if w.None? then None else Some(Rendered(w.value.g, ObjectOf(w.value)))
          else
            var d := Declare(g, t, At(graph, t).name);
            if !d.isNew then Some(Rendered(d.g, Ref(d.name, t)))
            else
              var w := Walk(graph, Write(d.g, d.name, Decl(t, None)), fields, |fields|, 0, fuel - 1);
              if w.None? then None
              else Some(Rendered(Write(w.value.g, d.name, Decl(t, Some(ObjectOf(w.value)))), Ref(d.name, t)))
        case Unsupported => Some(Rendered(Fail(g), Word("unknown")))
  }

  /** The candidates among the first `n` fields. */
  function Walk(graph: Graph, g: Generator, fields: seq<Field>, n: nat, depth: nat, fuel: nat): Option<Walked>
    requires n <= |fields|
    decreases fuel, 2, n
  {
    if n == 0 then Some(Walked(g, []))
    else
      var w := Walk(graph, g, fields, n - 1, depth, fuel);
      if w.None? then None else AddField(graph, w.value, fields[n - 1], depth, fuel)
  }

  function AddField(graph: Graph, w: Walked, f: Field, depth: nat, fuel: nat): Option<Walked>
    decreases fuel, 1
  {
    if f.omitted then Some(w)
    else if Flattened(graph, f) then
      if fuel == 0 then None
      else
        var fields := FieldsOf(graph, Target(graph, f));
        var inner := Walk(graph, w.g, fields, |fields|, depth + 1, fuel - 1);
        if inner.None? then None else Some(Walked(inner.value.g, w.all + inner.value.all))
    else if !f.exported then Some(w)
    else if f.override != "" then Some(w.(all := w.all + [Candidate(NameOf(f), Raw(f.override), f.optional, depth)]))
    else if f.quoted then Some(w.(all := w.all + [Candidate(NameOf(f), Word("string"), f.optional, depth)]))
    else
      var r := Expr(graph, w.g, Target(graph, f), fuel);
      if r.None? then None else Some(Walked(r.value.g, w.all + [Candidate(NameOf(f), r.value.ts, f.optional, depth)]))
  }

  // ----- what calls what ----------------------------------------------------------

  predicate NamedStruct(graph: Graph, t: TypeId) {
    At(graph, t).special.Plain? && At(graph, t).shape.Struct? && At(graph, t).name != ""
  }

  /** A call of the walk: rendering a type, or walking the fields of a struct. */
  datatype Node = Type(typ: TypeId) | Body(typ: TypeId)

  predicate FieldUnfolds(graph: Graph, f: Field, b: Node) {
    && !f.omitted
    && if Flattened(graph, f) then b == Body(Target(graph, f))
       else f.exported && f.override == "" && !f.quoted && b == Type(Target(graph, f))
  }

  /** `a` always calls `b`. */
  predicate Unfolds(graph: Graph, a: Node, b: Node) {
    match a
    case Type(t) =>
      && At(graph, t).special.Plain?
      && (match At(graph, t).shape
          case Pointer(elem) => b == Type(elem)
          case List(elem) => !IsBytes(graph, elem) && b == Type(elem)
          case Map(_, elem) => b == Type(elem)
          case Struct(_) => At(graph, t).name == "" && b == Body(t)
          case _ => false)
    case Body(t) => exists f :: f in FieldsOf(graph, t) && FieldUnfolds(graph, f, b)
  }

  /** A named struct walks its fields when it is met for the first time. */
  predicate Enters(graph: Graph, a: Node, b: Node) {
    a.Type? && NamedStruct(graph, a.typ) && b == Body(a.typ)
  }

  ghost predicate Unfolding(graph: Graph, p: seq<Node>) {
    p != [] && forall i | 0 <= i < |p| - 1 :: Unfolds(graph, p[i], p[i + 1])
  }

  ghost predicate OnCycle(graph: Graph, x: Node) {
    exists p :: Unfolding(graph, p) && |p| > 1 && p[0] == x && p[|p| - 1] == x
  }

  ghost predicate Path(graph: Graph, p: seq<Node>) {
    p != [] && forall i | 0 <= i < |p| - 1 :: Unfolds(graph, p[i], p[i + 1]) || Enters(graph, p[i], p[i + 1])
  }

  ghost predicate Reaches(graph: Graph, a: Node, b: Node) {
    exists p :: Path(graph, p) && p[0] == a && p[|p| - 1] == b
  }

  /** Something reachable from `t` unfolds into itself. */
  ghost predicate CycleBelow(graph: Graph, t: TypeId) {
    exists x :: Reaches(graph, Type(t), x) && OnCycle(graph, x)
  }

  lemma ReachesItself(graph: Graph, a: Node)
    ensures Reaches(graph, a, a)
  {
    assert Path(graph, [a]);
  }

  lemma ReachesOn(graph: Graph, a: Node, b: Node, c: Node)
    requires Reaches(graph, a, b) && (Unfolds(graph, b, c) || Enters(graph, b, c))
    ensures Reaches(graph, a, c)
  {
    hide Unfolds, Enters;
    var p :| Path(graph, p) && p[0] == a && p[|p| - 1] == b;
    var q := p + [c];
    forall i | 0 <= i < |q| - 1 ensures Unfolds(graph, q[i], q[i + 1]) || Enters(graph, q[i], q[i + 1]) {
      if i < |p| - 1 { assert q[i] == p[i] && q[i + 1] == p[i + 1]; }
    }
    assert Path(graph, q) && q[0] == a && q[|q| - 1] == c;
  }

  /** All unfolding from `x` ends within `n` calls, at named structs of `done` only. */
  ghost predicate Ends(graph: Graph, done: set<TypeId>, x: Node, n: nat)
    decreases n
  {
    && n > 0
    && (x.Type? && NamedStruct(graph, x.typ) ==> x.typ in done)
    && forall b | Unfolds(graph, x, b) :: Ends(graph, done, b, n - 1)
  }

  lemma {:induction false} EndsLater(graph: Graph, done: set<TypeId>, x: Node, n: nat, more: set<TypeId>, m: nat)
    requires Ends(graph, done, x, n) && n <= m && done <= more
    ensures Ends(graph, more, x, m)
    decreases n
  {
    hide Unfolds;
    forall b | Unfolds(graph, x, b) ensures Ends(graph, more, b, m - 1) { EndsLater(graph, done, b, n - 1, more, m - 1); }
  }

  /** What ends is on no cycle. */
  lemma {:induction false} EndsAlong(graph: Graph, done: set<TypeId>, p: seq<Node>, n: nat)
    requires Unfolding(graph, p) && Ends(graph, done, p[0], n)
    ensures n >= |p| && Ends(graph, done, p[|p| - 1], n - |p| + 1)
    decreases |p|
  {
    hide Unfolds;
    if |p| > 1 {
      assert Unfolds(graph, p[0], p[1]);
      forall i | 0 <= i < |p[1..]| - 1 ensures Unfolds(graph, p[1..][i], p[1..][i + 1]) { assert Unfolds(graph, p[i + 1], p[i + 2]); }
      EndsAlong(graph, done, p[1..], n - 1);
    }
  }

  lemma {:induction false} EndsOffCycle(graph: Graph, done: set<TypeId>, x: Node, n: nat)
    requires Ends(graph, done, x, n)
    ensures !OnCycle(graph, x)
    decreases n
  {
    if OnCycle(graph, x) {
      var p :| Unfolding(graph, p) && |p| > 1 && p[0] == x && p[|p| - 1] == x;
      EndsAlong(graph, done, p, n);
      EndsOffCycle(graph, done, x, n - |p| + 1);
    }
  }

  /** Nothing is lost: names stay, declarations stay declared, failure stays. */
  ghost predicate Grows(g: Generator, h: Generator) {
    && (forall t | t in g.names :: t in h.names && h.names[t] == g.names[t])
    && g.decls.Keys <= h.decls.Keys
    && (g.failed ==> h.failed)
  }

  lemma {:induction false} ExprGrows(graph: Graph, g: Generator, t: TypeId, fuel: nat)
    requires Expr(graph, g, t, fuel).Some?
    ensures Grows(g, Expr(graph, g, t, fuel).value.g)
    decreases fuel, 0
  {
    if At(graph, t).special.Plain? {
      match At(graph, t).shape
      case Pointer(elem) => ExprGrows(graph, g, elem, fuel - 1);
      case List(elem) => if !IsBytes(graph, elem) { ExprGrows(graph, g, elem, fuel - 1); }
      case Map(key, elem) => ExprGrows(graph, OrFail(g, IsKey(graph, key)), elem, fuel - 1);
      case Struct(fields) =>
        var d := Declare(g, t, At(graph, t).name);
        if At(graph, t).name == "" { WalkGrows(graph, g, fields, |fields|, 0, fuel - 1); }
        else if d.isNew { WalkGrows(graph, Write(d.g, d.name, Decl(t, None)), fields, |fields|, 0, fuel - 1); }
      case _ =>
    }
  }

  lemma {:induction false} WalkGrows(graph: Graph, g: Generator, fields: seq<Field>, n: nat, depth: nat, fuel: nat)
    requires n <= |fields| && Walk(graph, g, fields, n, depth, fuel).Some?
    ensures Grows(g, Walk(graph, g, fields, n, depth, fuel).value.g)
    decreases fuel, 1, n
  {
    if n > 0 {
      WalkGrows(graph, g, fields, n - 1, depth, fuel);
      var w, f := Walk(graph, g, fields, n - 1, depth, fuel).value, fields[n - 1];
      if !f.omitted {
        if Flattened(graph, f) {
          var inner := FieldsOf(graph, Target(graph, f));
          WalkGrows(graph, w.g, inner, |inner|, depth + 1, fuel - 1);
        } else if f.exported && f.override == "" && !f.quoted {
          ExprGrows(graph, w.g, Target(graph, f), fuel);
        }
      }
    }
  }

  // ----- finished walks have no cycle ----------------------------------------------

  /** Everything that was named on the way has been unfolded to its end. */
  ghost predicate Covered(graph: Graph, g: Generator, h: Generator, n: nat) {
    forall u | u in h.names && u !in g.names && NamedStruct(graph, u) :: Ends(graph, h.names.Keys, Body(u), n)
  }

  lemma CoveredOn(graph: Graph, a: Generator, b: Generator, c: Generator, n: nat)
    requires Grows(a, b) && Grows(b, c) && Covered(graph, a, b, n) && Covered(graph, b, c, n)
    ensures Covered(graph, a, c, n)
  {
    hide Ends, NamedStruct;
    forall u | u in c.names && u !in a.names && NamedStruct(graph, u) ensures Ends(graph, c.names.Keys, Body(u), n) {
      if u in b.names { EndsLater(graph, b.names.Keys, Body(u), n, c.names.Keys, n); }
    }
  }

  lemma CoveredLater(graph: Graph, g: Generator, h: Generator, n: nat, m: nat)
    requires Covered(graph, g, h, n) && n <= m
    ensures Covered(graph, g, h, m)
  {
    hide Ends, NamedStruct;
    forall u | u in h.names && u !in g.names && NamedStruct(graph, u) ensures Ends(graph, h.names.Keys, Body(u), m) {
      EndsLater(graph, h.names.Keys, Body(u), n, h.names.Keys, m);
    }
  }

  lemma {:induction false} ExprCovers(graph: Graph, g: Generator, t: TypeId, fuel: nat)
    requires Expr(graph, g, t, fuel).Some?
    ensures var h := Expr(graph, g, t, fuel).value.g;
            Grows(g, h) && Covered(graph, g, h, 2 * fuel) && Ends(graph, h.names.Keys, Type(t), 2 * fuel)
    decreases fuel, 0
  {
    hide Covered, Grows;
    var h := Expr(graph, g, t, fuel).value.g;
    ExprGrows(graph, g, t, fuel);
    if NamedStruct(graph, t) { NamedCovers(graph, g, t, fuel); }
    else if At(graph, t).special.Plain? {
      match At(graph, t).shape
      case Pointer(elem) => InsideCovers(graph, g, elem, fuel - 1);
      case List(elem) => if !IsBytes(graph, elem) { InsideCovers(graph, g, elem, fuel - 1); } else { NothingNamed(graph, g, h, 2 * fuel); }
      case Map(key, elem) =>
        InsideCovers(graph, OrFail(g, IsKey(graph, key)), elem, fuel - 1);
        SameNames(graph, OrFail(g, IsKey(graph, key)), h, g, h, 2 * fuel);
      case Struct(fields) =>
        WalkCovers(graph, g, fields, |fields|, 0, fuel - 1);
        CoveredLater(graph, g, h, 2 * fuel - 2, 2 * fuel);
        BodyEnds(graph, h.names.Keys, t, 2 * fuel - 1);
      case _ => NothingNamed(graph, g, h, 2 * fuel);
    } else { OnlyNamed(graph, g, t, h, 2 * fuel); }
  }

  lemma {:induction false} InsideCovers(graph: Graph, g: Generator, elem: TypeId, fuel: nat)
    requires Expr(graph, g, elem, fuel).Some?
    ensures var h := Expr(graph, g, elem, fuel).value.g;
            Covered(graph, g, h, 2 * fuel + 2) && Ends(graph, h.names.Keys, Type(elem), 2 * fuel + 1)
    decreases fuel, 1
  {
    hide Covered, Grows, Ends;
    ExprCovers(graph, g, elem, fuel);
    var h := Expr(graph, g, elem, fuel).value.g;
    CoveredLater(graph, g, h, 2 * fuel, 2 * fuel + 2);
    EndsLater(graph, h.names.Keys, Type(elem), 2 * fuel, h.names.Keys, 2 * fuel + 1);
  }

  lemma NothingNamed(graph: Graph, g: Generator, h: Generator, n: nat)
    requires h.names == g.names
    ensures Covered(graph, g, h, n)
  {}

  lemma SameNames(graph: Graph, a: Generator, b: Generator, g: Generator, h: Generator, n: nat)
    requires Covered(graph, a, b, n) && a.names == g.names && b.names == h.names
    ensures Covered(graph, g, h, n)
  {}

  lemma OnlyNamed(graph: Graph, g: Generator, t: TypeId, h: Generator, n: nat)
    requires !NamedStruct(graph, t) && forall u | u in h.names && u !in g.names :: u == t
    ensures Covered(graph, g, h, n)
  {}

  lemma BodyEnds(graph: Graph, done: set<TypeId>, t: TypeId, n: nat)
    requires n > 0 && forall f, b | f in FieldsOf(graph, t) && FieldUnfolds(graph, f, b) :: Ends(graph, done, b, n - 1)
    ensures Ends(graph, done, Body(t), n)
  {}

  /** A struct met for the first time has its fields walked, others were covered before. */
  lemma {:induction false} NamedCovers(graph: Graph, g: Generator, t: TypeId, fuel: nat)
    requires NamedStruct(graph, t) && Expr(graph, g, t, fuel).Some?
    ensures var h := Expr(graph, g, t, fuel).value.g;
            Covered(graph, g, h, 2 * fuel) && Ends(graph, h.names.Keys, Type(t), 2 * fuel)
    decreases fuel - 1, 3
  {
    hide Covered, Grows;
    var h, d := Expr(graph, g, t, fuel).value.g, Declare(g, t, At(graph, t).name);
    ExprGrows(graph, g, t, fuel);
    if d.isNew {
      var fields, started := FieldsOf(graph, t), Write(d.g, d.name, Decl(t, None));
      WalkCovers(graph, started, fields, |fields|, 0, fuel - 1);
      WalkGrows(graph, started, fields, |fields|, 0, fuel - 1);
      BodyEnds(graph, h.names.Keys, t, 2 * fuel - 1);
      SameNames(graph, started, Walk(graph, started, fields, |fields|, 0, fuel - 1).value.g, started, h, 2 * fuel - 2);
      FirstCovered(graph, g, started, t, h, 2 * fuel);
    } else { NothingNamed(graph, g, h, 2 * fuel); }
    NamedEnds(graph, g, t, h, fuel);
  }

  lemma NamedEnds(graph: Graph, g: Generator, t: TypeId, h: Generator, fuel: nat)
    requires NamedStruct(graph, t) && Expr(graph, g, t, fuel).Some? && h == Expr(graph, g, t, fuel).value.g && fuel > 0
    ensures Ends(graph, h.names.Keys, Type(t), 2 * fuel)
  {
    var d := Declare(g, t, At(graph, t).name);
    if d.isNew {
      var fields := FieldsOf(graph, t);
      WalkGrows(graph, Write(d.g, d.name, Decl(t, None)), fields, |fields|, 0, fuel - 1);
    }
    assert t in h.names;
  }

  lemma FirstCovered(graph: Graph, g: Generator, started: Generator, t: TypeId, h: Generator, n: nat)
    requires n > 1 && Covered(graph, started, h, n - 2) && Ends(graph, h.names.Keys, Body(t), n - 1)
    requires forall u | u in started.names && u !in g.names :: u == t
    ensures Covered(graph, g, h, n)
  {
    hide Ends, NamedStruct;
    forall u | u in h.names && u !in g.names && NamedStruct(graph, u) ensures Ends(graph, h.names.Keys, Body(u), n) {
      if u in started.names { EndsLater(graph, h.names.Keys, Body(u), n - 1, h.names.Keys, n); }
      else { EndsLater(graph, h.names.Keys, Body(u), n - 2, h.names.Keys, n); }
    }
  }

  lemma {:induction false} WalkCovers(graph: Graph, g: Generator, fields: seq<Field>, n: nat, depth: nat, fuel: nat)
    requires n <= |fields| && Walk(graph, g, fields, n, depth, fuel).Some?
    ensures var h := Walk(graph, g, fields, n, depth, fuel).value.g;
            && Grows(g, h) && Covered(graph, g, h, 2 * fuel)
            && forall f, b | f in fields[..n] && FieldUnfolds(graph, f, b) :: Ends(graph, h.names.Keys, b, 2 * fuel)
    decreases fuel, 2, n
  {
    hide Ends, Covered, Grows, FieldUnfolds;
    if n == 0 { Unchanged(graph, g, 2 * fuel); }
    else {
      var w, f := Walk(graph, g, fields, n - 1, depth, fuel).value, fields[n - 1];
      var h := Walk(graph, g, fields, n, depth, fuel).value.g;
      WalkCovers(graph, g, fields, n - 1, depth, fuel);
      FieldCovers(graph, w, f, depth, fuel);
      CoveredOn(graph, g, w.g, h, 2 * fuel);
      GrowsOn(g, w.g, h);
      forall x, b | x in fields[..n] && FieldUnfolds(graph, x, b) ensures Ends(graph, h.names.Keys, b, 2 * fuel) {
        if x != f {
          assert x in fields[..n - 1];
          MoreNames(w.g, h);
          EndsLater(graph, w.g.names.Keys, b, 2 * fuel, h.names.Keys, 2 * fuel);
        }
      }
    }
  }

  lemma Unchanged(graph: Graph, g: Generator, n: nat)
    ensures Grows(g, g) && Covered(graph, g, g, n)
  {}

  lemma GrowsOn(a: Generator, b: Generator, c: Generator)
    requires Grows(a, b) && Grows(b, c)
    ensures Grows(a, c)
  {}

  lemma MoreNames(g: Generator, h: Generator)
    requires Grows(g, h)
    ensures g.names.Keys <= h.names.Keys
  {}

  lemma {:induction false} FieldCovers(graph: Graph, w: Walked, f: Field, depth: nat, fuel: nat)
    requires AddField(graph, w, f, depth, fuel).Some?
    ensures var h := AddField(graph, w, f, depth, fuel).value.g;
            && Grows(w.g, h) && Covered(graph, w.g, h, 2 * fuel)
            && forall b | FieldUnfolds(graph, f, b) :: Ends(graph, h.names.Keys, b, 2 * fuel)
    decreases fuel, 1
  {
    hide Ends, Covered, Grows;
    Unchanged(graph, w.g, 2 * fuel);
    if !f.omitted {
      if Flattened(graph, f) {
        var inner := FieldsOf(graph, Target(graph, f));
        var h := Walk(graph, w.g, inner, |inner|, depth + 1, fuel - 1).value.g;
        WalkCovers(graph, w.g, inner, |inner|, depth + 1, fuel - 1);
        CoveredLater(graph, w.g, h, 2 * fuel - 2, 2 * fuel);
        assert inner[..|inner|] == inner;
        BodyEnds(graph, h.names.Keys, Target(graph, f), 2 * fuel - 1);
        EndsLater(graph, h.names.Keys, Body(Target(graph, f)), 2 * fuel - 1, h.names.Keys, 2 * fuel);
      } else if f.exported && f.override == "" && !f.quoted {
        ExprCovers(graph, w.g, Target(graph, f), fuel);
      }
    }
  }

  /** After a finished walk of `t`, all that is reachable ends. */
  lemma {:induction false} ReachableEnds(graph: Graph, t: TypeId, done: set<TypeId>, n: nat, p: seq<Node>) returns (m: nat)
    requires Ends(graph, done, Type(t), n) && forall u | u in done && NamedStruct(graph, u) :: Ends(graph, done, Body(u), n)
    requires Path(graph, p) && p[0] == Type(t)
    ensures Ends(graph, done, p[|p| - 1], m)
    decreases |p|
  {
    hide Unfolds;
    if |p| == 1 { m := n; }
    else {
      var q, a, b := p[..|p| - 1], p[|p| - 2], p[|p| - 1];
      forall i | 0 <= i < |q| - 1 ensures Unfolds(graph, q[i], q[i + 1]) || Enters(graph, q[i], q[i + 1]) {
        assert q[i] == p[i] && q[i + 1] == p[i + 1];
      }
      var k := ReachableEnds(graph, t, done, n, q);
      var j := |p| - 2;
      assert Unfolds(graph, p[j], p[j + 1]) || Enters(graph, p[j], p[j + 1]);
      m := if Unfolds(graph, a, b) then k - 1 else n;
    }
  }

  lemma FinishedHasNoCycle(graph: Graph, t: TypeId, fuel: nat)
    requires Expr(graph, NEW, t, fuel).Some?
    ensures !CycleBelow(graph, t)
  {
    hide Ends, OnCycle, Unfolds, Enters;
    var h := Expr(graph, NEW, t, fuel).value.g;
    ExprCovers(graph, NEW, t, fuel);
    forall x | Reaches(graph, Type(t), x) ensures !OnCycle(graph, x) {
      var p :| Path(graph, p) && p[0] == Type(t) && p[|p| - 1] == x;
      var m := ReachableEnds(graph, t, h.names.Keys, 2 * fuel, p);
      EndsOffCycle(graph, h.names.Keys, x, m);
    }
  }

  // ----- walks without a cycle finish -----------------------------------------------

  /** The calls that make calls of their own. */
  ghost function Nodes(graph: Graph): set<Node> {
    (set t: TypeId | 0 <= t < |graph| :: Type(t)) + (set t: TypeId | 0 <= t < |graph| :: Body(t))
  }

  ghost function Everyone(graph: Graph): set<TypeId> {
    set x | x in Nodes(graph) :: x.typ
  }

  lemma OnlyNodesUnfold(graph: Graph, a: Node, b: Node)
    requires Unfolds(graph, a, b)
    ensures a in Nodes(graph)
  {}

  /** Unfolding that does not end within `n` calls has a path of that length. */
  lemma {:induction false} LongPath(graph: Graph, x: Node, n: nat) returns (p: seq<Node>)
    requires !Ends(graph, Everyone(graph), x, n)
    ensures Unfolding(graph, p) && |p| == n + 1 && p[0] == x
    decreases n
  {
    hide Unfolds;
    if n == 0 { p := [x]; }
    else {
      assert x.Type? && NamedStruct(graph, x.typ) ==> x in Nodes(graph);
      var b :| Unfolds(graph, x, b) && !Ends(graph, Everyone(graph), b, n - 1);
      var q := LongPath(graph, b, n - 1);
      p := [x] + q;
      forall i | 0 <= i < |p| - 1 ensures Unfolds(graph, p[i], p[i + 1]) {
        if i > 0 { assert p[i] == q[i - 1] && p[i + 1] == q[i]; }
      }
    }
  }

  lemma {:induction false} Pigeonhole<T>(p: seq<T>, s: set<T>) returns (i: nat, j: nat)
    requires |p| > |s| && forall x | x in p :: x in s
    ensures i < j < |p| && p[i] == p[j]
    decreases |p|
  {
    var last, init := p[|p| - 1], p[..|p| - 1];
    if last in init {
      i :| 0 <= i < |init| && init[i] == last;
      j := |p| - 1;
    } else {
      i, j := Pigeonhole(init, s - {last});
    }
  }

  lemma PathReaches(graph: Graph, a: Node, p: seq<Node>, i: nat)
    requires Unfolding(graph, p) && i < |p| && Reaches(graph, a, p[0])
    ensures Reaches(graph, a, p[i])
    decreases i
  {
    hide Unfolds, Reaches;
    if i > 0 {
      PathReaches(graph, a, p, i - 1);
      assert Unfolds(graph, p[i - 1], p[i - 1 + 1]);
      ReachesOn(graph, a, p[i - 1], p[i]);
    }
  }

  /** More calls than nodes: one comes back to itself. */
  lemma LongPathHasCycle(graph: Graph, p: seq<Node>) returns (i: nat)
    requires Unfolding(graph, p) && |p| == |Nodes(graph)| + 2
    ensures i < |p| && OnCycle(graph, p[i])
  {
    hide Unfolds, Nodes;
    var n, j := |p| - 1, 0;
    forall y | y in p[..n] ensures y in Nodes(graph) {
      var k :| 0 <= k < n && p[k] == y;
      OnlyNodesUnfold(graph, p[k], p[k + 1]);
    }
    i, j := Pigeonhole(p[..n], Nodes(graph));
    var q := p[i..j + 1];
    forall k | 0 <= k < |q| - 1 ensures Unfolds(graph, q[k], q[k + 1]) { assert Unfolds(graph, p[i + k], p[i + k + 1]); }
    assert Unfolding(graph, q) && |q| > 1 && q[0] == p[i] && q[|q| - 1] == p[i];
  }

  lemma AcyclicEnds(graph: Graph, t: TypeId, x: Node)
    requires !CycleBelow(graph, t) && Reaches(graph, Type(t), x)
    ensures Ends(graph, Everyone(graph), x, |Nodes(graph)| + 1)
  {
    hide Unfolds, Reaches, Ends, Nodes, OnCycle;
    if !Ends(graph, Everyone(graph), x, |Nodes(graph)| + 1) {
      var p := LongPath(graph, x, |Nodes(graph)| + 1);
      var i := LongPathHasCycle(graph, p);
      PathReaches(graph, Type(t), p, i);
    }
  }

  /** The named structs still to be declared. */
  ghost function Open(graph: Graph, g: Generator): set<TypeId> {
    set t: TypeId | 0 <= t < |graph| && NamedStruct(graph, t) && !(t in g.names && g.names[t] in g.decls)
  }

  ghost function Budget(graph: Graph, g: Generator, bound: nat): nat {
    |Open(graph, g)| * (bound + 1)
  }

  lemma BudgetShrinks(graph: Graph, g: Generator, h: Generator, bound: nat)
    requires Grows(g, h)
    ensures Budget(graph, h, bound) <= Budget(graph, g, bound)
  {
    assert Open(graph, h) <= Open(graph, g);
    SmallerSet(Open(graph, h), Open(graph, g));
    Times(|Open(graph, h)|, |Open(graph, g)|, bound + 1);
  }

  lemma Times(a: nat, b: nat, c: nat)
    requires a <= b
    ensures a * c <= b * c
  {}

  lemma SmallerSet<T>(a: set<T>, b: set<T>)
    requires a <= b
    ensures |a| <= |b|
  {
    assert b == a + (b - a);
  }

  lemma EnteringPays(graph: Graph, g: Generator, t: TypeId, bound: nat)
    requires t < |graph| && NamedStruct(graph, t) && Declare(g, t, At(graph, t).name).isNew
    ensures var d := Declare(g, t, At(graph, t).name);
            Budget(graph, Write(d.g, d.name, Decl(t, None)), bound) + bound + 1 <= Budget(graph, g, bound)
  {
    var d := Declare(g, t, At(graph, t).name);
    var h := Write(d.g, d.name, Decl(t, None));
    assert Open(graph, h) <= Open(graph, g) - {t};
    assert t in Open(graph, g);
    SmallerSet(Open(graph, h), Open(graph, g) - {t});
    Times(|Open(graph, h)|, |Open(graph, g)| - 1, bound + 1);
    assert (|Open(graph, g)| - 1) * (bound + 1) == |Open(graph, g)| * (bound + 1) - (bound + 1);
  }

  /** All that is reachable from `root` ends within `bound` calls. */
  ghost predicate AllEnd(graph: Graph, root: Node, bound: nat) {
    forall x | Reaches(graph, root, x) :: Ends(graph, Everyone(graph), x, bound)
  }

  /** With enough fuel for every struct still to be declared, the walk finishes. */
  lemma {:induction false} ExprFinishes(graph: Graph, root: Node, bound: nat, g: Generator, t: TypeId, n: nat, fuel: nat)
    requires AllEnd(graph, root, bound) && Reaches(graph, root, Type(t))
    requires Ends(graph, Everyone(graph), Type(t), n) && n <= bound && fuel >= Budget(graph, g, bound) + n
    ensures Expr(graph, g, t, fuel).Some?
    decreases fuel, 0
  {
    hide Budget, AllEnd, Reaches;
    if At(graph, t).special.Plain? {
      match At(graph, t).shape
      case Pointer(elem) =>
        assert Unfolds(graph, Type(t), Type(elem));
        ReachesOn(graph, root, Type(t), Type(elem));
        ExprFinishes(graph, root, bound, g, elem, n - 1, fuel - 1);
      case List(elem) =>
        if !IsBytes(graph, elem) {
          assert Unfolds(graph, Type(t), Type(elem));
          ReachesOn(graph, root, Type(t), Type(elem));
          ExprFinishes(graph, root, bound, g, elem, n - 1, fuel - 1);
        }
      case Map(key, elem) =>
        var h := OrFail(g, IsKey(graph, key));
        BudgetShrinks(graph, g, h, bound);
        assert Unfolds(graph, Type(t), Type(elem));
        ReachesOn(graph, root, Type(t), Type(elem));
        ExprFinishes(graph, root, bound, h, elem, n - 1, fuel - 1);
      case Struct(fields) =>
        assert At(graph, t).name == "" ==> Unfolds(graph, Type(t), Body(t));
        ReachesOn(graph, root, Type(t), Body(t));
        var d := Declare(g, t, At(graph, t).name);
        if At(graph, t).name == "" { WalkFinishes(graph, root, bound, g, t, |fields|, 0, n - 1, fuel - 1); }
        else if d.isNew {
          EnteringPays(graph, g, t, bound);
          BodyAlsoEnds(graph, root, bound, t);
          WalkFinishes(graph, root, bound, Write(d.g, d.name, Decl(t, None)), t, |fields|, 0, bound, fuel - 1);
        }
      case _ =>
    }
  }

  lemma BodyAlsoEnds(graph: Graph, root: Node, bound: nat, t: TypeId)
    requires AllEnd(graph, root, bound) && Reaches(graph, root, Body(t))
    ensures Ends(graph, Everyone(graph), Body(t), bound)
  {}

  lemma {:induction false} WalkFinishes(graph: Graph, root: Node, bound: nat, g: Generator, t: TypeId, n: nat, depth: nat, m: nat, fuel: nat)
    requires AllEnd(graph, root, bound) && Reaches(graph, root, Body(t)) && n <= |FieldsOf(graph, t)|
    requires Ends(graph, Everyone(graph), Body(t), m) && m <= bound && fuel >= Budget(graph, g, bound) + m
    ensures Walk(graph, g, FieldsOf(graph, t), n, depth, fuel).Some?
    decreases fuel, 1, n
  {
    hide Budget, AllEnd, Reaches, Grows;
    if n > 0 {
      var fields := FieldsOf(graph, t);
      WalkFinishes(graph, root, bound, g, t, n - 1, depth, m, fuel);
      WalkGrows(graph, g, fields, n - 1, depth, fuel);
      var w, f := Walk(graph, g, fields, n - 1, depth, fuel).value, fields[n - 1];
      BudgetShrinks(graph, g, w.g, bound);
      if !f.omitted {
        var x := Target(graph, f);
        if Flattened(graph, f) {
          CalledFrom(graph, t, f, Body(x));
          ReachesOn(graph, root, Body(t), Body(x));
          WalkFinishes(graph, root, bound, w.g, x, |FieldsOf(graph, x)|, depth + 1, m - 1, fuel - 1);
        } else if f.exported && f.override == "" && !f.quoted {
          CalledFrom(graph, t, f, Type(x));
          ReachesOn(graph, root, Body(t), Type(x));
          ExprFinishes(graph, root, bound, w.g, x, m - 1, fuel);
        }
      }
    }
  }

  lemma CalledFrom(graph: Graph, t: TypeId, f: Field, b: Node)
    requires f in FieldsOf(graph, t) && FieldUnfolds(graph, f, b)
    ensures Unfolds(graph, Body(t), b)
  {}

  ghost predicate Finishes(graph: Graph, g: Generator, t: TypeId) {
    exists fuel: nat :: Expr(graph, g, t, fuel).Some?
  }

  /** Whatever was declared before. */
  lemma AcyclicFinishes(graph: Graph, g: Generator, t: TypeId)
    requires !CycleBelow(graph, t)
    ensures Finishes(graph, g, t)
  {
    hide Ends, CycleBelow, Budget;
    var bound := |Nodes(graph)| + 1;
    forall x | Reaches(graph, Type(t), x) ensures Ends(graph, Everyone(graph), x, bound) { AcyclicEnds(graph, t, x); }
    ReachesItself(graph, Type(t));
    var fuel := Budget(graph, g, bound) + bound;
    ExprFinishes(graph, Type(t), bound, g, t, bound, fuel);
    assert Expr(graph, g, t, fuel).Some?;
  }

  /** The exact condition under which rendering a type ends: nothing it reaches, by
      pointers, elements, fields and first meetings of named structs, unfolds into
      itself. A cycle through the type of a field that is a named struct is cut. */
  lemma FinishesIffNoCycle(graph: Graph, t: TypeId)
    ensures Finishes(graph, NEW, t) <==> !CycleBelow(graph, t)
  {
    hide CycleBelow;
    if Finishes(graph, NEW, t) {
      var fuel: nat :| Expr(graph, NEW, t, fuel).Some?;
      FinishedHasNoCycle(graph, t, fuel);
    }
    if !CycleBelow(graph, t) { AcyclicFinishes(graph, NEW, t); }
  }

  // ----- an embedded struct is never cut off ----------------------------------------

  const PLAIN := Field("", false, true, false, "", false, false, "", 0)

  /** `type A struct { X *struct{ A } }`: the only cycle passes through field X of the
      named struct A, yet the struct that embeds A unfolds A again and again. */
  const EMBEDDED_CYCLE: Graph := [
    GoType("A", Plain, Struct([PLAIN.(name := "X", typ := 1)])),
    GoType("", Plain, Pointer(2)),
    GoType("", Plain, Struct([PLAIN.(name := "A", embedded := true, typ := 0)]))]

  lemma EmbeddedCycleRunsForever(fuel: nat)
    ensures Expr(EMBEDDED_CYCLE, NEW, 0, fuel).None?
  {
    var p := [Body(0), Type(1), Type(2), Body(2), Body(0)];
    var x, a := EMBEDDED_CYCLE[0].shape.fields[0], EMBEDDED_CYCLE[2].shape.fields[0];
    assert FieldUnfolds(EMBEDDED_CYCLE, x, Type(1)) && FieldUnfolds(EMBEDDED_CYCLE, a, Body(0));
    CalledFrom(EMBEDDED_CYCLE, 0, x, Type(1));
    CalledFrom(EMBEDDED_CYCLE, 2, a, Body(0));
    assert Unfolding(EMBEDDED_CYCLE, p);
    assert OnCycle(EMBEDDED_CYCLE, Body(0));
    ReachesItself(EMBEDDED_CYCLE, Type(0));
    ReachesOn(EMBEDDED_CYCLE, Type(0), Type(0), Body(0));
    assert CycleBelow(EMBEDDED_CYCLE, 0);
    if Expr(EMBEDDED_CYCLE, NEW, 0, fuel).Some? { FinishedHasNoCycle(EMBEDDED_CYCLE, 0, fuel); }
  }
}
