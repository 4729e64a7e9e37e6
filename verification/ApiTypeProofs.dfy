/** What a generator without errors guarantees: names stand for one type each, and
    every reference leads to the declaration of the type it stands for. */
module ApiTypeProofs {

  import opened Wrappers
  import opened ApiTypes
  import opened ApiTypeWalk

  // ----- the imperative generator -----------------------------------------------

  class ApiGenerator {
    var names: map<TypeId, string>
    var decls: map<string, Decl>
    var failed: bool

    function State(): Generator
      reads this
    {
      Generator(names, decls, failed)
    }

    constructor ()
      ensures State() == NEW
    {
      names, decls, failed := map[], map[], false;
    }

    /** Fails if some type is called `name`, whatever the order of the names. */
    method RefuseSecondUse(name: string)
      modifies this`failed
      ensures failed <==> old(failed) || exists t :: t in names && names[t] == name
    {
      var left := names.Keys;
      while left != {}
        invariant left <= names.Keys
        invariant failed <==> old(failed) || exists t :: t in names.Keys - left && names[t] == name
        decreases |left|
      {
        var other :| other in left;
        if names[other] == name { failed := true; }
        left := left - {other};
      }
    }

    method RenameType(t: TypeId, name: string)
      modifies this
      ensures State() == Rename(old(State()), t, name)
      ensures t in names && names[t] == name && decls == old(decls)
      ensures old(Injective(State())) && !failed ==> Injective(State())
    {
      RefuseSecondUse(name);
      names := names[t := name];
    }

    method DeclareType(t: TypeId, own: string) returns (name: string, isNew: bool)
      modifies this
      ensures Declare(old(State()), t, own) == Declared(State(), name, isNew)
      ensures t in names && names[t] == name && decls == old(decls)
      ensures isNew <==> t !in old(names) || name !in decls
      ensures old(Injective(State())) && !failed ==> Injective(State())
    {
      if t in names { return names[t], names[t] !in decls; }
      RefuseSecondUse(own);
      names := names[t := own];
      return own, true;
    }

    method TypeExpr(graph: Graph, t: TypeId, ghost fuel: nat) returns (ts: Ts)
      requires Expr(graph, State(), t, fuel).Some?
      modifies this
      ensures Expr(graph, old(State()), t, fuel) == Some(Rendered(State(), ts))
      decreases fuel, 0
    {
      match At(graph, t).special
      case Time => return Word("string");
      case RawJson => return Word("unknown");
      case CustomJson =>
        failed := true;
        return Word("unknown");
      case Enum(values) =>
        var name, isNew := DeclareType(t, At(graph, t).name);
        if isNew { decls := decls[name := Decl(t, Some(Choice(values)))]; }
        return Ref(name, t);
      case Plain =>
        match At(graph, t).shape {
          case Bool => return Word("boolean");
          case Integer(_) => return Word("number");
          case Float => return Word("number");
          case String => return Word("string");
          case Interface => return Word("unknown");
          case Pointer(elem) =>
            var inner := TypeExpr(graph, elem, fuel - 1);
            return OrNull(inner);
          case List(elem) =>
            if IsBytes(graph, elem) { return Word("string"); }
            var inner := TypeExpr(graph, elem, fuel - 1);
            return ArrayOf(inner);
          case Map(key, elem) =>
            if !IsKey(graph, key) { failed := true; }
            var inner := TypeExpr(graph, elem, fuel - 1);
            return Record(inner);
          case Struct(fields) =>
            if At(graph, t).name == "" {
              var body := ObjectExpr(graph, t, fuel - 1);
              return body;
            }
            var name, isNew := DeclareType(t, At(graph, t).name);
            if isNew {
              decls := decls[name := Decl(t, None)];
              var body := ObjectExpr(graph, t, fuel - 1);
              decls := decls[name := Decl(t, Some(body))];
            }
            return Ref(name, t);
          case Unsupported =>
            failed := true;
            return Word("unknown");
        }
    }

    method ObjectExpr(graph: Graph, t: TypeId, ghost fuel: nat) returns (ts: Ts)
      requires Walk(graph, State(), FieldsOf(graph, t), |FieldsOf(graph, t)|, 0, fuel).Some?
      modifies this
      ensures var w := Walk(graph, old(State()), FieldsOf(graph, t), |FieldsOf(graph, t)|, 0, fuel).value;
              State() == w.g && ts == ObjectOf(w)
      decreases fuel, 3
    {
      var all := WalkFields(graph, FieldsOf(graph, t), 0, fuel);
      var out := SelectFields(all);
      return Object(out);
    }

    method WalkFields(graph: Graph, fields: seq<Field>, depth: nat, ghost fuel: nat) returns (all: seq<Candidate>)
      requires Walk(graph, State(), fields, |fields|, depth, fuel).Some?
      modifies this
      ensures Walk(graph, old(State()), fields, |fields|, depth, fuel) == Some(Walked(State(), all))
      decreases fuel, 2
    {
      all := [];
      for i := 0 to |fields|
        invariant Walk(graph, old(State()), fields, i, depth, fuel) == Some(Walked(State(), all))
      {
        WalkPrefix(graph, old(State()), fields, i + 1, depth, fuel);
        var f := fields[i];
        if f.omitted { continue; }
        if Flattened(graph, f) {
          var inner := WalkFields(graph, FieldsOf(graph, Target(graph, f)), depth + 1, fuel - 1);
          all := all + inner;
          continue;
        }
        if !f.exported { continue; }
        var expr: Ts;
        if f.override != "" { expr := Raw(f.override); }
        else if f.quoted { expr := Word("string"); }
        else { expr := TypeExpr(graph, Target(graph, f), fuel); }
        all := all + [Candidate(NameOf(f), expr, f.optional, depth)];
      }
    }
  }

  lemma {:induction false} WalkPrefix(graph: Graph, g: Generator, fields: seq<Field>, n: nat, depth: nat, fuel: nat)
    requires n <= |fields| && Walk(graph, g, fields, |fields|, depth, fuel).Some?
    ensures Walk(graph, g, fields, n, depth, fuel).Some?
  {
    WalkStops(graph, g, fields, n, |fields|, depth, fuel);
  }

  lemma {:induction false} WalkStops(graph: Graph, g: Generator, fields: seq<Field>, n: nat, m: nat, depth: nat, fuel: nat)
    requires n <= m <= |fields|
    ensures Walk(graph, g, fields, m, depth, fuel).Some? ==> Walk(graph, g, fields, n, depth, fuel).Some?
  {
    if n < m { WalkStops(graph, g, fields, n, m - 1, depth, fuel); }
  }

  // ----- names and references ------------------------------------------------------

  /** Every reference in `ts` names a declaration of the type it stands for. */
  ghost predicate Leads(decls: map<string, Decl>, ts: Ts) {
    match ts
    case Ref(name, t) => name in decls && decls[name].owner == t
    case OrNull(of) => Leads(decls, of)
    case ArrayOf(of) => Leads(decls, of)
    case Record(of) => Leads(decls, of)
    case Object(members) => forall m | m in members :: Leads(decls, m.expr)
    case _ => true
  }

  /** What the generated file needs, on the file alone: every reference in it leads to
      the declaration of the right type. */
  ghost predicate RightOutput(g: Generator) {
    forall n | n in g.decls && g.decls[n].body.Some? :: Leads(g.decls, g.decls[n].body.value)
  }

  /** In addition, a reference uses the name its type has now. */
  ghost predicate Resolved(g: Generator, ts: Ts) {
    match ts
    case Ref(name, t) => t in g.names && g.names[t] == name && name in g.decls && g.decls[name].owner == t
    case OrNull(of) => Resolved(g, of)
    case ArrayOf(of) => Resolved(g, of)
    case Record(of) => Resolved(g, of)
    case Object(members) => forall m | m in members :: Resolved(g, m.expr)
    case _ => true
  }

  ghost predicate Injective(g: Generator) {
    forall a, b | a in g.names && b in g.names && g.names[a] == g.names[b] :: a == b
  }

  ghost predicate OwnName(g: Generator, n: string)
    requires n in g.decls
  {
    g.decls[n].owner in g.names && g.names[g.decls[n].owner] == n
  }

  /** Every declaration belongs to the type called so, but for those of `base` that a
      late rename left without a type. */
  ghost predicate Owned(g: Generator, base: map<string, Decl>) {
    forall n | n in g.decls :: OwnName(g, n) || (n in base && g.decls[n] == base[n] && n !in g.names.Values)
  }

  ghost predicate Bodies(g: Generator, base: map<string, Decl>) {
    forall n | n in g.decls && g.decls[n].body.Some? :: Resolved(g, g.decls[n].body.value) || (n in base && g.decls[n] == base[n])
  }

  /** Names, owners and references agree, but for the declarations of `base`. */
  ghost predicate Sound(g: Generator, base: map<string, Decl>) {
    Injective(g) && Owned(g, base) && Bodies(g, base)
  }

  /** No declaration is left with only its name reserved. */
  ghost predicate Complete(g: Generator) {
    forall n | n in g.decls :: g.decls[n].body.Some?
  }

  /** `h` continues `g`: names stay, declarations under their owner's name stay, and
      nothing new is left reserved. */
  ghost predicate Continues(g: Generator, h: Generator) {
    && Grows(g, h)
    && (forall n | n in g.decls && OwnName(g, n) :: h.decls[n].owner == g.decls[n].owner && (g.decls[n].body.Some? ==> h.decls[n] == g.decls[n]))
    && (forall n | n in h.decls && h.decls[n].body.None? :: n in g.decls && g.decls[n].body.None?)
  }

  lemma {:induction false} ResolvedLater(g: Generator, h: Generator, ts: Ts)
    requires Grows(g, h) && (forall n | n in g.decls && OwnName(g, n) :: h.decls[n].owner == g.decls[n].owner)
    requires Resolved(g, ts)
    ensures Resolved(h, ts)
    decreases ts
  {
    match ts
    case OrNull(of) => ResolvedLater(g, h, of);
    case ArrayOf(of) => ResolvedLater(g, h, of);
    case Record(of) => ResolvedLater(g, h, of);
    case Object(members) => forall m | m in members ensures Resolved(h, m.expr) { ResolvedLater(g, h, m.expr); }
    case _ =>
  }

  lemma {:induction false} ResolvedLeads(g: Generator, ts: Ts)
    requires Resolved(g, ts)
    ensures Leads(g.decls, ts)
    decreases ts
  {
    match ts
    case OrNull(of) => ResolvedLeads(g, of);
    case ArrayOf(of) => ResolvedLeads(g, of);
    case Record(of) => ResolvedLeads(g, of);
    case Object(members) => forall m | m in members ensures Leads(g.decls, m.expr) { ResolvedLeads(g, m.expr); }
    case _ =>
  }

  lemma ContinuesOn(a: Generator, b: Generator, c: Generator)
    requires Continues(a, b) && Continues(b, c)
    ensures Continues(a, c)
  {
    forall n | n in a.decls && OwnName(a, n)
      ensures c.decls[n].owner == a.decls[n].owner && (a.decls[n].body.Some? ==> c.decls[n] == a.decls[n])
    {
      assert OwnName(b, n);
    }
  }

  /** A type that is declared already is found under its name. */
  lemma FoundAgain(g: Generator, base: map<string, Decl>, t: TypeId, own: string)
    requires Sound(g, base) && !Declare(g, t, own).isNew
    ensures var d := Declare(g, t, own); d.g == g && Resolved(g, Ref(d.name, t))
  {
    hide Bodies;
    assert OwnName(g, g.names[t]);
  }

  /** A new type takes its name, over an abandoned declaration if there is one. */
  lemma ReserveKeeps(g: Generator, base: map<string, Decl>, t: TypeId, own: string, body: Option<Ts>)
    requires Sound(g, base) && Declare(g, t, own).isNew && !Declare(g, t, own).g.failed
    requires body.Some? ==> body.value.Choice?
    ensures var d := Declare(g, t, own); var h := Write(d.g, d.name, Decl(t, body));
            Sound(h, base) && Resolved(h, Ref(d.name, t)) && (body.Some? ==> Continues(g, h))
  {
    hide Resolved, Injective, Owned;
    var d := Declare(g, t, own);
    var h := Write(d.g, d.name, Decl(t, body));
    forall n | n in g.decls && OwnName(g, n) ensures n != d.name { NotAnother(g, t, own, n); }
    assert Grows(g, h);
    forall n | n in h.decls && h.decls[n].body.Some? && n != d.name
      ensures Resolved(h, h.decls[n].body.value) || (n in base && h.decls[n] == base[n])
    {
      if Resolved(g, g.decls[n].body.value) { ResolvedLater(g, h, g.decls[n].body.value); }
    }
    OwnedAfter(g, base, t, own, body);
    NewRef(h, d.name, t);
    if body.Some? { ChoiceResolved(h, body.value); }
  }

  lemma NewRef(h: Generator, name: string, t: TypeId)
    requires t in h.names && h.names[t] == name && name in h.decls && h.decls[name].owner == t
    ensures Resolved(h, Ref(name, t))
  {}

  lemma ChoiceResolved(h: Generator, ts: Ts)
    requires ts.Choice?
    ensures Resolved(h, ts)
  {}

  lemma OwnedAfter(g: Generator, base: map<string, Decl>, t: TypeId, own: string, body: Option<Ts>)
    requires Injective(g) && Owned(g, base) && Declare(g, t, own).isNew && !Declare(g, t, own).g.failed
    ensures var d := Declare(g, t, own); var h := Write(d.g, d.name, Decl(t, body)); Injective(h) && Owned(h, base)
  {
    var d := Declare(g, t, own);
    var h := Write(d.g, d.name, Decl(t, body));
    forall n | n in h.decls && n != d.name ensures OwnName(h, n) || (n in base && h.decls[n] == base[n] && n !in h.names.Values) {
      if OwnName(g, n) { assert OwnName(h, n); }
    }
    assert OwnName(h, d.name);
  }

  lemma ObjectResolved(g: Generator, w: Walked)
    requires forall c | c in w.all :: Resolved(g, c.expr)
    ensures Resolved(g, ObjectOf(w))
  {
    var out := Survivors(w.all, |w.all|);
    SurvivorsAre(w.all, |w.all|);
    forall c | c in out ensures Resolved(g, c.expr) {
      var k :| 0 <= k < |out| && out[k] == c;
      assert w.all[Positions(w.all, |w.all|)[k]] == c;
    }
  }

  lemma FailStays(graph: Graph, g: Generator, t: TypeId, fuel: nat)
    requires Expr(graph, g, t, fuel).Some? && !Expr(graph, g, t, fuel).value.g.failed
    ensures !g.failed
  {
    ExprGrows(graph, g, t, fuel);
  }

  /** Rendering a type without an error keeps every reference right. */
  lemma {:induction false} ExprSound(graph: Graph, g: Generator, base: map<string, Decl>, t: TypeId, fuel: nat)
    requires Sound(g, base) && Expr(graph, g, t, fuel).Some? && !Expr(graph, g, t, fuel).value.g.failed
    ensures var r := Expr(graph, g, t, fuel).value; Sound(r.g, base) && Continues(g, r.g) && Resolved(r.g, r.ts)
    decreases fuel, 0
  {
    hide Sound, Continues;
    Same(g);
    match At(graph, t).special
    case Enum(values) => EnumSound(graph, g, base, t, values, fuel);
    case Plain =>
      match At(graph, t).shape {
        case Pointer(elem) => ExprSound(graph, g, base, elem, fuel - 1);
        case List(elem) => if !IsBytes(graph, elem) { ExprSound(graph, g, base, elem, fuel - 1); }
        case Map(key, elem) =>
          FailStays(graph, OrFail(g, IsKey(graph, key)), elem, fuel - 1);
          ExprSound(graph, g, base, elem, fuel - 1);
        case Struct(fields) =>
          if At(graph, t).name == "" {
            WalkSound(graph, g, base, fields, |fields|, 0, fuel - 1);
            ObjectResolved(Walk(graph, g, fields, |fields|, 0, fuel - 1).value.g, Walk(graph, g, fields, |fields|, 0, fuel - 1).value);
          } else {
            NamedSound(graph, g, base, t, fuel);
          }
        case _ =>
      }
    case _ =>
  }

  lemma Same(g: Generator)
    ensures Continues(g, g)
  {}

  lemma EnumSound(graph: Graph, g: Generator, base: map<string, Decl>, t: TypeId, values: seq<string>, fuel: nat)
    requires Sound(g, base) && fuel > 0 && At(graph, t).special == Enum(values) && !Expr(graph, g, t, fuel).value.g.failed
    ensures var r := Expr(graph, g, t, fuel).value; Sound(r.g, base) && Continues(g, r.g) && Resolved(r.g, r.ts)
  {
    hide Sound, Continues;
    var own := At(graph, t).name;
    if Declare(g, t, own).isNew { ReserveKeeps(g, base, t, own, Some(Choice(values))); }
    else {
      FoundAgain(g, base, t, own);
      Same(g);
    }
  }

  /** A named struct: its name is reserved, its fields rendered, its body written. */
  lemma {:induction false} NamedSound(graph: Graph, g: Generator, base: map<string, Decl>, t: TypeId, fuel: nat)
    requires Sound(g, base) && fuel > 0 && NamedStruct(graph, t)
    requires Expr(graph, g, t, fuel).Some? && !Expr(graph, g, t, fuel).value.g.failed
    ensures var r := Expr(graph, g, t, fuel).value; Sound(r.g, base) && Continues(g, r.g) && Resolved(r.g, r.ts)
    decreases fuel - 1, 3
  {
    hide Sound, Continues, Resolved;
    var fields, own := At(graph, t).shape.fields, At(graph, t).name;
    var d := Declare(g, t, own);
    if d.isNew {
      var started := Write(d.g, d.name, Decl(t, None));
      WalkGrows(graph, started, fields, |fields|, 0, fuel - 1);
      ReserveKeeps(g, base, t, own, None);
      WalkSound(graph, started, base, fields, |fields|, 0, fuel - 1);
      CloseKeeps(g, base, t, own, Walk(graph, started, fields, |fields|, 0, fuel - 1).value);
    } else {
      FoundAgain(g, base, t, own);
      Same(g);
    }
  }

  /** Closing the reserved declaration of `t` after its fields were rendered. */
  lemma CloseKeeps(g: Generator, base: map<string, Decl>, t: TypeId, own: string, w: Walked)
    requires Sound(g, base) && Declare(g, t, own).isNew && !Declare(g, t, own).g.failed
    requires var d := Declare(g, t, own);
             Sound(w.g, base) && Continues(Write(d.g, d.name, Decl(t, None)), w.g)
    requires forall c | c in w.all :: Resolved(w.g, c.expr)
    ensures var d := Declare(g, t, own); var h := Write(w.g, d.name, Decl(t, Some(ObjectOf(w))));
            Sound(h, base) && Continues(g, h) && Resolved(h, Ref(d.name, t))
  {
    hide Resolved, Injective, Owned, Bodies, ObjectOf;
    var d := Declare(g, t, own);
    var started, h := Write(d.g, d.name, Decl(t, None)), Write(w.g, d.name, Decl(t, Some(ObjectOf(w))));
    assert OwnName(started, d.name);
    ObjectResolved(w.g, w);
    ClosedSound(w.g, base, d.name, t, ObjectOf(w));
    NewRef(h, d.name, t);
    forall n | n in g.decls && OwnName(g, n)
      ensures h.decls[n].owner == g.decls[n].owner && (g.decls[n].body.Some? ==> h.decls[n] == g.decls[n])
    {
      NotAnother(g, t, own, n);
      assert OwnName(started, n);
    }
  }

  lemma NotAnother(g: Generator, t: TypeId, own: string, n: string)
    requires Injective(g) && n in g.decls && OwnName(g, n) && Declare(g, t, own).isNew && !Declare(g, t, own).g.failed
    ensures n != Declare(g, t, own).name
  {}

  lemma ClosedSound(g: Generator, base: map<string, Decl>, name: string, t: TypeId, body: Ts)
    requires Sound(g, base) && name in g.decls && g.decls[name].owner == t && t in g.names && g.names[t] == name && Resolved(g, body)
    ensures Sound(Write(g, name, Decl(t, Some(body))), base)
  {
    hide Resolved;
    var h := Write(g, name, Decl(t, Some(body)));
    forall n | n in g.decls && OwnName(g, n) ensures h.decls[n].owner == g.decls[n].owner {}
    ResolvedLater(g, h, body);
    forall n | n in h.decls && h.decls[n].body.Some? ensures Resolved(h, h.decls[n].body.value) || (n in base && h.decls[n] == base[n]) {
      if n != name && Resolved(g, h.decls[n].body.value) { ResolvedLater(g, h, h.decls[n].body.value); }
    }
    forall n | n in h.decls ensures OwnName(h, n) || (n in base && h.decls[n] == base[n] && n !in h.names.Values) {
      if n != name && OwnName(g, n) { assert OwnName(h, n); }
    }
  }

  lemma {:induction false} WalkSound(graph: Graph, g: Generator, base: map<string, Decl>, fields: seq<Field>, n: nat, depth: nat, fuel: nat)
    requires n <= |fields| && Sound(g, base)
    requires Walk(graph, g, fields, n, depth, fuel).Some? && !Walk(graph, g, fields, n, depth, fuel).value.g.failed
    ensures var w := Walk(graph, g, fields, n, depth, fuel).value;
            Sound(w.g, base) && Continues(g, w.g) && forall c | c in w.all :: Resolved(w.g, c.expr)
    decreases fuel, 1, n
  {
    hide Sound, Continues, Resolved;
    if n == 0 { Same(g); }
    else {
      var before, after := Walk(graph, g, fields, n - 1, depth, fuel).value, Walk(graph, g, fields, n, depth, fuel).value;
      var f := fields[n - 1];
      AddFieldGrows(graph, before, f, depth, fuel);
      WalkSound(graph, g, base, fields, n - 1, depth, fuel);
      AddFieldSound(graph, before, base, f, depth, fuel);
      ContinuesOn(g, before.g, after.g);
    }
  }

  lemma AddFieldGrows(graph: Graph, w: Walked, f: Field, depth: nat, fuel: nat)
    requires AddField(graph, w, f, depth, fuel).Some?
    ensures w.g.failed ==> AddField(graph, w, f, depth, fuel).value.g.failed
  {
    if !f.omitted {
      if Flattened(graph, f) {
        var inner := FieldsOf(graph, Target(graph, f));
        WalkGrows(graph, w.g, inner, |inner|, depth + 1, fuel - 1);
      } else if f.exported && f.override == "" && !f.quoted {
        ExprGrows(graph, w.g, Target(graph, f), fuel);
      }
    }
  }

  lemma {:induction false} AddFieldSound(graph: Graph, w: Walked, base: map<string, Decl>, f: Field, depth: nat, fuel: nat)
    requires Sound(w.g, base) && forall c | c in w.all :: Resolved(w.g, c.expr)
    requires AddField(graph, w, f, depth, fuel).Some? && !AddField(graph, w, f, depth, fuel).value.g.failed
    ensures var v := AddField(graph, w, f, depth, fuel).value;
            Sound(v.g, base) && Continues(w.g, v.g) && forall c | c in v.all :: Resolved(v.g, c.expr)
    decreases fuel, 1, 0
  {
    hide Sound, Continues;
    Same(w.g);
    var v := AddField(graph, w, f, depth, fuel).value;
    if !f.omitted {
      if Flattened(graph, f) {
        var inner := FieldsOf(graph, Target(graph, f));
        WalkSound(graph, w.g, base, inner, |inner|, depth + 1, fuel - 1);
        AllResolvedLater(w.g, v.g, w.all);
      } else if f.exported && f.override == "" && !f.quoted {
        ExprSound(graph, w.g, base, Target(graph, f), fuel);
        AllResolvedLater(w.g, v.g, w.all);
      }
    }
  }

  lemma AllResolvedLater(g: Generator, h: Generator, all: seq<Candidate>)
    requires Continues(g, h) && forall c | c in all :: Resolved(g, c.expr)
    ensures forall c | c in all :: Resolved(h, c.expr)
  {
    forall c | c in all ensures Resolved(h, c.expr) { ResolvedLater(g, h, c.expr); }
  }

  // ----- a whole run -----------------------------------------------------------------

  /** `Add` of a struct (pointers to it are taken off before), and `Rename`. */
  datatype Step = Add(root: TypeId) | Name(t: TypeId, name: string)

  function Take(graph: Graph, g: Generator, step: Step, fuel: nat): Option<Generator> {
    match step
    case Name(t, name) => Some(Rename(g, t, name))
    case Add(root) =>
      if !At(graph, root).shape.Struct? || At(graph, root).name == "" then Some(Fail(g))
      else
        var r := Expr(graph, g, root, fuel);
        if r.None? then None else Some(r.value.g)
  }

  function Run(graph: Graph, g: Generator, steps: seq<Step>, fuel: nat): Option<Generator>
    decreases steps
  {
    if steps == [] then Some(g)
    else
      var h := Take(graph, g, steps[0], fuel);
      if h.None? then None else Run(graph, h.value, steps[1..], fuel)
  }

  predicate IsDeclared(g: Generator, t: TypeId) {
    t in g.names && g.names[t] in g.decls
  }

  /** Every rename comes before the declaration of its type. */
  predicate Early(graph: Graph, g: Generator, steps: seq<Step>, fuel: nat)
    requires Run(graph, g, steps, fuel).Some?
    decreases steps
  {
    steps == []
    || ((steps[0].Name? ==> !IsDeclared(g, steps[0].t))
        && Early(graph, Take(graph, g, steps[0], fuel).value, steps[1..], fuel))
  }

  lemma TakeFails(graph: Graph, g: Generator, step: Step, fuel: nat)
    requires Take(graph, g, step, fuel).Some? && g.failed
    ensures Take(graph, g, step, fuel).value.failed
  {
    if step.Add? && Expr(graph, g, step.root, fuel).Some? { ExprGrows(graph, g, step.root, fuel); }
  }

  lemma {:induction false} RunFails(graph: Graph, g: Generator, steps: seq<Step>, fuel: nat)
    requires Run(graph, g, steps, fuel).Some? && g.failed
    ensures Run(graph, g, steps, fuel).value.failed
    decreases steps
  {
    if steps != [] {
      TakeFails(graph, g, steps[0], fuel);
      RunFails(graph, Take(graph, g, steps[0], fuel).value, steps[1..], fuel);
    }
  }

  lemma {:induction false} EarlySound(graph: Graph, g: Generator, steps: seq<Step>, fuel: nat)
    requires Sound(g, map[]) && Complete(g)
    requires Run(graph, g, steps, fuel).Some? && !Run(graph, g, steps, fuel).value.failed && Early(graph, g, steps, fuel)
    ensures Sound(Run(graph, g, steps, fuel).value, map[]) && Complete(Run(graph, g, steps, fuel).value)
    decreases steps
  {
    hide Sound;
    if steps != [] {
      var h := Take(graph, g, steps[0], fuel).value;
      if h.failed { RunFails(graph, h, steps[1..], fuel); }
      match steps[0] {
        case Name(t, name) => EarlyRenameKeeps(g, t, name);
        case Add(root) => ExprSound(graph, g, map[], root, fuel);
      }
      EarlySound(graph, h, steps[1..], fuel);
    }
  }

  lemma EarlyRenameKeeps(g: Generator, t: TypeId, name: string)
    requires Sound(g, map[]) && Complete(g) && !IsDeclared(g, t) && !Rename(g, t, name).failed
    ensures Sound(Rename(g, t, name), map[]) && Complete(Rename(g, t, name))
  {
    var h := Rename(g, t, name);
    forall n | n in h.decls ensures OwnName(h, n) { assert OwnName(g, n); }
    forall n | n in h.decls && h.decls[n].body.Some? ensures Resolved(h, h.decls[n].body.value) {
      UntouchedResolved(g, t, name, h.decls[n].body.value);
    }
  }

  lemma {:induction false} UntouchedResolved(g: Generator, t: TypeId, name: string, ts: Ts)
    requires !IsDeclared(g, t) && Resolved(g, ts)
    ensures Resolved(Rename(g, t, name), ts)
    decreases ts
  {
    match ts
    case OrNull(of) => UntouchedResolved(g, t, name, of);
    case ArrayOf(of) => UntouchedResolved(g, t, name, of);
    case Record(of) => UntouchedResolved(g, t, name, of);
    case Object(members) => forall m | m in members ensures Resolved(Rename(g, t, name), m.expr) { UntouchedResolved(g, t, name, m.expr); }
    case _ =>
  }

  /** Renames and roots in any order, no type renamed after its declaration, no error:
      every name stands for one type, every declaration has its body and belongs to
      the type called so, and every reference leads to the right declaration. */
  lemma SourceIsSound(graph: Graph, steps: seq<Step>, fuel: nat)
    requires Run(graph, NEW, steps, fuel).Some? && !Run(graph, NEW, steps, fuel).value.failed && Early(graph, NEW, steps, fuel)
    ensures var g := Run(graph, NEW, steps, fuel).value;
            && Injective(g) && Complete(g) && RightOutput(g)
            && forall n | n in g.decls :: g.decls[n].owner in g.names && g.names[g.decls[n].owner] == n
  {
    EarlySound(graph, NEW, steps, fuel);
    var g := Run(graph, NEW, steps, fuel).value;
    forall n | n in g.decls && g.decls[n].body.Some? ensures Leads(g.decls, g.decls[n].body.value) {
      ResolvedLeads(g, g.decls[n].body.value);
    }
    forall n | n in g.decls ensures g.decls[n].owner in g.names && g.names[g.decls[n].owner] == n { assert OwnName(g, n); }
  }

  // ----- a late rename -------------------------------------------------------------

  ghost predicate Mentions(ts: Ts, name: string, t: TypeId) {
    match ts
    case Ref(n, u) => n == name && u == t
    case OrNull(of) => Mentions(of, name, t)
    case ArrayOf(of) => Mentions(of, name, t)
    case Record(of) => Mentions(of, name, t)
    case Object(members) => exists m :: m in members && Mentions(m.expr, name, t)
    case _ => false
  }

  /** Another declaration refers to `t` by the name `t` has. */
  ghost predicate IsReferred(g: Generator, t: TypeId)
    requires t in g.names
  {
    exists n :: n in g.decls && n != g.names[t] && g.decls[n].body.Some? && Mentions(g.decls[n].body.value, g.names[t], t)
  }

  /** References of the old declarations, seen after the rename and some more roots. */
  lemma {:induction false} OldReferences(g: Generator, t: TypeId, name: string, r: Generator, ts: Ts)
    requires Sound(g, map[]) && IsDeclared(g, t) && Continues(Rename(g, t, name), r) && Resolved(g, ts)
    ensures Leads(r.decls, ts) <==> (r.decls[g.names[t]].owner == t || !Mentions(ts, g.names[t], t))
    decreases ts
  {
    hide Sound;
    var n := g.names[t];
    assert n in g.decls && Rename(g, t, name).decls == g.decls;
    match ts
    case Ref(x, u) => if u != t { assert OwnName(Rename(g, t, name), x); }
    case OrNull(of) => OldReferences(g, t, name, r, of);
    case ArrayOf(of) => OldReferences(g, t, name, r, of);
    case Record(of) => OldReferences(g, t, name, r, of);
    case Object(members) =>
      forall m | m in members ensures Leads(r.decls, m.expr) <==> (r.decls[n].owner == t || !Mentions(m.expr, n, t)) {
        OldReferences(g, t, name, r, m.expr);
      }
    case _ =>
  }

  lemma RenamedSound(g: Generator, t: TypeId, name: string)
    requires Sound(g, map[]) && !Rename(g, t, name).failed && IsDeclared(g, t)
    ensures Sound(Rename(g, t, name), g.decls)
  {
    hide Resolved;
    var h := Rename(g, t, name);
    forall n | n in h.decls ensures OwnName(h, n) || n !in h.names.Values {
      assert OwnName(g, n);
    }
  }

  lemma {:induction false} AddsContinue(graph: Graph, g: Generator, base: map<string, Decl>, steps: seq<Step>, fuel: nat)
    requires Sound(g, base) && forall s | s in steps :: s.Add?
    requires Run(graph, g, steps, fuel).Some? && !Run(graph, g, steps, fuel).value.failed
    ensures Sound(Run(graph, g, steps, fuel).value, base) && Continues(g, Run(graph, g, steps, fuel).value)
    decreases steps
  {
    hide Sound, Continues;
    if steps == [] { Same(g); }
    else {
      var h := Take(graph, g, steps[0], fuel).value;
      if h.failed { RunFails(graph, h, steps[1..], fuel); }
      ExprSound(graph, g, base, steps[0].root, fuel);
      AddsContinue(graph, h, base, steps[1..], fuel);
      ContinuesOn(g, h, Run(graph, h, steps[1..], fuel).value);
    }
  }

  /** The abandoned declaration is still that of `t` unless another type took its name. */
  lemma TakenIff(g: Generator, t: TypeId, name: string, r: Generator)
    requires Sound(g, map[]) && IsDeclared(g, t) && !Rename(g, t, name).failed
    requires Sound(r, g.decls) && Continues(Rename(g, t, name), r)
    ensures r.decls[g.names[t]].owner == t <==> g.names[t] !in r.names.Values
  {
    hide Bodies;
    var n := g.names[t];
    assert n in r.decls && r.names[t] == name && name != n;
    assert OwnName(g, n);
  }

  lemma OwnerOf(g: Generator, t: TypeId)
    requires Injective(g) && IsDeclared(g, t) && OwnName(g, g.names[t])
    ensures g.decls[g.names[t]].owner == t
  {}

  /** A type renamed after its declaration, then more roots, no error: a reference of
      the output goes wrong if and only if another declaration already refers to the
      type by its old name and a type added later takes that name. */
  lemma LateRenameIsSafeIff(graph: Graph, g: Generator, t: TypeId, name: string, steps: seq<Step>, fuel: nat)
    requires Sound(g, map[]) && Complete(g) && IsDeclared(g, t) && forall s | s in steps :: s.Add?
    requires var r := Run(graph, Rename(g, t, name), steps, fuel); r.Some? && !r.value.failed
    ensures var r := Run(graph, Rename(g, t, name), steps, fuel).value;
            RightOutput(r) <==> !(IsReferred(g, t) && g.names[t] in r.names.Values)
  {
    hide Injective, Leads, Mentions, Resolved;
    var h, n := Rename(g, t, name), g.names[t];
    var r := Run(graph, h, steps, fuel).value;
    if h.failed { RunFails(graph, h, steps, fuel); }
    RenamedSound(g, t, name);
    AddsContinue(graph, h, g.decls, steps, fuel);
    TakenIff(g, t, name, r);
    forall x | x in g.decls ensures Leads(r.decls, g.decls[x].body.value) <==> (r.decls[n].owner == t || !Mentions(g.decls[x].body.value, n, t)) {
      assert g.decls[x].body.Some?;
      OldReferences(g, t, name, r, g.decls[x].body.value);
    }
    forall x | x in g.decls && x != n ensures r.decls[x] == g.decls[x] { OthersStay(g, t, name, r, x); }
    if !(IsReferred(g, t) && n in r.names.Values) {
      forall x | x in r.decls && r.decls[x].body.Some? ensures Leads(r.decls, r.decls[x].body.value) {
        if Resolved(r, r.decls[x].body.value) { ResolvedLeads(r, r.decls[x].body.value); }
        else {
          assert x in g.decls && r.decls[x] == g.decls[x];
          if x == n { assert OwnName(g, n); OwnerOf(g, t); }
        }
      }
    }
  }

  lemma OthersStay(g: Generator, t: TypeId, name: string, r: Generator, x: string)
    requires Sound(g, map[]) && Complete(g) && IsDeclared(g, t) && Continues(Rename(g, t, name), r)
    requires x in g.decls && x != g.names[t]
    ensures r.decls[x] == g.decls[x]
  {
    hide Bodies, Injective;
    assert OwnName(g, x);
    assert OwnName(Rename(g, t, name), x);
  }

  /** Two packages with a type T, and U with a field of the first T. */
  const CLASH: Graph := [
    GoType("T", Plain, Struct([])),
    GoType("U", Plain, Struct([PLAIN.(name := "X", typ := 0)])),
    GoType("T", Plain, Struct([]))]

  lemma EmptyStruct(g: Generator, t: TypeId, fuel: nat)
    requires fuel > 0 && t in {0, 2} && t !in g.names
    ensures Expr(CLASH, g, t, fuel) == Some(Rendered(Write(Declare(g, t, "T").g, "T", Decl(t, Some(Object([])))), Ref("T", t)))
  {
    var d := Declare(g, t, "T");
    var started := Write(d.g, "T", Decl(t, None));
    assert At(CLASH, t) == GoType("T", Plain, Struct([]));
    assert Walk(CLASH, started, [], 0, 0, fuel - 1) == Some(Walked(started, []));
    assert ObjectOf(Walked(started, [])) == Object([]);
    assert Write(started, "T", Decl(t, Some(Object([])))) == Write(d.g, "T", Decl(t, Some(Object([]))));
  }

  const USING_T := Object([Candidate("X", Ref("T", 0), false, 0)])

  const WITH_U := Generator(map[1 := "U", 0 := "T"], map["T" := Decl(0, Some(Object([]))), "U" := Decl(1, Some(USING_T))], false)

  lemma WalkU(started: Generator, fuel: nat)
    requires fuel > 1 && 0 !in started.names
    ensures Walk(CLASH, started, CLASH[1].shape.fields, 1, 0, fuel)
         == Some(Walked(Write(Declare(started, 0, "T").g, "T", Decl(0, Some(Object([])))), USING_T.members))
  {
    var fields, x := CLASH[1].shape.fields, CLASH[1].shape.fields[0];
    EmptyStruct(started, 0, fuel);
    assert Walk(CLASH, started, fields, 0, 0, fuel) == Some(Walked(started, []));
    assert !Flattened(CLASH, x) && Target(CLASH, x) == 0;
    assert [] + USING_T.members == USING_T.members;
  }

  lemma AddU(fuel: nat)
    requires fuel > 2
    ensures Take(CLASH, NEW, Add(1), fuel) == Some(WITH_U)
  {
    var started := Generator(map[1 := "U"], map["U" := Decl(1, None)], false);
    WalkU(started, fuel - 1);
    var all := USING_T.members;
    assert Alone(all, 0) && Survivors(all, 0) == [];
    assert Survivors(all, 1) == all;
    var names, decls := map[1 := "U"][0 := "T"], map["U" := Decl(1, None)]["T" := Decl(0, Some(Object([])))]["U" := Decl(1, Some(USING_T))];
    assert names == WITH_U.names && decls == WITH_U.decls;
    assert Declare(NEW, 1, "U").g.names == map[1 := "U"];
  }

  /** Adding U, renaming the first T and adding the second ends without an error, and
      the field of U is declared to be the second T. */
  lemma LateRenameMisleads(fuel: nat)
    requires fuel > 2
    ensures var g := Run(CLASH, NEW, [Add(1), Name(0, "V"), Add(2)], fuel); g.Some? && !g.value.failed && !RightOutput(g.value)
  {
    AddU(fuel);
    var a := WITH_U;
    var b := Rename(a, 0, "V");
    EmptyStruct(b, 2, fuel);
    var c := Take(CLASH, b, Add(2), fuel).value;
    var steps := [Add(1), Name(0, "V"), Add(2)];
    assert steps[1..] == [Name(0, "V"), Add(2)] && steps[1..][1..] == [Add(2)] && steps[1..][1..][1..] == [];
    assert Run(CLASH, c, [], fuel) == Some(c);
    assert Run(CLASH, b, [Add(2)], fuel) == Some(c);
    assert Run(CLASH, a, steps[1..], fuel) == Some(c);
    assert c.decls["U"] == Decl(1, Some(USING_T)) && c.decls["T"].owner == 2;
    assert !Leads(c.decls, USING_T.members[0].expr);
  }
}
