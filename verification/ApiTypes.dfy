/** The generator of TypeScript declarations: the walk over the graph of Go types,
    and the choice among fields that share a JSON name. */
module ApiTypes {

  import opened Wrappers

  type TypeId = nat

  /** One struct field: `name` is the Go name, `json` the name in the tag. */
  datatype Field = Field(
    name: string, embedded: bool, exported: bool, omitted: bool, json: string, quoted: bool, optional: bool, override: string, typ: TypeId)

  datatype Shape =
    | Bool | Integer(byte: bool) | Float | String | Interface | Pointer(elem: TypeId) | List(elem: TypeId)
    | Map(key: TypeId, elem: TypeId) | Struct(fields: seq<Field>) | Unsupported

  /** How a type is rendered before its kind is looked at. */
  datatype Special = Plain | Time | RawJson | CustomJson | Enum(values: seq<string>)

  datatype GoType = GoType(name: string, special: Special, shape: Shape)
  type Graph = seq<GoType>

  function At(graph: Graph, t: TypeId): GoType {
    if t < |graph| then graph[t] else GoType("", Plain, Unsupported)
  }

  /** A rendered type. `Ref` also records the Go type it stands for. */
  datatype Ts =
    | Word(word: string) | Raw(text: string) | Ref(name: string, typ: TypeId) | OrNull(of: Ts) | ArrayOf(of: Ts) | Record(of: Ts)
    | Choice(values: seq<string>) | Object(members: seq<Candidate>)

  datatype Candidate = Candidate(name: string, expr: Ts, optional: bool, depth: nat)

  /** `None` is a declaration whose name is reserved while its body is rendered. */
  datatype Decl = Decl(owner: TypeId, body: Option<Ts>)

  datatype Generator = Generator(names: map<TypeId, string>, decls: map<string, Decl>, failed: bool)

  const NEW := Generator(map[], map[], false)

  // ----- names ------------------------------------------------------------------

  datatype Declared = Declared(g: Generator, name: string, isNew: bool)

  function Declare(g: Generator, t: TypeId, own: string): Declared {
    if t in g.names then Declared(g, g.names[t], g.names[t] !in g.decls)
    else Declared(g.(names := g.names[t := own], failed := g.failed || own in g.names.Values), own, true)
  }

  function Rename(g: Generator, t: TypeId, name: string): Generator {
    g.(names := g.names[t := name], failed := g.failed || name in g.names.Values)
  }

  function Write(g: Generator, name: string, decl: Decl): Generator {
    g.(decls := g.decls[name := decl])
  }

  function Fail(g: Generator): Generator {
    g.(failed := true)
  }

  // ----- which fields survive -----------------------------------------------------

  /** Candidate `i` is alone at the least depth of its name. */
  predicate Alone(all: seq<Candidate>, i: nat)
    requires i < |all|
  {
    forall j | 0 <= j < |all| && j != i && all[j].name == all[i].name :: all[j].depth > all[i].depth
  }

  /** The survivors among the first `n` candidates, in declaration order. */
  function Survivors(all: seq<Candidate>, n: nat): seq<Candidate>
    requires n <= |all|
  {
    if n == 0 then [] else Survivors(all, n - 1) + if Alone(all, n - 1) then [all[n - 1]] else []
  }

  function CountAt(all: seq<Candidate>, name: string, depth: nat): nat {
    if all == [] then 0
    else CountAt(all[..|all| - 1], name, depth) + if all[|all| - 1].name == name && all[|all| - 1].depth == depth then 1 else 0
  }

  ghost predicate Least(all: seq<Candidate>, name: string, depth: nat) {
    && (exists i :: 0 <= i < |all| && all[i].name == name && all[i].depth == depth)
    && forall i | 0 <= i < |all| && all[i].name == name :: depth <= all[i].depth
  }

  /** The table entry of a name after the candidates `all`. */
  ghost predicate Entry(all: seq<Candidate>, name: string, shallowest: map<string, nat>, count: map<string, nat>) {
    if name in shallowest
    then name in count && Least(all, name, shallowest[name]) && count[name] == CountAt(all, name, shallowest[name])
    else forall k | 0 <= k < |all| :: all[k].name != name
  }

  method Tally(all: seq<Candidate>) returns (shallowest: map<string, nat>, count: map<string, nat>)
    ensures forall name :: Entry(all, name, shallowest, count)
  {
    shallowest, count := map[], map[];
    for i := 0 to |all|
      invariant forall name :: Entry(all[..i], name, shallowest, count)
    {
      var c := all[i];
      ghost var depths, counts := shallowest, count;
      assert Entry(all[..i], c.name, depths, counts);
      if c.name !in shallowest || c.depth < shallowest[c.name] {
        shallowest, count := shallowest[c.name := c.depth], count[c.name := 0];
      }
      if c.depth == shallowest[c.name] {
        count := count[c.name := count[c.name] + 1];
      }
      ghost var now := all[..i + 1];
      assert now == all[..i] + [c];
      forall name ensures Entry(now, name, shallowest, count) {
        assert Entry(all[..i], name, depths, counts);
        EntryGrows(all[..i], c, name, depths, counts, shallowest, count);
      }
    }
    assert all[..|all|] == all;
  }

  method SelectFields(all: seq<Candidate>) returns (out: seq<Candidate>)
    ensures out == Survivors(all, |all|)
  {
    var shallowest, count := Tally(all);
    out := [];
    for i := 0 to |all|
      invariant out == Survivors(all, i)
    {
      var c := all[i];
      assert Entry(all, c.name, shallowest, count);
      AloneIsCounted(all, i, shallowest[c.name]);
      if c.depth == shallowest[c.name] && count[c.name] == 1 {
        out := out + [c];
      }
    }
  }

  lemma EntryGrows(all: seq<Candidate>, c: Candidate, name: string,
                   depths: map<string, nat>, counts: map<string, nat>, shallowest: map<string, nat>, count: map<string, nat>)
    requires Entry(all, name, depths, counts)
    requires name != c.name ==> (name in depths <==> name in shallowest) && (name in depths && name in counts ==> name in count && shallowest[name] == depths[name] && count[name] == counts[name])
    requires name == c.name ==> name in shallowest && name in count
    requires name == c.name ==>
               if name !in depths || c.depth < depths[name] then shallowest[name] == c.depth && count[name] == 1
               else shallowest[name] == depths[name] && name in counts && count[name] == counts[name] + if c.depth == depths[name] then 1 else 0
    ensures Entry(all + [c], name, shallowest, count)
  {
    var now := all + [c];
    assert now[|all|] == c && now[..|now| - 1] == all && forall k | 0 <= k < |all| :: now[k] == all[k];
    if name == c.name && (name !in depths || c.depth < depths[name]) {
      CountNone(all, name, c.depth);
    }
    if name in depths {
      var k :| 0 <= k < |all| && all[k].name == name && all[k].depth == depths[name];
      assert now[k].name == name;
    }
  }

  lemma {:induction false} CountNone(all: seq<Candidate>, name: string, depth: nat)
    requires forall i | 0 <= i < |all| && all[i].name == name :: depth < all[i].depth
    ensures CountAt(all, name, depth) == 0
  {
    if all != [] { CountNone(all[..|all| - 1], name, depth); }
  }

  lemma {:induction false} CountIsOne(all: seq<Candidate>, i: nat)
    requires i < |all|
    ensures CountAt(all, all[i].name, all[i].depth) >= 1
    ensures CountAt(all, all[i].name, all[i].depth) == 1
            <==> forall j | 0 <= j < |all| && j != i && all[j].name == all[i].name :: all[j].depth != all[i].depth
  {
    var last := |all| - 1;
    var init := all[..last];
    if i == last {
      CountIsZero(init, all[i].name, all[i].depth);
    } else {
      CountIsOne(init, i);
      assert forall j | 0 <= j < last :: all[j] == init[j];
    }
  }

  lemma {:induction false} CountIsZero(all: seq<Candidate>, name: string, depth: nat)
    ensures CountAt(all, name, depth) == 0 <==> forall j | 0 <= j < |all| && all[j].name == name :: all[j].depth != depth
  {
    if all != [] {
      var last := |all| - 1;
      CountIsZero(all[..last], name, depth);
      assert forall j | 0 <= j < last :: all[j] == all[..last][j];
    }
  }

  lemma AloneIsCounted(all: seq<Candidate>, i: nat, least: nat)
    requires i < |all| && Least(all, all[i].name, least)
    ensures Alone(all, i) <==> all[i].depth == least && CountAt(all, all[i].name, least) == 1
  {
    CountIsOne(all, i);
    var k :| 0 <= k < |all| && all[k].name == all[i].name && all[k].depth == least;
  }

  /** The positions the survivors come from. */
  ghost function Positions(all: seq<Candidate>, n: nat): seq<nat>
    requires n <= |all|
  {
    if n == 0 then [] else Positions(all, n - 1) + if Alone(all, n - 1) then [n - 1] else []
  }

  /** The survivors are the candidates alone at the least depth of their name: all
      of them, once each, in the order of the candidates. */
  lemma {:induction false} SurvivorsAre(all: seq<Candidate>, n: nat)
    requires n <= |all|
    ensures |Survivors(all, n)| == |Positions(all, n)|
    ensures forall i :: i in Positions(all, n) <==> 0 <= i < n && Alone(all, i)
    ensures forall a | 0 <= a < |Survivors(all, n)| :: Positions(all, n)[a] < n && Survivors(all, n)[a] == all[Positions(all, n)[a]]
    ensures forall a, b | 0 <= a < b < |Survivors(all, n)| :: Positions(all, n)[a] < Positions(all, n)[b]
  {
    if n > 0 {
      hide Alone;
      SurvivorsAre(all, n - 1);
    }
  }

  /** No JSON name is rendered twice. */
  lemma SurvivorNamesDiffer(all: seq<Candidate>, a: nat, b: nat)
    requires a < b < |Survivors(all, |all|)|
    ensures Survivors(all, |all|)[a].name != Survivors(all, |all|)[b].name
  {
    SurvivorsAre(all, |all|);
    var p := Positions(all, |all|);
    assert p[a] in p && p[b] in p && p[a] < p[b];
  }
}
