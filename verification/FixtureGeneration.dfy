/**
 `generateFixture`: canned responses for the endpoints, drawn from entity pools that are
 memoised by schema name, and one value per schema for the forms. The schema generator, the
 faker hints and the seed hash are parameters.
 */
module FixtureGeneration {
  import opened Wrappers
  import opened SchemaInlining
  import opened StableSort

  const LIST_SIZE: nat := 8

  datatype Endpoint = Endpoint(httpMethod: string, path: string, responseSchema: Option<Json>)

  /** `hint` is withFakerHints, `generate` the seeded generator, `seed` entitySeed. */
  datatype Generator = Generator(hint: Json -> Json, generate: (Json, int) -> Json, seed: (string, nat) -> int)

  function Upper(s: string): string {
    if s == "" then ""
    else [if 'a' <= s[0] <= 'z' then (s[0] as int - 32) as char else s[0]] + Upper(s[1..])
  }

  function Key(e: Endpoint): string {
    Upper(e.httpMethod) + " " + e.path
  }

  predicate IsArrayShape(schema: Json) {
    schema.Obj? && (Get(schema.fields, "type") == Some(Str("array")) || Get(schema.fields, "items").Some?)
  }

  function Entity(g: Generator, schemas: Schemas, node: Json, discriminator: string, index: nat): Json {
    g.generate(g.hint(Dereference(node, schemas, {})), g.seed(discriminator, index))
  }

  /** The pool of `name`, computed afresh from the node that refers to it. */
  function FreshPool(g: Generator, schemas: Schemas, name: string, node: Json): (r: seq<Json>)
    ensures |r| == LIST_SIZE
  {
    seq(LIST_SIZE, i requires 0 <= i < LIST_SIZE => Entity(g, schemas, node, name, i))
  }

  function SetField(fields: seq<Field>, key: string, value: Json): seq<Field> {
    if fields == [] then [Field(key, value)]
    else if fields[0].key == key then [Field(key, value)] + fields[1..]
    else [fields[0]] + SetField(fields[1..], key, value)
  }

  /** `{ ...schema, minItems: LIST_SIZE, maxItems: LIST_SIZE }` */
  function Sized(schema: Json): Json
    requires schema.Obj?
  {
    Obj(SetField(SetField(schema.fields, "minItems", Num("8")), "maxItems", Num("8")))
  }

  /** The node whose pool an endpoint with this response schema draws from, if any. */
  function PoolNode(schema: Json): Option<Json> {
    var node := if IsArrayShape(schema) then Get(schema.fields, "items") else Some(schema);
    if node.Some? && IsRef(LOCAL, node.value) then node else None
  }

  /** The response of one endpoint, with no memory of any other endpoint. */
  function ResponseOf(g: Generator, schemas: Schemas, key: string, schema: Json): Json {
    match PoolNode(schema)
    case Some(node) =>
      var pool := FreshPool(g, schemas, RefTarget(LOCAL, node).value, node);
      if IsArrayShape(schema) then Arr(pool) else pool[0]
    case None =>
      Entity(g, schemas, if IsArrayShape(schema) then Sized(schema) else schema, key, 0)
  }

  function UsedBy(schema: Json): set<string> {
    match PoolNode(schema)
    case Some(node) => {RefTarget(LOCAL, node).value}
    case None => {}
  }

  /** The responses of a list of endpoints, a later one replacing an earlier one of its key. */
  function Responses(g: Generator, schemas: Schemas, endpoints: seq<Endpoint>): map<string, Json> {
    if endpoints == [] then map[]
    else
      var earlier, e := Responses(g, schemas, endpoints[..|endpoints| - 1]), endpoints[|endpoints| - 1];
      match e.responseSchema
      case None => earlier
      case Some(schema) => earlier[Key(e) := ResponseOf(g, schemas, Key(e), schema)]
  }

  function UsedRefs(endpoints: seq<Endpoint>): set<string> {
    if endpoints == [] then {}
    else
      var earlier, e := UsedRefs(endpoints[..|endpoints| - 1]), endpoints[|endpoints| - 1];
      match e.responseSchema
      case None => earlier
      case Some(schema) => earlier + UsedBy(schema)
  }

  /** A named schema list as a table, a later entry replacing an earlier one of its name. */
  function Table(named: seq<(string, Json)>): Schemas {
    if named == [] then map[] else Table(named[..|named| - 1])[named[|named| - 1].0 := named[|named| - 1].1]
  }

  function FormOf(g: Generator, schemas: Schemas, name: string, schema: Json): Json {
    Entity(g, schemas, schema, "form:" + name, 0)
  }

  function Forms(g: Generator, schemas: Schemas, named: seq<(string, Json)>): map<string, Json> {
    if named == [] then map[]
    else
      var earlier, last := Forms(g, schemas, named[..|named| - 1]), named[|named| - 1];
      var value := FormOf(g, schemas, last.0, last.1);
      if value.Obj? then earlier[last.0 := value] else earlier
  }

  // ---- memoisation ------------------------------------------------------------------------

  /** A pool depends on the name alone: any two nodes that refer to it give the same pool. */
  lemma PoolOfAnyCaller(g: Generator, schemas: Schemas, name: string, node: Json, other: Json)
    requires Refers(LOCAL, node, name) && Refers(LOCAL, other, name)
    ensures FreshPool(g, schemas, name, node) == FreshPool(g, schemas, name, other)
  {
    assert Dereference(node, schemas, {}) == Dereference(other, schemas, {});
  }

  function RefNode(name: string): Json {
    Obj([Field(REF, Str(LOCAL + name))])
  }

  lemma RefNodeRefers(name: string)
    requires name != ""
    ensures Refers(LOCAL, RefNode(name), name)
  {
    assert (LOCAL + name)[|LOCAL|..] == name;
  }

  /** The `pools` and `usedSchemaRefs` that poolFor reads and writes. */
  class PoolCache {
    const g: Generator
    const schemas: Schemas
    var pools: map<string, seq<Json>>
    var used: set<string>

    /** What is remembered is what would be computed now. */
    ghost predicate Coherent()
      reads this
    {
      forall name :: name in pools ==> name != "" && pools[name] == FreshPool(g, schemas, name, RefNode(name))
    }

    constructor (g: Generator, schemas: Schemas)
      ensures Coherent() && this.g == g && this.schemas == schemas
      ensures used == {} && pools == map[]
    {
      this.g, this.schemas := g, schemas;
      pools, used := map[], {};
    }

    method PoolFor(name: string, node: Json) returns (pool: seq<Json>)
      requires Coherent() && Refers(LOCAL, node, name)
      modifies this
      ensures Coherent()
      ensures pool == FreshPool(g, schemas, name, node)
      ensures used == old(used) + {name}
    {
      RefNodeRefers(name);
      PoolOfAnyCaller(g, schemas, name, node, RefNode(name));
      if name in pools {
        pool := pools[name];
      } else {
        pool := FreshPool(g, schemas, name, node);
        pools := pools[name := pool];
      }
      used := used + {name};
    }

    /** The body of the loop over the endpoints, for one that has a response schema. */
    method Respond(key: string, schema: Json) returns (response: Json)
      requires Coherent()
      modifies this
      ensures Coherent()
      ensures response == ResponseOf(g, schemas, key, schema)
      ensures used == old(used) + UsedBy(schema)
    {
      if IsArrayShape(schema) {
        var items := Get(schema.fields, "items");
        if items.Some? && IsRef(LOCAL, items.value) {
          var pool := PoolFor(RefTarget(LOCAL, items.value).value, items.value);
          response := Arr(pool);
        } else {
          response := Entity(g, schemas, Sized(schema), key, 0);
        }
      } else if IsRef(LOCAL, schema) {
        var pool := PoolFor(RefTarget(LOCAL, schema).value, schema);
        response := pool[0];
      } else {
        response := Entity(g, schemas, schema, key, 0);
      }
    }
  }

  // ---- the sorted list of names -----------------------------------------------------------

  /** The order `Array.prototype.sort` gives strings without a comparator. */
  predicate StringAtMost(a: string, b: string) {
    a == "" || (b != "" && (a[0] < b[0] || (a[0] == b[0] && StringAtMost(a[1..], b[1..]))))
  }

  lemma {:induction false} StringsCompare(a: string, b: string)
    ensures StringAtMost(a, b) || StringAtMost(b, a)
    ensures StringAtMost(a, b) && StringAtMost(b, a) ==> a == b
  {
    if a != "" && b != "" && a[0] == b[0] {
      StringsCompare(a[1..], b[1..]);
      assert a == [a[0]] + a[1..] && b == [b[0]] + b[1..];
    }
  }

  lemma {:induction false} StringsChain(a: string, b: string, c: string)
    requires StringAtMost(a, b) && StringAtMost(b, c)
    ensures StringAtMost(a, c)
  {
    if a != "" && b != "" && c != "" && a[0] == b[0] == c[0] {
      StringsChain(a[1..], b[1..], c[1..]);
    }
  }

  lemma StringsArePreordered()
    ensures IsTotalPreorder(StringAtMost)
  {
    forall a, b
      ensures StringAtMost(a, b) || StringAtMost(b, a)
    {
      StringsCompare(a, b);
    }
    forall a, b, c | StringAtMost(a, b) && StringAtMost(b, c)
      ensures StringAtMost(a, c)
    {
      StringsChain(a, b, c);
    }
  }

  /** The names in order, each once. */
  ghost predicate IsListOf(list: seq<string>, names: set<string>) {
    && (forall name :: name in list <==> name in names)
    && forall i, j :: 0 <= i < j < |list| ==> StringAtMost(list[i], list[j]) && list[i] != list[j]
  }

  /** There is only one such list. */
  lemma {:induction false} ListIsUnique(a: seq<string>, b: seq<string>, names: set<string>)
    requires IsListOf(a, names) && IsListOf(b, names)
    ensures a == b
    decreases |a|
  {
    if a == [] {
      assert names == {};
      FirstIsName(b, names);
    } else {
      assert a[0] in names && a[0] in b;
      assert b[0] in names && b[0] in a;
      StringsCompare(a[0], b[0]);
      RestIsList(a, names);
      RestIsList(b, names);
      ListIsUnique(a[1..], b[1..], names - {a[0]});
      assert a == [a[0]] + a[1..] && b == [b[0]] + b[1..];
    }
  }

  lemma FirstIsName(list: seq<string>, names: set<string>)
    requires IsListOf(list, names)
    ensures list != [] ==> names != {}
  {
    if list != [] {
      assert list[0] in list;
    }
  }

  lemma RestIsList(list: seq<string>, names: set<string>)
    requires list != [] && IsListOf(list, names)
    ensures IsListOf(list[1..], names - {list[0]})
  {
    assert list == [list[0]] + list[1..];
  }

  lemma OneMoreName(all: seq<string>, name: string)
    requires name !in all && forall i, j :: 0 <= i < j < |all| ==> all[i] != all[j]
    ensures forall x :: x in all + [name] <==> x in all || x == name
    ensures forall i, j :: 0 <= i < j < |all + [name]| ==> (all + [name])[i] != (all + [name])[j]
  {
    assert forall i :: 0 <= i < |all| ==> all[i] in all;
  }

  method SortNames(names: set<string>) returns (list: seq<string>)
    ensures IsListOf(list, names)
  {
    var left, all := names, [];
    while left != {}
      invariant left <= names
      invariant forall name :: name in all ==> name in names && name !in left
      invariant forall name :: name in names ==> name in all || name in left
      invariant forall i, j :: 0 <= i < j < |all| ==> all[i] != all[j]
      decreases |left|
    {
      var name :| name in left;
      OneMoreName(all, name);
      all, left := all + [name], left - {name};
    }
    list := SortedBy(all, StringAtMost);
    StringsArePreordered();
    SortedByIsSorted(all, StringAtMost);
    SortedStaysDistinct(all, list);
  }

  lemma SortedStaysDistinct(all: seq<string>, list: seq<string>)
    requires multiset(all) == multiset(list)
    requires forall i, j :: 0 <= i < j < |all| ==> all[i] != all[j]
    ensures forall name :: name in list <==> name in all
    ensures forall i, j :: 0 <= i < j < |list| ==> list[i] != list[j]
  {
    assert forall name :: name in list <==> name in multiset(list);
    assert forall name :: name in all <==> name in multiset(all);
    forall i, j | 0 <= i < j < |list|
      ensures list[i] != list[j]
    {
      if list[i] == list[j] {
        TwiceInList(list, i, j);
        OnceInList(all, list[i]);
      }
    }
  }

  lemma TwiceInList(list: seq<string>, i: nat, j: nat)
    requires i < j < |list| && list[i] == list[j]
    ensures multiset(list)[list[i]] >= 2
  {
    assert list == list[..i] + [list[i]] + list[i + 1..j] + [list[j]] + list[j + 1..];
  }

  lemma {:induction false} OnceInList(all: seq<string>, name: string)
    requires forall i, j :: 0 <= i < j < |all| ==> all[i] != all[j]
    ensures multiset(all)[name] <= 1
  {
    if all != [] {
      OnceInList(all[1..], name);
      assert all == [all[0]] + all[1..];
      if all[0] == name {
        assert name !in all[1..];
      }
    }
  }

  // ---- the whole fixture ------------------------------------------------------------------

  datatype Fixture = Fixture(
    id: string,
    name: string,
    seed: string,
    createdAt: string,
    schemaRefs: seq<string>,
    responses: map<string, Json>,
    forms: map<string, Json>
  )

  /** The fixture of these endpoints and schemas, with no memory between the endpoints. */
  ghost predicate IsFixtureOf(f: Fixture, g: Generator, named: seq<(string, Json)>, endpoints: seq<Endpoint>) {
    && f.responses == Responses(g, Table(named), endpoints)
    && f.forms == Forms(g, Table(named), named)
    && IsListOf(f.schemaRefs, UsedRefs(endpoints) + f.forms.Keys)
  }

  method GenerateFixture(g: Generator, named: seq<(string, Json)>, endpoints: seq<Endpoint>,
                         name: string, seed: string, createdAt: string, slugify: string -> string)
    returns (f: Fixture)
    ensures IsFixtureOf(f, g, named, endpoints)
    ensures f.id == slugify(name) && f.name == name && f.seed == seed && f.createdAt == createdAt
  {
    var schemas := Table(named);
    var cache := new PoolCache(g, schemas);
    var responses: map<string, Json> := map[];
    for i := 0 to |endpoints|
      invariant cache.Coherent() && cache.g == g && cache.schemas == schemas
      invariant responses == Responses(g, schemas, endpoints[..i])
      invariant cache.used == UsedRefs(endpoints[..i])
    {
      var e := endpoints[i];
      assert endpoints[..i + 1][..i] == endpoints[..i];
      if e.responseSchema.Some? {
        var response := cache.Respond(Key(e), e.responseSchema.value);
        responses := responses[Key(e) := response];
      }
    }
    assert endpoints[..|endpoints|] == endpoints;
    var forms: map<string, Json>, schemaRefs := map[], cache.used;
    for i := 0 to |named|
      invariant forms == Forms(g, schemas, named[..i])
      invariant schemaRefs == UsedRefs(endpoints) + forms.Keys
    {
      assert named[..i + 1][..i] == named[..i];
      var value := FormOf(g, schemas, named[i].0, named[i].1);
      if value.Obj? {
        forms := forms[named[i].0 := value];
        schemaRefs := schemaRefs + {named[i].0};
      }
    }
    assert named[..|named|] == named;
    var refs := SortNames(schemaRefs);
    f := Fixture(slugify(name), name, seed, createdAt, refs, responses, forms);
  }

  // ---- order ------------------------------------------------------------------------------

  /** No two different endpoints share a key. */
  predicate OneEndpointPerKey(endpoints: seq<Endpoint>) {
    forall d, e :: d in endpoints && e in endpoints && Key(d) == Key(e) ==> d == e
  }

  lemma {:induction false} ResponsesKeys(g: Generator, schemas: Schemas, endpoints: seq<Endpoint>, key: string)
    requires key in Responses(g, schemas, endpoints)
    ensures exists e :: (e in endpoints && Key(e) == key && e.responseSchema.Some?
      && Responses(g, schemas, endpoints)[key] == ResponseOf(g, schemas, key, e.responseSchema.value))
  {
    var n := |endpoints| - 1;
    var last := endpoints[n];
    if last.responseSchema.None? || Key(last) != key {
      ResponsesKeys(g, schemas, endpoints[..n], key);
    }
  }

  lemma {:induction false} ResponsesHave(g: Generator, schemas: Schemas, endpoints: seq<Endpoint>, e: Endpoint)
    requires e in endpoints && e.responseSchema.Some?
    ensures Key(e) in Responses(g, schemas, endpoints)
  {
    var n := |endpoints| - 1;
    if endpoints[n] != e {
      ResponsesHave(g, schemas, endpoints[..n], e);
    }
  }

  lemma {:induction false} UsedRefsAre(endpoints: seq<Endpoint>, name: string)
    ensures name in UsedRefs(endpoints) <==>
      exists e :: e in endpoints && e.responseSchema.Some? && name in UsedBy(e.responseSchema.value)
  {
    if endpoints != [] {
      var n := |endpoints| - 1;
      UsedRefsAre(endpoints[..n], name);
      assert endpoints == endpoints[..n] + [endpoints[n]];
    }
  }

  /** Responses and used schema names depend on which endpoints there are, not on their order
      or number, whatever pools were filled first. */
  lemma OrderIrrelevant(g: Generator, schemas: Schemas, a: seq<Endpoint>, b: seq<Endpoint>)
    requires OneEndpointPerKey(a) && forall e :: e in a <==> e in b
    ensures Responses(g, schemas, a) == Responses(g, schemas, b)
    ensures UsedRefs(a) == UsedRefs(b)
  {
    SameResponses(g, schemas, a, b);
    SameResponses(g, schemas, b, a);
    forall name ensures name in UsedRefs(a) <==> name in UsedRefs(b) {
      UsedRefsAre(a, name);
      UsedRefsAre(b, name);
    }
  }

  /** Two endpoints may be swapped exactly when they do not compete for one key with two
      different responses. */
  lemma SwapIff(g: Generator, schemas: Schemas, a: Endpoint, b: Endpoint)
    ensures Responses(g, schemas, [a, b]) == Responses(g, schemas, [b, a]) <==>
            || a.responseSchema.None? || b.responseSchema.None? || Key(a) != Key(b)
            || ResponseOf(g, schemas, Key(a), a.responseSchema.value) == ResponseOf(g, schemas, Key(b), b.responseSchema.value)
  {
    OneAfterAnother(g, schemas, a, b);
    OneAfterAnother(g, schemas, b, a);
    if a.responseSchema.Some? && b.responseSchema.Some? {
      var x, y := ResponseOf(g, schemas, Key(a), a.responseSchema.value), ResponseOf(g, schemas, Key(b), b.responseSchema.value);
      TwoWrites(Key(a), x, Key(b), y);
    }
  }

  lemma TwoWrites(k: string, x: Json, l: string, y: Json)
    ensures map[k := x][l := y] == map[l := y][k := x] <==> k != l || x == y
  {
    assert map[k := x][l := y][l] == y && map[l := y][k := x][k] == x;
  }

  lemma OneAfterAnother(g: Generator, schemas: Schemas, a: Endpoint, b: Endpoint)
    ensures var first := if a.responseSchema.None? then map[]
                         else map[Key(a) := ResponseOf(g, schemas, Key(a), a.responseSchema.value)];
            Responses(g, schemas, [a, b]) ==
              if b.responseSchema.None? then first
              else first[Key(b) := ResponseOf(g, schemas, Key(b), b.responseSchema.value)]
  {
    assert [a, b][..1] == [a] && [a][..0] == [];
    assert Responses(g, schemas, []) == map[];
  }

  /** Two fixtures of the same endpoints, in whatever order, have the same content. */
  lemma FixtureIgnoresOrder(g: Generator, named: seq<(string, Json)>, a: seq<Endpoint>, b: seq<Endpoint>, f: Fixture, h: Fixture)
    requires OneEndpointPerKey(a) && forall e :: e in a <==> e in b
    requires IsFixtureOf(f, g, named, a) && IsFixtureOf(h, g, named, b)
    ensures f.responses == h.responses && f.forms == h.forms && f.schemaRefs == h.schemaRefs
  {
    OrderIrrelevant(g, Table(named), a, b);
    ListIsUnique(f.schemaRefs, h.schemaRefs, UsedRefs(a) + f.forms.Keys);
  }

  lemma SameResponses(g: Generator, schemas: Schemas, a: seq<Endpoint>, b: seq<Endpoint>)
    requires OneEndpointPerKey(a) && forall e :: e in a <==> e in b
    ensures forall key :: key in Responses(g, schemas, a) ==>
      key in Responses(g, schemas, b) && Responses(g, schemas, a)[key] == Responses(g, schemas, b)[key]
  {
    forall key | key in Responses(g, schemas, a)
      ensures key in Responses(g, schemas, b) && Responses(g, schemas, a)[key] == Responses(g, schemas, b)[key]
    {
      ResponsesKeys(g, schemas, a, key);
      var e :| e in a && Key(e) == key && e.responseSchema.Some?
        && Responses(g, schemas, a)[key] == ResponseOf(g, schemas, key, e.responseSchema.value);
      ResponsesHave(g, schemas, b, e);
      ResponsesKeys(g, schemas, b, key);
    }
  }

  /** A list and an item endpoint of one schema agree: the item is the list's first entity. */
  lemma ItemIsHeadOfList(g: Generator, schemas: Schemas, endpoints: seq<Endpoint>, item: Endpoint, list: Endpoint, name: string)
    requires OneEndpointPerKey(endpoints) && item in endpoints && list in endpoints
    requires item.responseSchema.Some? && !IsArrayShape(item.responseSchema.value)
    requires Refers(LOCAL, item.responseSchema.value, name)
    requires list.responseSchema.Some? && IsArrayShape(list.responseSchema.value)
    requires Get(list.responseSchema.value.fields, "items").Some?
    requires Refers(LOCAL, Get(list.responseSchema.value.fields, "items").value, name)
    ensures var r := Responses(g, schemas, endpoints);
      && Key(item) in r && Key(list) in r
      && r[Key(list)].Arr? && |r[Key(list)].elems| == LIST_SIZE
      && r[Key(item)] == r[Key(list)].elems[0]
  {
    ResponsesHave(g, schemas, endpoints, item);
    ResponsesKeys(g, schemas, endpoints, Key(item));
    ResponsesHave(g, schemas, endpoints, list);
    ResponsesKeys(g, schemas, endpoints, Key(list));
    PoolOfAnyCaller(g, schemas, name, item.responseSchema.value, Get(list.responseSchema.value.fields, "items").value);
  }
}
