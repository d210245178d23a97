/**
 Schemas as JSON trees: `dereferenceSchema`, which inlines named schemas and breaks cycles,
 and `rewriteRefs`, which moves OpenAPI references to the local convention.
 */
module SchemaInlining {
  import opened Wrappers

  datatype Field = Field(key: string, value: Json)

  /** Numbers are kept as their text. */
  datatype Json =
    | Null
    | Bool(b: bool)
    | Num(text: string)
    | Str(s: string)
    | Arr(elems: seq<Json>)
    | Obj(fields: seq<Field>)

  type Schemas = map<string, Json>

  const LOCAL := "#/schemas/"
  const OPENAPI := "#/components/schemas/"
  const REF := "$ref"

  /** `{ type: 'object' }`, the stand-in for a missing or repeated schema. */
  const FALLBACK := Obj([Field("type", Str("object"))])

  function Get(fields: seq<Field>, key: string): Option<Json> {
    if fields == [] then None
    else if fields[0].key == key then Some(fields[0].value)
    else Get(fields[1..], key)
  }

  /** The keys of every object are distinct, as they are in JavaScript. */
  predicate Proper(node: Json) {
    match node
    case Arr(elems) => forall i :: 0 <= i < |elems| ==> Proper(elems[i])
    case Obj(fields) =>
      && (forall i :: 0 <= i < |fields| ==> Proper(fields[i].value))
      && (forall i, j :: 0 <= i < j < |fields| ==> fields[i].key != fields[j].key)
    case _ => true
  }

  lemma {:induction false} GetAt(fields: seq<Field>, i: nat)
    requires i < |fields| && forall j, k :: 0 <= j < k < |fields| ==> fields[j].key != fields[k].key
    ensures Get(fields, fields[i].key) == Some(fields[i].value)
  {
    if i > 0 {
      GetAt(fields[1..], i - 1);
    }
  }

  /** What follows `prefix` in a string value. */
  function AfterPrefix(prefix: string, v: Option<Json>): Option<string> {
    if v.Some? && v.value.Str? && prefix <= v.value.s then Some(v.value.s[|prefix|..]) else None
  }

  /** `refTarget`, for references that start with `prefix`. */
  function RefTarget(prefix: string, node: Json): Option<string> {
    if node.Obj? then AfterPrefix(prefix, Get(node.fields, REF)) else None
  }

  /** The name a node refers to; an empty name is falsy and does not count. */
  predicate Refers(prefix: string, node: Json, name: string) {
    RefTarget(prefix, node) == Some(name) && name != ""
  }

  predicate IsRef(prefix: string, node: Json) {
    RefTarget(prefix, node).Some? && RefTarget(prefix, node).value != ""
  }

  /** Inlining of references that start with `prefix`. `seen` holds the names on the current
      chain of references, so a schema is never inlined inside itself. */
  function Inline(prefix: string, node: Json, schemas: Schemas, seen: set<string>): Json
    decreases schemas.Keys - seen, node, 1
  {
    match node
    case Arr(elems) => Arr(InlineElems(prefix, elems, schemas, seen))
    case Obj(fields) =>
      if IsRef(prefix, node) then
        var name := RefTarget(prefix, node).value;
        if name in seen || name !in schemas then FALLBACK
        else
          assert name in schemas.Keys - seen && name !in schemas.Keys - (seen + {name});
          Inline(prefix, schemas[name], schemas, seen + {name})
      else
        Obj(InlineFields(prefix, fields, schemas, seen))
    case _ => node
  }

  function InlineElems(prefix: string, elems: seq<Json>, schemas: Schemas, seen: set<string>): (r: seq<Json>)
    ensures |r| == |elems|
    decreases schemas.Keys - seen, elems, 0
  {
    if elems == [] then []
    else [Inline(prefix, elems[0], schemas, seen)] + InlineElems(prefix, elems[1..], schemas, seen)
  }

  function InlineFields(prefix: string, fields: seq<Field>, schemas: Schemas, seen: set<string>): (r: seq<Field>)
    ensures |r| == |fields|
    decreases schemas.Keys - seen, fields, 0
  {
    if fields == [] then []
    else [Field(fields[0].key, Inline(prefix, fields[0].value, schemas, seen))]
         + InlineFields(prefix, fields[1..], schemas, seen)
  }

  /** `dereferenceSchema` */
  function Dereference(node: Json, schemas: Schemas, seen: set<string>): Json {
    Inline(LOCAL, node, schemas, seen)
  }

  // ---- rewriteRefs ------------------------------------------------------------------------

  function Rewrite(node: Json): Json
    decreases node, 1
  {
    match node
    case Arr(elems) => Arr(RewriteElems(elems))
    case Obj(fields) => Obj(RewriteFields(fields))
    case _ => node
  }

  function RewriteElems(elems: seq<Json>): (r: seq<Json>)
    ensures |r| == |elems|
    decreases elems, 0
  {
    if elems == [] then [] else [Rewrite(elems[0])] + RewriteElems(elems[1..])
  }

  function RewriteField(f: Field): Field
    decreases f, 0
  {
    if f.key == REF && AfterPrefix(OPENAPI, Some(f.value)).Some? then
      Field(REF, Str(LOCAL + AfterPrefix(OPENAPI, Some(f.value)).value))
    else
      Field(f.key, Rewrite(f.value))
  }

  function RewriteFields(fields: seq<Field>): (r: seq<Field>)
    ensures |r| == |fields|
    decreases fields, 0
  {
    if fields == [] then [] else [RewriteField(fields[0])] + RewriteFields(fields[1..])
  }

  function RewriteAll(schemas: Schemas): Schemas {
    map name | name in schemas :: Rewrite(schemas[name])
  }

  // ---- element by element -----------------------------------------------------------------

  lemma {:induction false} InlineElemsAt(prefix: string, elems: seq<Json>, schemas: Schemas, seen: set<string>, i: nat)
    requires i < |elems|
    ensures InlineElems(prefix, elems, schemas, seen)[i] == Inline(prefix, elems[i], schemas, seen)
  {
    if i > 0 {
      InlineElemsAt(prefix, elems[1..], schemas, seen, i - 1);
    }
  }

  lemma {:induction false} InlineFieldsAt(prefix: string, fields: seq<Field>, schemas: Schemas, seen: set<string>, i: nat)
    requires i < |fields|
    ensures InlineFields(prefix, fields, schemas, seen)[i]
         == Field(fields[i].key, Inline(prefix, fields[i].value, schemas, seen))
  {
    if i > 0 {
      InlineFieldsAt(prefix, fields[1..], schemas, seen, i - 1);
    }
  }

  lemma {:induction false} GetInlined(prefix: string, fields: seq<Field>, schemas: Schemas, seen: set<string>, key: string)
    ensures Get(InlineFields(prefix, fields, schemas, seen), key)
         == match Get(fields, key) case None => None case Some(v) => Some(Inline(prefix, v, schemas, seen))
  {
    if fields != [] && fields[0].key != key {
      GetInlined(prefix, fields[1..], schemas, seen, key);
      assert InlineFields(prefix, fields, schemas, seen)[1..] == InlineFields(prefix, fields[1..], schemas, seen);
    }
  }

  lemma {:induction false} GetRewritten(fields: seq<Field>, key: string)
    ensures Get(RewriteFields(fields), key)
         == match Get(fields, key) case None => None case Some(v) => Some(RewriteField(Field(key, v)).value)
  {
    if fields != [] && fields[0].key != key {
      GetRewritten(fields[1..], key);
      assert RewriteFields(fields)[1..] == RewriteFields(fields[1..]);
    }
  }

  lemma {:induction false} RewriteElemsAt(elems: seq<Json>, i: nat)
    requires i < |elems|
    ensures RewriteElems(elems)[i] == Rewrite(elems[i])
  {
    if i > 0 {
      RewriteElemsAt(elems[1..], i - 1);
    }
  }

  lemma {:induction false} RewriteFieldsAt(fields: seq<Field>, i: nat)
    requires i < |fields|
    ensures RewriteFields(fields)[i] == RewriteField(fields[i])
  {
    if i > 0 {
      RewriteFieldsAt(fields[1..], i - 1);
    }
  }

  /** A field found by name is one of the fields. */
  lemma {:induction false} GetIsField(fields: seq<Field>, key: string)
    ensures Get(fields, key).Some? ==> Field(key, Get(fields, key).value) in fields
  {
    if fields != [] && fields[0].key != key {
      GetIsField(fields[1..], key);
    }
  }
}
