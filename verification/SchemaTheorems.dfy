/**
 What inlining guarantees on every schema table, cyclic ones included: when its output is
 free of references and so stable, how deep it can grow, and when it is plain substitution.
 */
module SchemaTheorems {
  import opened Wrappers
  import opened SchemaInlining

  // ---- no reference is left ---------------------------------------------------------------

  /** No node of the tree still refers to a name. */
  predicate Clean(prefix: string, node: Json) {
    match node
    case Arr(elems) => forall i :: 0 <= i < |elems| ==> Clean(prefix, elems[i])
    case Obj(fields) => !IsRef(prefix, node) && forall i :: 0 <= i < |fields| ==> Clean(prefix, fields[i].value)
    case _ => true
  }

  /** A string that would be a reference if it stood under `$ref`. */
  predicate RefText(prefix: string, v: Json) {
    v.Str? && prefix <= v.s && v.s != prefix
  }

  /** No schema that a reference can reach is itself such a string. */
  predicate NoRefTexts(prefix: string, schemas: Schemas) {
    forall name :: name in schemas && name != "" ==> !RefText(prefix, schemas[name])
  }

  lemma RefTextIsRef(prefix: string, fields: seq<Field>)
    ensures IsRef(prefix, Obj(fields)) <==>
      Get(fields, REF).Some? && RefText(prefix, Get(fields, REF).value)
  {
    var v := Get(fields, REF);
    if v.Some? && v.value.Str? && prefix <= v.value.s {
      assert v.value.s[..|prefix|] == prefix;
      assert v.value.s[|prefix|..] == "" <==> v.value.s == prefix;
    }
  }

  lemma FallbackClean(prefix: string)
    ensures Clean(prefix, FALLBACK) && !RefText(prefix, FALLBACK)
  {
    assert Get([Field("type", Str("object"))], REF) == None by {
      assert "type"[0] != REF[0];
      assert [Field("type", Str("object"))][1..] == [];
    }
    RefTextIsRef(prefix, [Field("type", Str("object"))]);
  }

  /** Inlining leaves no reference, and makes no string that could become one. */
  lemma {:induction false} InlineClean(prefix: string, node: Json, schemas: Schemas, seen: set<string>)
    requires NoRefTexts(prefix, schemas)
    ensures Clean(prefix, Inline(prefix, node, schemas, seen))
    ensures RefText(prefix, Inline(prefix, node, schemas, seen)) ==> Inline(prefix, node, schemas, seen) == node
    decreases schemas.Keys - seen, node
  {
    var out := Inline(prefix, node, schemas, seen);
    match node
    case Arr(elems) =>
      forall i | 0 <= i < |elems| ensures Clean(prefix, out.elems[i]) {
        InlineElemsAt(prefix, elems, schemas, seen, i);
        InlineClean(prefix, elems[i], schemas, seen);
      }
    case Obj(fields) =>
      if IsRef(prefix, node) {
        FallbackClean(prefix);
        var name := RefTarget(prefix, node).value;
        if name !in seen && name in schemas {
          assert name in schemas.Keys - seen && name !in schemas.Keys - (seen + {name});
          InlineClean(prefix, schemas[name], schemas, seen + {name});
        }
      } else {
        InlineFieldsClean(prefix, node, schemas, seen);
      }
    case _ =>
  }

  lemma {:induction false} InlineFieldsClean(prefix: string, node: Json, schemas: Schemas, seen: set<string>)
    requires NoRefTexts(prefix, schemas) && node.Obj? && !IsRef(prefix, node)
    ensures Clean(prefix, Inline(prefix, node, schemas, seen))
    decreases schemas.Keys - seen, node, 0
  {
    var fields := node.fields;
    var out := InlineFields(prefix, fields, schemas, seen);
    forall i | 0 <= i < |fields| ensures Clean(prefix, out[i].value) {
      InlineFieldsAt(prefix, fields, schemas, seen, i);
      InlineClean(prefix, fields[i].value, schemas, seen);
    }
    GetInlined(prefix, fields, schemas, seen, REF);
    RefTextIsRef(prefix, fields);
    RefTextIsRef(prefix, out);
    GetIsField(fields, REF);
    if Get(fields, REF).Some? {
      var i :| 0 <= i < |fields| && fields[i] == Field(REF, Get(fields, REF).value);
      InlineClean(prefix, fields[i].value, schemas, seen);
    }
  }

  /** A node whose `$ref` is itself a reference, to `name`. */
  function Nested(prefix: string, name: string): Json {
    Obj([Field(REF, Obj([Field(REF, Str(prefix + name))]))])
  }

  lemma NestedUnclean(prefix: string, schemas: Schemas, name: string)
    requires name in schemas && name != "" && RefText(prefix, schemas[name])
    ensures Inline(prefix, Nested(prefix, name), schemas, {}) == Obj([Field(REF, schemas[name])])
    ensures !Clean(prefix, Inline(prefix, Nested(prefix, name), schemas, {}))
  {
    var inner := Obj([Field(REF, Str(prefix + name))]);
    assert (prefix + name)[|prefix|..] == name;
    assert RefTarget(prefix, inner) == Some(name);
    assert Inline(prefix, inner, schemas, {}) == Inline(prefix, schemas[name], schemas, {} + {name}) == schemas[name];
    var fields := [Field(REF, inner)];
    assert fields[1..] == [];
    assert RefTarget(prefix, Obj(fields)) == None;
    RefTextIsRef(prefix, [Field(REF, schemas[name])]);
  }

  /** Whatever is inlined, no reference is left, if and only if no schema of the table is
      itself a string of reference form. */
  lemma CleanIff(prefix: string, schemas: Schemas)
    ensures (forall node :: Clean(prefix, Inline(prefix, node, schemas, {}))) <==> NoRefTexts(prefix, schemas)
  {
    if NoRefTexts(prefix, schemas) {
      forall node ensures Clean(prefix, Inline(prefix, node, schemas, {})) {
        InlineClean(prefix, node, schemas, {});
      }
    } else {
      var name :| name in schemas && name != "" && RefText(prefix, schemas[name]);
      NestedUnclean(prefix, schemas, name);
    }
  }

  /** A tree without references is left as it is. */
  lemma {:induction false} CleanIsFixed(prefix: string, node: Json, schemas: Schemas, seen: set<string>)
    requires Clean(prefix, node)
    ensures Inline(prefix, node, schemas, seen) == node
    decreases node
  {
    match node
    case Arr(elems) =>
      var out := InlineElems(prefix, elems, schemas, seen);
      forall i | 0 <= i < |elems| ensures out[i] == elems[i] {
        InlineElemsAt(prefix, elems, schemas, seen, i);
        CleanIsFixed(prefix, elems[i], schemas, seen);
      }
      assert out == elems;
    case Obj(fields) =>
      var out := InlineFields(prefix, fields, schemas, seen);
      forall i | 0 <= i < |fields| ensures out[i] == fields[i] {
        InlineFieldsAt(prefix, fields, schemas, seen, i);
        CleanIsFixed(prefix, fields[i].value, schemas, seen);
      }
      assert out == fields;
    case _ =>
  }

  /** Dereferencing twice, with any table the second time, is dereferencing once. */
  lemma DereferenceIdempotent(node: Json, schemas: Schemas, seen: set<string>, again: Schemas, seenAgain: set<string>)
    requires NoRefTexts(LOCAL, schemas)
    ensures Dereference(Dereference(node, schemas, seen), again, seenAgain) == Dereference(node, schemas, seen)
  {
    InlineClean(LOCAL, node, schemas, seen);
    CleanIsFixed(LOCAL, Dereference(node, schemas, seen), again, seenAgain);
  }

  /** Every first result is left alone by a second dereferencing, whatever its table, if and
      only if no schema of the first table is itself a string of reference form. */
  lemma IdempotentIff(schemas: Schemas)
    ensures (forall node, again :: Dereference(Dereference(node, schemas, {}), again, {}) == Dereference(node, schemas, {}))
       <==> NoRefTexts(LOCAL, schemas)
  {
    if NoRefTexts(LOCAL, schemas) {
      forall node, again
        ensures Dereference(Dereference(node, schemas, {}), again, {}) == Dereference(node, schemas, {})
      {
        DereferenceIdempotent(node, schemas, {}, again, {});
      }
    } else {
      var name :| name in schemas && name != "" && RefText(LOCAL, schemas[name]);
      var node := Nested(LOCAL, name);
      NestedUnclean(LOCAL, schemas, name);
      LeftReferenceChanges([Field(REF, schemas[name])]);
      assert Dereference(Dereference(node, schemas, {}), map[], {}) != Dereference(node, schemas, {});
    }
  }

  lemma LeftReferenceChanges(fields: seq<Field>)
    requires |fields| == 1 && fields[0].key == REF && RefText(LOCAL, fields[0].value)
    ensures Dereference(Obj(fields), map[], {}) != Obj(fields)
  {
    RefTextIsRef(LOCAL, fields);
    assert FALLBACK.fields[0].key != REF;
  }

  // ---- the tables a survey can hold -------------------------------------------------------

  /** What a parsed survey guarantees of its named schemas: each is a JSON object. */
  predicate AreRecords(schemas: Schemas) {
    forall name :: name in schemas ==> schemas[name].Obj?
  }

  /** On every table a survey can hold, inlining leaves no reference, for any node... */
  lemma SurveyTablesInlineClean(node: Json, schemas: Schemas, seen: set<string>)
    requires AreRecords(schemas)
    ensures Clean(LOCAL, Dereference(node, schemas, seen))
  {
    InlineClean(LOCAL, node, schemas, seen);
  }

  /** ...and doing it again, with any table, changes nothing. */
  lemma SurveyTablesIdempotent(node: Json, schemas: Schemas, seen: set<string>, again: Schemas, seenAgain: set<string>)
    requires AreRecords(schemas)
    ensures Dereference(Dereference(node, schemas, seen), again, seenAgain) == Dereference(node, schemas, seen)
  {
    DereferenceIdempotent(node, schemas, seen, again, seenAgain);
  }

  // ---- depth ------------------------------------------------------------------------------

  function Max(a: nat, b: nat): nat {
    if a < b then b else a
  }

  function Depth(node: Json): nat
    decreases node, 1
  {
    match node
    case Arr(elems) => 1 + ElemsDepth(elems)
    case Obj(fields) => 1 + FieldsDepth(fields)
    case _ => 1
  }

  function ElemsDepth(elems: seq<Json>): nat
    decreases elems, 0
  {
    if elems == [] then 0 else Max(Depth(elems[0]), ElemsDepth(elems[1..]))
  }

  function FieldsDepth(fields: seq<Field>): nat
    decreases fields, 0
  {
    if fields == [] then 0 else Max(Depth(fields[0].value), FieldsDepth(fields[1..]))
  }

  /** The sum of the depths of the named schemas. */
  ghost function DepthSum(schemas: Schemas, names: set<string>): nat
    requires names <= schemas.Keys
  {
    if names == {} then 0
    else
      var name :| name in names;
      Depth(schemas[name]) + DepthSum(schemas, names - {name})
  }

  /** The sum does not depend on the order the names are taken in. */
  lemma {:induction false} DepthSumWithout(schemas: Schemas, names: set<string>, name: string)
    requires names <= schemas.Keys && name in names
    ensures DepthSum(schemas, names) == Depth(schemas[name]) + DepthSum(schemas, names - {name})
    decreases names
  {
    var first :| first in names && DepthSum(schemas, names) == Depth(schemas[first]) + DepthSum(schemas, names - {first});
    if first != name {
      DepthSumWithout(schemas, names - {first}, name);
      DepthSumWithout(schemas, names - {name}, first);
      assert names - {first} - {name} == names - {name} - {first};
    }
  }

  /** Inlining adds at most the depths of the schemas not yet on the chain. */
  lemma {:induction false} InlineDepth(prefix: string, node: Json, schemas: Schemas, seen: set<string>)
    ensures Depth(Inline(prefix, node, schemas, seen)) <= Depth(node) + DepthSum(schemas, schemas.Keys - seen)
    decreases schemas.Keys - seen, node, 1
  {
    match node
    case Arr(elems) => InlineElemsDepth(prefix, elems, schemas, seen);
    case Obj(fields) =>
      if IsRef(prefix, node) {
        RefDepth(prefix, fields);
        var name := RefTarget(prefix, node).value;
        if name !in seen && name in schemas {
          var rest := schemas.Keys - (seen + {name});
          assert name in schemas.Keys - seen && rest == schemas.Keys - seen - {name};
          InlineDepth(prefix, schemas[name], schemas, seen + {name});
          DepthSumWithout(schemas, schemas.Keys - seen, name);
        }
      } else {
        InlineFieldsDepth(prefix, fields, schemas, seen);
      }
    case _ =>
  }

  lemma RefDepth(prefix: string, fields: seq<Field>)
    requires IsRef(prefix, Obj(fields))
    ensures Depth(FALLBACK) == 2 <= Depth(Obj(fields))
  {
    assert fields != [] && Depth(fields[0].value) >= 1;
    var f := [Field("type", Str("object"))];
    assert f[1..] == [] && FieldsDepth([]) == 0 && FieldsDepth(f) == 1;
  }

  lemma {:induction false} InlineElemsDepth(prefix: string, elems: seq<Json>, schemas: Schemas, seen: set<string>)
    ensures ElemsDepth(InlineElems(prefix, elems, schemas, seen)) <= ElemsDepth(elems) + DepthSum(schemas, schemas.Keys - seen)
    decreases schemas.Keys - seen, elems, 0
  {
    if elems != [] {
      InlineDepth(prefix, elems[0], schemas, seen);
      InlineElemsDepth(prefix, elems[1..], schemas, seen);
      assert InlineElems(prefix, elems, schemas, seen)[1..] == InlineElems(prefix, elems[1..], schemas, seen);
    }
  }

  lemma {:induction false} InlineFieldsDepth(prefix: string, fields: seq<Field>, schemas: Schemas, seen: set<string>)
    ensures FieldsDepth(InlineFields(prefix, fields, schemas, seen)) <= FieldsDepth(fields) + DepthSum(schemas, schemas.Keys - seen)
    decreases schemas.Keys - seen, fields, 0
  {
    if fields != [] {
      InlineDepth(prefix, fields[0].value, schemas, seen);
      InlineFieldsDepth(prefix, fields[1..], schemas, seen);
      assert InlineFields(prefix, fields, schemas, seen)[1..] == InlineFields(prefix, fields[1..], schemas, seen);
    }
  }

  // ---- acyclic tables ---------------------------------------------------------------------

  /** The node refers to `name` at a place that inlining reaches. */
  predicate Mentions(prefix: string, node: Json, name: string) {
    match node
    case Arr(elems) => exists i :: 0 <= i < |elems| && Mentions(prefix, elems[i], name)
    case Obj(fields) =>
      if IsRef(prefix, node) then RefTarget(prefix, node) == Some(name)
      else exists i :: 0 <= i < |fields| && Mentions(prefix, fields[i].value, name)
    case _ => false
  }

  /** Every schema mentions only schemas of smaller rank. */
  ghost predicate Ranked(prefix: string, schemas: Schemas, rank: string -> nat) {
    forall x, y :: x in schemas && Mentions(prefix, schemas[x], y) ==> rank(y) < rank(x)
  }

  ghost predicate Below(prefix: string, node: Json, rank: string -> nat, bound: nat) {
    forall y :: Mentions(prefix, node, y) ==> rank(y) < bound
  }

  /** Plain substitution: each reference is replaced by its schema, substituted in turn. There
      is no chain of names; `bound` only makes the recursion finite. */
  ghost function Substitute(prefix: string, node: Json, schemas: Schemas, rank: string -> nat, bound: nat): Json
    requires Ranked(prefix, schemas, rank) && Below(prefix, node, rank, bound)
    decreases bound, node, 1
  {
    match node
    case Arr(elems) => Arr(SubstituteElems(prefix, elems, schemas, rank, bound))
    case Obj(fields) =>
      if IsRef(prefix, node) then
        var name := RefTarget(prefix, node).value;
        assert Mentions(prefix, node, name);
        if name !in schemas then FALLBACK else Substitute(prefix, schemas[name], schemas, rank, rank(name))
      else
        Obj(SubstituteFields(prefix, fields, schemas, rank, bound))
    case _ => node
  }

  ghost function SubstituteElems(prefix: string, elems: seq<Json>, schemas: Schemas, rank: string -> nat, bound: nat): (r: seq<Json>)
    requires Ranked(prefix, schemas, rank) && forall i :: 0 <= i < |elems| ==> Below(prefix, elems[i], rank, bound)
    ensures |r| == |elems|
    decreases bound, elems, 0
  {
    if elems == [] then []
    else [Substitute(prefix, elems[0], schemas, rank, bound)] + SubstituteElems(prefix, elems[1..], schemas, rank, bound)
  }

  ghost function SubstituteFields(prefix: string, fields: seq<Field>, schemas: Schemas, rank: string -> nat, bound: nat): (r: seq<Field>)
    requires Ranked(prefix, schemas, rank) && forall i :: 0 <= i < |fields| ==> Below(prefix, fields[i].value, rank, bound)
    ensures |r| == |fields|
    decreases bound, fields, 0
  {
    if fields == [] then []
    else [Field(fields[0].key, Substitute(prefix, fields[0].value, schemas, rank, bound))]
         + SubstituteFields(prefix, fields[1..], schemas, rank, bound)
  }

  /** A set of names that holds what the node mentions and is closed under the table. */
  ghost predicate Covers(prefix: string, node: Json, schemas: Schemas, reach: iset<string>) {
    && (forall y :: Mentions(prefix, node, y) ==> y in reach)
    && (forall x, y :: x in reach && x in schemas && Mentions(prefix, schemas[x], y) ==> y in reach)
  }

  /** On an acyclic table inlining is plain substitution, whatever names that the node cannot
      reach are on the chain already. */
  lemma {:induction false} InlineIsSubstitution(prefix: string, node: Json, schemas: Schemas, seen: set<string>,
                                                rank: string -> nat, bound: nat, reach: iset<string>)
    requires Ranked(prefix, schemas, rank) && Below(prefix, node, rank, bound)
    requires Covers(prefix, node, schemas, reach) && forall x :: x in seen ==> x !in reach
    ensures Inline(prefix, node, schemas, seen) == Substitute(prefix, node, schemas, rank, bound)
    decreases bound, node, 1
  {
    match node
    case Arr(elems) =>
      forall i, y | 0 <= i < |elems| && Mentions(prefix, elems[i], y) ensures Mentions(prefix, node, y) {}
      ElemsSubstituted(prefix, elems, schemas, seen, rank, bound, reach);
    case Obj(fields) =>
      if IsRef(prefix, node) {
        var name := RefTarget(prefix, node).value;
        assert Mentions(prefix, node, name);
        if name in schemas {
          var below := iset y | y in reach && rank(y) < rank(name);
          assert Covers(prefix, schemas[name], schemas, below);
          InlineIsSubstitution(prefix, schemas[name], schemas, seen + {name}, rank, rank(name), below);
        }
      } else {
        forall i, y | 0 <= i < |fields| && Mentions(prefix, fields[i].value, y) ensures Mentions(prefix, node, y) {}
        FieldsSubstituted(prefix, fields, schemas, seen, rank, bound, reach);
      }
    case _ =>
  }

  lemma {:induction false} ElemsSubstituted(prefix: string, elems: seq<Json>, schemas: Schemas, seen: set<string>,
                                            rank: string -> nat, bound: nat, reach: iset<string>)
    requires Ranked(prefix, schemas, rank) && forall i :: 0 <= i < |elems| ==> Below(prefix, elems[i], rank, bound)
    requires forall i :: 0 <= i < |elems| ==> Covers(prefix, elems[i], schemas, reach)
    requires forall x :: x in seen ==> x !in reach
    ensures InlineElems(prefix, elems, schemas, seen) == SubstituteElems(prefix, elems, schemas, rank, bound)
    decreases bound, elems, 0
  {
    if elems != [] {
      InlineIsSubstitution(prefix, elems[0], schemas, seen, rank, bound, reach);
      ElemsSubstituted(prefix, elems[1..], schemas, seen, rank, bound, reach);
    }
  }

  lemma {:induction false} FieldsSubstituted(prefix: string, fields: seq<Field>, schemas: Schemas, seen: set<string>,
                                             rank: string -> nat, bound: nat, reach: iset<string>)
    requires Ranked(prefix, schemas, rank) && forall i :: 0 <= i < |fields| ==> Below(prefix, fields[i].value, rank, bound)
    requires forall i :: 0 <= i < |fields| ==> Covers(prefix, fields[i].value, schemas, reach)
    requires forall x :: x in seen ==> x !in reach
    ensures InlineFields(prefix, fields, schemas, seen) == SubstituteFields(prefix, fields, schemas, rank, bound)
    decreases bound, fields, 0
  {
    if fields != [] {
      InlineIsSubstitution(prefix, fields[0].value, schemas, seen, rank, bound, reach);
      FieldsSubstituted(prefix, fields[1..], schemas, seen, rank, bound, reach);
    }
  }
}
