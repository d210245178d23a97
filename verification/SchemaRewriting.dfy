/**
 Rewriting OpenAPI references to the local convention and then inlining, against inlining
 the original document directly.
 */
module SchemaRewriting {
  import opened Wrappers
  import opened SchemaInlining
  import opened SchemaTheorems

  /** The node holds, at a place that inlining reaches, a reference that the rewriting would
      confuse: one already in the local form, or an OpenAPI reference with an empty name. */
  predicate Stray(node: Json) {
    match node
    case Arr(elems) => exists i :: 0 <= i < |elems| && Stray(elems[i])
    case Obj(fields) =>
      !IsRef(OPENAPI, node)
      && (IsRef(LOCAL, node) || RefTarget(OPENAPI, node).Some?
          || exists i :: 0 <= i < |fields| && Stray(fields[i].value))
    case _ => false
  }

  /** No schema that a reference can reach holds one. */
  ghost predicate NoStrays(schemas: Schemas) {
    forall name :: name in schemas && name != "" ==> !Stray(schemas[name])
  }

  /** The named schemas of a document: JSON objects with distinct keys. */
  ghost predicate AreSchemas(schemas: Schemas) {
    forall name :: name in schemas ==> schemas[name].Obj? && Proper(schemas[name])
  }

  /** No text starts with both prefixes. */
  lemma PrefixesDiffer(s: string)
    ensures !(LOCAL <= s && OPENAPI <= s)
  {
    assert LOCAL[2] == 's' && OPENAPI[2] == 'c';
    assert LOCAL <= s ==> |s| > 2 && s[2] == LOCAL[2];
    assert OPENAPI <= s ==> |s| > 2 && s[2] == OPENAPI[2];
  }

  lemma AfterLocal(name: string)
    ensures AfterPrefix(LOCAL, Some(Str(LOCAL + name))) == Some(name)
  {
    assert (LOCAL + name)[|LOCAL|..] == name;
  }

  /** An OpenAPI reference is rewritten to the local reference of the same name. */
  lemma RewrittenTarget(fields: seq<Field>)
    ensures RefTarget(OPENAPI, Obj(fields)).Some? ==>
      RefTarget(LOCAL, Rewrite(Obj(fields))) == RefTarget(OPENAPI, Obj(fields))
    ensures RefTarget(OPENAPI, Obj(fields)).None? ==>
      RefTarget(LOCAL, Rewrite(Obj(fields))) == RefTarget(LOCAL, Obj(fields))
  {
    GetRewritten(fields, REF);
    var v := Get(fields, REF);
    if v.Some? {
      if AfterPrefix(OPENAPI, v).Some? {
        AfterLocal(AfterPrefix(OPENAPI, v).value);
      }
    }
  }

  lemma {:induction false} RewriteKeepsMeaning(node: Json, schemas: Schemas, seen: set<string>)
    requires Proper(node) && !Stray(node) && AreSchemas(schemas) && NoStrays(schemas)
    ensures Inline(LOCAL, Rewrite(node), RewriteAll(schemas), seen) == Inline(OPENAPI, node, schemas, seen)
    decreases schemas.Keys - seen, node
  {
    match node
    case Arr(elems) =>
      var lhs := InlineElems(LOCAL, RewriteElems(elems), RewriteAll(schemas), seen);
      var rhs := InlineElems(OPENAPI, elems, schemas, seen);
      forall i | 0 <= i < |elems| ensures lhs[i] == rhs[i] {
        InlineElemsAt(LOCAL, RewriteElems(elems), RewriteAll(schemas), seen, i);
        InlineElemsAt(OPENAPI, elems, schemas, seen, i);
        RewriteElemsAt(elems, i);
        RewriteKeepsMeaning(elems[i], schemas, seen);
      }
      assert lhs == rhs;
    case Obj(fields) =>
      RewrittenTarget(fields);
      if IsRef(OPENAPI, node) {
        var name := RefTarget(OPENAPI, node).value;
        if name !in seen && name in schemas {
          assert name in schemas.Keys - seen && name !in schemas.Keys - (seen + {name});
          RewriteKeepsMeaning(schemas[name], schemas, seen + {name});
        }
      } else {
        FieldsKeepMeaning(node, schemas, seen);
      }
    case _ =>
  }

  lemma {:induction false} FieldsKeepMeaning(node: Json, schemas: Schemas, seen: set<string>)
    requires node.Obj? && Proper(node) && !IsRef(OPENAPI, node) && !Stray(node)
    requires AreSchemas(schemas) && NoStrays(schemas)
    ensures InlineFields(LOCAL, RewriteFields(node.fields), RewriteAll(schemas), seen)
         == InlineFields(OPENAPI, node.fields, schemas, seen)
    decreases schemas.Keys - seen, node, 0
  {
    var fields := node.fields;
    var lhs := InlineFields(LOCAL, RewriteFields(fields), RewriteAll(schemas), seen);
    var rhs := InlineFields(OPENAPI, fields, schemas, seen);
    forall i | 0 <= i < |fields| ensures lhs[i] == rhs[i] {
      InlineFieldsAt(LOCAL, RewriteFields(fields), RewriteAll(schemas), seen, i);
      InlineFieldsAt(OPENAPI, fields, schemas, seen, i);
      RewriteFieldsAt(fields, i);
      GetAt(fields, i);
      RewriteKeepsMeaning(fields[i].value, schemas, seen);
    }
    assert lhs == rhs;
  }

  lemma RewrittenClean(node: Json, schemas: Schemas, seen: set<string>)
    requires AreSchemas(schemas)
    ensures Clean(LOCAL, Inline(LOCAL, Rewrite(node), RewriteAll(schemas), seen))
  {
    forall name | name in RewriteAll(schemas)
      ensures RewriteAll(schemas)[name].Obj?
    {
      assert schemas[name].Obj?;
    }
    InlineClean(LOCAL, Rewrite(node), RewriteAll(schemas), seen);
  }

  /** The two inlinings of a node. */
  ghost predicate Differs(node: Json, schemas: Schemas, seen: set<string>) {
    Inline(LOCAL, Rewrite(node), RewriteAll(schemas), seen) != Inline(OPENAPI, node, schemas, seen)
  }

  lemma ElemDiffers(elems: seq<Json>, i: nat, schemas: Schemas, seen: set<string>)
    requires i < |elems| && Differs(elems[i], schemas, seen)
    ensures Differs(Arr(elems), schemas, seen)
  {
    InlineElemsAt(LOCAL, RewriteElems(elems), RewriteAll(schemas), seen, i);
    InlineElemsAt(OPENAPI, elems, schemas, seen, i);
    RewriteElemsAt(elems, i);
  }

  lemma FieldDiffers(fields: seq<Field>, i: nat, schemas: Schemas, seen: set<string>)
    requires i < |fields| && Differs(fields[i].value, schemas, seen)
    requires RefTarget(OPENAPI, Obj(fields)).None? && !IsRef(LOCAL, Obj(fields))
    ensures Differs(Obj(fields), schemas, seen)
  {
    RewrittenTarget(fields);
    InlineFieldsAt(LOCAL, RewriteFields(fields), RewriteAll(schemas), seen, i);
    InlineFieldsAt(OPENAPI, fields, schemas, seen, i);
    RewriteFieldsAt(fields, i);
    if fields[i].key == REF && AfterPrefix(OPENAPI, Some(fields[i].value)).Some? {
      RefTextStaysDifferent(fields[i].value, schemas, seen);
    }
  }

  /** A string under `$ref` is no tree to inline. */
  lemma RefTextStaysDifferent(v: Json, schemas: Schemas, seen: set<string>)
    requires AfterPrefix(OPENAPI, Some(v)).Some?
    ensures !Differs(v, schemas, seen)
  {
  }

  /** A stray reference changes what is inlined, whatever the table and the chain. */
  lemma {:induction false} StrayChangesMeaning(node: Json, schemas: Schemas, seen: set<string>)
    requires Proper(node) && Stray(node) && AreSchemas(schemas)
    ensures Differs(node, schemas, seen)
    decreases node
  {
    match node
    case Arr(elems) =>
      var i :| 0 <= i < |elems| && Stray(elems[i]);
      StrayChangesMeaning(elems[i], schemas, seen);
      ElemDiffers(elems, i, schemas, seen);
    case Obj(fields) =>
      if IsRef(LOCAL, node) {
        StrayLocal(fields, schemas, seen);
      } else if RefTarget(OPENAPI, node).Some? {
        StrayEmpty(fields, schemas, seen);
      } else {
        var i :| 0 <= i < |fields| && Stray(fields[i].value);
        StrayChangesMeaning(fields[i].value, schemas, seen);
        FieldDiffers(fields, i, schemas, seen);
      }
  }

  /** A local reference of the original document is taken for one of the table: the original
      side keeps it, the rewritten side leaves none. */
  lemma StrayLocal(fields: seq<Field>, schemas: Schemas, seen: set<string>)
    requires IsRef(LOCAL, Obj(fields)) && !IsRef(OPENAPI, Obj(fields)) && AreSchemas(schemas)
    ensures Differs(Obj(fields), schemas, seen)
  {
    RewrittenClean(Obj(fields), schemas, seen);
    GetInlined(OPENAPI, fields, schemas, seen, REF);
    assert IsRef(LOCAL, Inline(OPENAPI, Obj(fields), schemas, seen));
  }

  /** A reference with an empty name is left in place, in its rewritten form. */
  lemma StrayEmpty(fields: seq<Field>, schemas: Schemas, seen: set<string>)
    requires RefTarget(OPENAPI, Obj(fields)) == Some("")
    ensures Differs(Obj(fields), schemas, seen)
  {
    RewrittenTarget(fields);
    GetRewritten(fields, REF);
    GetInlined(LOCAL, RewriteFields(fields), RewriteAll(schemas), seen, REF);
    GetInlined(OPENAPI, fields, schemas, seen, REF);
    PrefixesDiffer(Get(fields, REF).value.s);
  }

  /** For every node, chain and table without stray references, cyclic ones included: inlining
      after rewriting equals inlining the original document if and only if the node itself
      holds no stray reference. */
  lemma RewriteKeepsMeaningIff(node: Json, schemas: Schemas, seen: set<string>)
    requires Proper(node) && AreSchemas(schemas) && NoStrays(schemas)
    ensures Dereference(Rewrite(node), RewriteAll(schemas), seen) == Inline(OPENAPI, node, schemas, seen)
       <==> !Stray(node)
  {
    if Stray(node) {
      StrayChangesMeaning(node, schemas, seen);
    } else {
      RewriteKeepsMeaning(node, schemas, seen);
    }
  }

  /** A reference of the original document to a schema by its name. */
  function RefTo(name: string): Json {
    Obj([Field(REF, Str(OPENAPI + name))])
  }

  lemma RefToRefers(name: string)
    requires name != ""
    ensures RefTarget(OPENAPI, RefTo(name)) == Some(name)
    ensures Proper(RefTo(name)) && !Stray(RefTo(name))
    ensures RefTarget(LOCAL, Rewrite(RefTo(name))) == Some(name)
  {
    assert (OPENAPI + name)[|OPENAPI|..] == name;
    RewrittenTarget(RefTo(name).fields);
  }

  /** The whole table: every node without a stray reference keeps its meaning if and only if no
      schema that a reference can reach holds one. */
  lemma TableKeepsMeaningIff(schemas: Schemas)
    requires AreSchemas(schemas)
    ensures (forall node :: Proper(node) && !Stray(node) ==>
               Dereference(Rewrite(node), RewriteAll(schemas), {}) == Inline(OPENAPI, node, schemas, {}))
       <==> NoStrays(schemas)
  {
    if NoStrays(schemas) {
      forall node | Proper(node) && !Stray(node)
        ensures Dereference(Rewrite(node), RewriteAll(schemas), {}) == Inline(OPENAPI, node, schemas, {})
      {
        RewriteKeepsMeaning(node, schemas, {});
      }
    } else {
      var name :| name in schemas && name != "" && Stray(schemas[name]);
      var node := RefTo(name);
      RefToRefers(name);
      StrayChangesMeaning(schemas[name], schemas, {} + {name});
      assert Dereference(Rewrite(node), RewriteAll(schemas), {}) != Inline(OPENAPI, node, schemas, {});
    }
  }
}
