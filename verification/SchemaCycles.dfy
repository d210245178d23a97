/** Schema tables without a cycle of references, and what inlining is on them. */
module SchemaCycles {
  import opened SchemaInlining
  import opened SchemaTheorems

  /** Each schema refers to the next name. */
  ghost predicate IsPath(prefix: string, schemas: Schemas, path: seq<string>) {
    forall i :: 0 <= i < |path| - 1 ==> path[i] in schemas && Mentions(prefix, schemas[path[i]], path[i + 1])
  }

  ghost predicate IsCycle(prefix: string, schemas: Schemas, path: seq<string>) {
    |path| > 1 && path[0] == path[|path| - 1] && IsPath(prefix, schemas, path)
  }

  ghost predicate IsAcyclic(prefix: string, schemas: Schemas) {
    forall path :: !IsCycle(prefix, schemas, path)
  }

  predicate AreDistinct(path: seq<string>) {
    forall i, j :: 0 <= i < j < |path| ==> path[i] != path[j]
  }

  lemma {:induction false} DistinctFit(path: seq<string>, names: set<string>)
    requires AreDistinct(path) && forall x :: x in path ==> x in names
    ensures |path| <= |names|
  {
    if path != [] {
      var last := path[|path| - 1];
      var front := path[..|path| - 1];
      assert last in path && forall x :: x in front ==> x in path;
      assert forall i :: 0 <= i < |front| ==> front[i] == path[i] != last;
      DistinctFit(front, names - {last});
    }
  }

  ghost predicate IsSink(prefix: string, schemas: Schemas, names: set<string>, x: string) {
    x in names && x in schemas && forall y :: y in names ==> !Mentions(prefix, schemas[x], y)
  }

  /** Following references inside a set of schemas ends at one that refers to none of them. */
  lemma FollowToSink(prefix: string, schemas: Schemas, names: set<string>, path: seq<string>) returns (x: string)
    requires IsAcyclic(prefix, schemas) && names <= schemas.Keys
    requires path != [] && AreDistinct(path) && IsPath(prefix, schemas, path) && forall y :: y in path ==> y in names
    ensures IsSink(prefix, schemas, names, x)
    decreases |names| - |path|
  {
    x := path[|path| - 1];
    assert x in path;
    DistinctFit(path, names);
    if !IsSink(prefix, schemas, names, x) {
      var y :| y in names && Mentions(prefix, schemas[x], y);
      var longer := path + [y];
      PathGrows(prefix, schemas, path, y);
      if y in path {
        var i :| 0 <= i < |path| && path[i] == y;
        TailIsCycle(prefix, schemas, longer, i);
        assert false;
      }
      DistinctFit(longer, names);
      x := FollowToSink(prefix, schemas, names, longer);
    }
  }

  lemma PathGrows(prefix: string, schemas: Schemas, path: seq<string>, y: string)
    requires path != [] && IsPath(prefix, schemas, path)
    requires path[|path| - 1] in schemas && Mentions(prefix, schemas[path[|path| - 1]], y)
    ensures IsPath(prefix, schemas, path + [y])
  {
  }

  lemma TailIsCycle(prefix: string, schemas: Schemas, path: seq<string>, i: nat)
    requires IsPath(prefix, schemas, path) && i < |path| - 1 && path[i] == path[|path| - 1]
    ensures IsCycle(prefix, schemas, path[i..])
  {
    var tail := path[i..];
    forall j | 0 <= j < |tail| - 1
      ensures tail[j] in schemas && Mentions(prefix, schemas[tail[j]], tail[j + 1])
    {
      assert tail[j] == path[i + j] && tail[j + 1] == path[i + j + 1];
    }
  }

  /** A rank for these schemas, 0 for every other name. */
  ghost predicate RanksSet(prefix: string, schemas: Schemas, names: set<string>, rank: string -> nat) {
    && names <= schemas.Keys
    && (forall x :: x in names ==> 0 < rank(x) <= |names|)
    && (forall x :: x !in names ==> rank(x) == 0)
    && forall x, y :: x in names && y in names && Mentions(prefix, schemas[x], y) ==> rank(y) < rank(x)
  }

  lemma {:induction false} RankSet(prefix: string, schemas: Schemas, names: set<string>) returns (rank: string -> nat)
    requires IsAcyclic(prefix, schemas) && names <= schemas.Keys
    ensures RanksSet(prefix, schemas, names, rank)
    decreases |names|
  {
    if names == {} {
      rank := _ => 0;
    } else {
      var start :| start in names;
      var sink := FollowToSink(prefix, schemas, names, [start]);
      var rest := RankSet(prefix, schemas, names - {sink});
      rank := x => if x == sink then 1 else if rest(x) > 0 then rest(x) + 1 else 0;
      SinkBelow(prefix, schemas, names, sink, rest, rank);
    }
  }

  lemma SinkBelow(prefix: string, schemas: Schemas, names: set<string>, sink: string,
                  rest: string -> nat, rank: string -> nat)
    requires IsSink(prefix, schemas, names, sink) && names <= schemas.Keys
    requires RanksSet(prefix, schemas, names - {sink}, rest)
    requires forall x :: rank(x) == if x == sink then 1 else if rest(x) > 0 then rest(x) + 1 else 0
    ensures RanksSet(prefix, schemas, names, rank)
  {
  }

  lemma {:induction false} PathFalls(prefix: string, schemas: Schemas, path: seq<string>, rank: string -> nat, n: nat)
    requires Ranked(prefix, schemas, rank) && IsPath(prefix, schemas, path) && n < |path|
    ensures rank(path[n]) + n <= rank(path[0])
  {
    if n > 0 {
      PathFalls(prefix, schemas, path, rank, n - 1);
      assert Mentions(prefix, schemas[path[n - 1]], path[n - 1 + 1]);
    }
  }

  /** A table has no cycle of references exactly when its schemas can be ranked. */
  lemma AcyclicIff(prefix: string, schemas: Schemas)
    ensures IsAcyclic(prefix, schemas) <==> exists rank :: Ranked(prefix, schemas, rank)
  {
    if IsAcyclic(prefix, schemas) {
      var rank := RankSet(prefix, schemas, schemas.Keys);
      RankOfAll(prefix, schemas, rank);
    }
    if rank :| Ranked(prefix, schemas, rank) {
      forall path
        ensures !IsCycle(prefix, schemas, path)
      {
        if IsCycle(prefix, schemas, path) {
          PathFalls(prefix, schemas, path, rank, |path| - 1);
        }
      }
    }
  }

  lemma RankOfAll(prefix: string, schemas: Schemas, rank: string -> nat)
    requires RanksSet(prefix, schemas, schemas.Keys, rank)
    ensures Ranked(prefix, schemas, rank) && forall x :: rank(x) <= |schemas.Keys|
  {
    forall x, y | x in schemas && Mentions(prefix, schemas[x], y)
      ensures rank(y) < rank(x)
    {
      assert y !in schemas.Keys ==> rank(y) == 0;
    }
  }

  /** The result is plain substitution, under some ranking of the table. */
  ghost predicate IsSubstitution(prefix: string, node: Json, schemas: Schemas, result: Json) {
    exists rank, bound ::
      Ranked(prefix, schemas, rank) && Below(prefix, node, rank, bound) &&
      result == Substitute(prefix, node, schemas, rank, bound)
  }

  /** On a table without a cycle of references inlining is plain substitution, whatever names
      that the node cannot reach are on the chain already. */
  lemma AcyclicIsSubstitution(prefix: string, node: Json, schemas: Schemas, seen: set<string>, reach: iset<string>)
    requires IsAcyclic(prefix, schemas)
    requires Covers(prefix, node, schemas, reach) && forall x :: x in seen ==> x !in reach
    ensures IsSubstitution(prefix, node, schemas, Inline(prefix, node, schemas, seen))
  {
    var rank := RankSet(prefix, schemas, schemas.Keys);
    RankOfAll(prefix, schemas, rank);
    var bound := |schemas.Keys| + 1;
    assert Below(prefix, node, rank, bound);
    InlineIsSubstitution(prefix, node, schemas, seen, rank, bound, reach);
  }
}
