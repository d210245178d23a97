/** Sorting by a comparator, the way `Array.prototype.sort` promises: stably. */
module StableSort {

  ghost predicate IsTotalPreorder<T(!new)>(le: (T, T) -> bool) {
    && (forall a, b :: le(a, b) || le(b, a))
    && (forall a, b, c :: le(a, b) && le(b, c) ==> le(a, c))
  }

  ghost predicate IsSorted<T>(s: seq<T>, le: (T, T) -> bool) {
    forall i, j :: 0 <= i < j < |s| ==> le(s[i], s[j])
  }

  function Inserted<T>(x: T, s: seq<T>, le: (T, T) -> bool): seq<T> {
    if s == [] || le(x, s[0]) then [x] + s else [s[0]] + Inserted(x, s[1..], le)
  }

  function SortedBy<T>(s: seq<T>, le: (T, T) -> bool): seq<T> {
    if s == [] then [] else Inserted(s[0], SortedBy(s[1..], le), le)
  }

  lemma {:induction false} InsertedIsSorted<T(!new)>(x: T, s: seq<T>, le: (T, T) -> bool)
    requires IsTotalPreorder(le) && IsSorted(s, le)
    ensures IsSorted(Inserted(x, s, le), le)
    ensures multiset(Inserted(x, s, le)) == multiset(s) + multiset{x}
  {
    if s == [] || le(x, s[0]) {
      assert forall i :: 0 < i < |s| ==> le(s[0], s[i]);
    } else {
      var rest := Inserted(x, s[1..], le);
      InsertedIsSorted(x, s[1..], le);
      assert s == [s[0]] + s[1..];
      forall i | 0 <= i < |rest|
        ensures le(s[0], rest[i])
      {
        assert rest[i] in multiset(rest);
        assert rest[i] == x || rest[i] in s[1..];
      }
    }
  }

  lemma {:induction false} SortedByIsSorted<T(!new)>(s: seq<T>, le: (T, T) -> bool)
    requires IsTotalPreorder(le)
    ensures IsSorted(SortedBy(s, le), le)
    ensures multiset(SortedBy(s, le)) == multiset(s)
  {
    if s != [] {
      SortedByIsSorted(s[1..], le);
      InsertedIsSorted(s[0], SortedBy(s[1..], le), le);
      assert s == [s[0]] + s[1..];
    }
  }

  /** The elements that tie with `c`, in order. */
  function Ties<T>(s: seq<T>, c: T, le: (T, T) -> bool): seq<T> {
    if s == [] then []
    else (if le(s[0], c) && le(c, s[0]) then [s[0]] else []) + Ties(s[1..], c, le)
  }

  lemma Chained<T(!new)>(a: T, b: T, c: T, le: (T, T) -> bool)
    requires IsTotalPreorder(le)
    ensures le(a, b) && le(b, c) ==> le(a, c)
  {
  }

  lemma {:induction false} InsertedKeepsTies<T(!new)>(x: T, s: seq<T>, c: T, le: (T, T) -> bool)
    requires IsTotalPreorder(le)
    ensures Ties(Inserted(x, s, le), c, le) == Ties([x] + s, c, le)
  {
    assert ([x] + s)[1..] == s;
    if s != [] && !le(x, s[0]) {
      var rest := Inserted(x, s[1..], le);
      InsertedKeepsTies(x, s[1..], c, le);
      assert ([x] + s[1..])[1..] == s[1..] && ([s[0]] + rest)[1..] == rest;
      Chained(x, c, s[0], le);
    }
  }

  /** Elements that tie keep the order they had. */
  lemma {:induction false} SortedByIsStable<T(!new)>(s: seq<T>, c: T, le: (T, T) -> bool)
    requires IsTotalPreorder(le)
    ensures Ties(SortedBy(s, le), c, le) == Ties(s, c, le)
  {
    if s != [] {
      var rest := SortedBy(s[1..], le);
      SortedByIsStable(s[1..], c, le);
      InsertedKeepsTies(s[0], rest, c, le);
      assert ([s[0]] + rest)[1..] == rest;
    }
  }

  lemma SameHead<T(!new)>(a: seq<T>, b: seq<T>, le: (T, T) -> bool)
    requires IsTotalPreorder(le) && multiset(a) == multiset(b) && a != [] && b != []
    requires IsSorted(a, le) && IsSorted(b, le)
    ensures le(a[0], b[0]) && le(b[0], a[0])
  {
    assert b[0] in multiset(a) && a[0] in multiset(b);
    assert le(a[0], a[0]) && le(b[0], b[0]);
    var i :| 0 <= i < |a| && a[i] == b[0];
    var j :| 0 <= j < |b| && b[j] == a[0];
  }

  ghost predicate NoTies<T(!new)>(s: multiset<T>, le: (T, T) -> bool) {
    forall x, y :: x in s && y in s && le(x, y) && le(y, x) ==> x == y
  }

  lemma TailOf<T>(s: seq<T>)
    requires s != []
    ensures multiset(s[1..]) == multiset(s) - multiset{s[0]}
    ensures s[0] in multiset(s) && s == [s[0]] + s[1..]
  {
    assert s == [s[0]] + s[1..];
  }

  /** Without ties there is only one sorted arrangement, whatever the algorithm. */
  lemma {:induction false} SortedIsUnique<T(!new)>(a: seq<T>, b: seq<T>, le: (T, T) -> bool)
    requires IsTotalPreorder(le) && multiset(a) == multiset(b)
    requires IsSorted(a, le) && IsSorted(b, le)
    requires NoTies(multiset(a), le)
    ensures a == b
  {
    SameSize(a, b);
    if a != [] {
      SameHead(a, b, le);
      TailOf(a);
      TailOf(b);
      assert a[0] == b[0];
      SortedIsUnique(a[1..], b[1..], le);
    }
  }

  lemma SameSize<T>(a: seq<T>, b: seq<T>)
    requires multiset(a) == multiset(b)
    ensures |a| == |b|
  {
    assert |multiset(a)| == |a| && |multiset(b)| == |b|;
  }

  ghost predicate SameTies<T(!new)>(a: seq<T>, b: seq<T>, le: (T, T) -> bool) {
    forall c :: Ties(a, c, le) == Ties(b, c, le)
  }

  /** Only one sorted arrangement keeps ties in order, whatever the algorithm. */
  lemma {:induction false} StableIsUnique<T(!new)>(a: seq<T>, b: seq<T>, le: (T, T) -> bool)
    requires IsTotalPreorder(le) && multiset(a) == multiset(b)
    requires IsSorted(a, le) && IsSorted(b, le) && SameTies(a, b, le)
    ensures a == b
  {
    SameSize(a, b);
    if a != [] {
      SameHead(a, b, le);
      TailOf(a);
      TailOf(b);
      assert Ties(a, a[0], le) == Ties(b, a[0], le);
      assert Ties(a, a[0], le)[0] == a[0] && Ties(b, a[0], le)[0] == b[0];
      forall c
        ensures Ties(a[1..], c, le) == Ties(b[1..], c, le)
      {
        assert Ties(a, c, le) == Ties(b, c, le);
        TiesOfTail(a, c, le);
        TiesOfTail(b, c, le);
      }
      StableIsUnique(a[1..], b[1..], le);
    }
  }

  lemma TiesOfTail<T>(s: seq<T>, c: T, le: (T, T) -> bool)
    requires s != []
    ensures Ties(s[1..], c, le) == if le(s[0], c) && le(c, s[0]) then Ties(s, c, le)[1..] else Ties(s, c, le)
  {
  }

  /** Any stable sort gives this arrangement. */
  lemma SortedByIsTheStableSort<T(!new)>(s: seq<T>, other: seq<T>, le: (T, T) -> bool)
    requires IsTotalPreorder(le)
    ensures other == SortedBy(s, le) <==>
            multiset(other) == multiset(s) && IsSorted(other, le) && SameTies(other, s, le)
  {
    SortedByIsSorted(s, le);
    forall c
      ensures Ties(SortedBy(s, le), c, le) == Ties(s, c, le)
    {
      SortedByIsStable(s, c, le);
    }
    if multiset(other) == multiset(s) && IsSorted(other, le) && SameTies(other, s, le) {
      forall c
        ensures Ties(other, c, le) == Ties(SortedBy(s, le), c, le)
      {
        assert Ties(other, c, le) == Ties(s, c, le);
        SortedByIsStable(s, c, le);
      }
      StableIsUnique(other, SortedBy(s, le), le);
    }
  }
}
