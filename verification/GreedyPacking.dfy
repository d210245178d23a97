/** Packing items in order into groups of limited size, and why the greedy way is best. */
module GreedyPacking {

  datatype Item<T> = Item(value: T, size: nat)

  function Size<T>(group: seq<Item<T>>): nat {
    if group == [] then 0 else group[0].size + Size(group[1..])
  }

  /** A group holds something, and more than one item only within the limit. */
  predicate Fits<T>(group: seq<Item<T>>, limit: int) {
    group != [] && (|group| == 1 || Size(group) <= limit)
  }

  function Flat<T>(groups: seq<seq<T>>): seq<T> {
    if groups == [] then [] else groups[0] + Flat(groups[1..])
  }

  /** All items, in order, in groups that fit. */
  ghost predicate IsGrouping<T>(groups: seq<seq<Item<T>>>, items: seq<Item<T>>, limit: int) {
    Flat(groups) == items && forall g :: g in groups ==> Fits(g, limit)
  }

  /** Packing `items` behind an open group: it is closed when the next item is too much. */
  function Packed<T>(group: seq<Item<T>>, items: seq<Item<T>>, limit: int): seq<seq<Item<T>>>
    decreases |items|
  {
    if items == [] then (if group == [] then [] else [group])
    else if group != [] && Size(group) + items[0].size > limit then
      [group] + Packed([items[0]], items[1..], limit)
    else Packed(group + [items[0]], items[1..], limit)
  }

  lemma {:induction false} SizeConcat<T>(a: seq<Item<T>>, b: seq<Item<T>>)
    ensures Size(a + b) == Size(a) + Size(b)
  {
    if a == [] {
      assert a + b == b;
    } else {
      assert (a + b)[1..] == a[1..] + b;
      SizeConcat(a[1..], b);
    }
  }

  lemma SizeOne<T>(x: Item<T>)
    ensures Size([x]) == x.size
  {
    assert [x][1..] == [];
  }

  /** One step of a loop that closes groups and collects them in `done`. */
  lemma CloseGroup<T>(all: seq<seq<Item<T>>>, done: seq<seq<Item<T>>>,
                      group: seq<Item<T>>, items: seq<Item<T>>, limit: int)
    requires all == done + Packed(group, items, limit)
    requires group != [] && (items == [] || Size(group) + items[0].size > limit)
    ensures all == done + [group] + Packed([], items, limit)
  {
    if items != [] {
      assert [] + [items[0]] == [items[0]];
    }
    assert Packed(group, items, limit) == [group] + Packed([], items, limit);
  }

  /** One step that adds the next item to the open group. */
  lemma AddItem<T>(all: seq<seq<Item<T>>>, done: seq<seq<Item<T>>>,
                   group: seq<Item<T>>, items: seq<Item<T>>, limit: int)
    requires all == done + Packed(group, items, limit)
    requires items != [] && (group == [] || Size(group) + items[0].size <= limit)
    ensures all == done + Packed(group + [items[0]], items[1..], limit)
    ensures Size(group + [items[0]]) == Size(group) + items[0].size
  {
    SizeOne(items[0]);
    SizeConcat(group, [items[0]]);
  }

  // ---- it is a grouping -------------------------------------------------------------------

  lemma {:induction false} PackedIsGrouping<T>(group: seq<Item<T>>, items: seq<Item<T>>, limit: int)
    requires group == [] || Fits(group, limit)
    ensures IsGrouping(Packed(group, items, limit), group + items, limit)
    decreases |items|
  {
    if items == [] {
      assert group + items == group;
      if group != [] {
        assert [group][1..] == [] && Flat([group]) == group;
      }
    } else {
      var x, rest := items[0], items[1..];
      SizeOne(x);
      assert [x] + rest == items;
      if group != [] && Size(group) + x.size > limit {
        PackedIsGrouping([x], rest, limit);
        var more := Packed([x], rest, limit);
        assert ([group] + more)[1..] == more;
      } else {
        SizeConcat(group, [x]);
        assert group + [x] + rest == group + items;
        PackedIsGrouping(group + [x], rest, limit);
      }
    }
  }

  // ---- no grouping has fewer groups -------------------------------------------------------

  /** How many groups packing ends with, an open one of this size included. */
  function Count<T>(open: nat, items: seq<Item<T>>, limit: int): nat
    decreases |items|
  {
    if items == [] then 1
    else if open + items[0].size > limit then 1 + Count(items[0].size, items[1..], limit)
    else Count(open + items[0].size, items[1..], limit)
  }

  lemma {:induction false} PackedCount<T>(group: seq<Item<T>>, items: seq<Item<T>>, limit: int)
    requires group != []
    ensures |Packed(group, items, limit)| == Count(Size(group), items, limit)
    decreases |items|
  {
    if items != [] {
      var x := items[0];
      SizeOne(x);
      SizeConcat(group, [x]);
      if Size(group) + x.size > limit {
        PackedCount([x], items[1..], limit);
      } else {
        PackedCount(group + [x], items[1..], limit);
      }
    }
  }

  /** A fuller open group never helps. */
  lemma {:induction false} FullerIsWorse<T>(s: nat, t: nat, items: seq<Item<T>>, limit: int)
    requires s <= t
    ensures Count(s, items, limit) <= Count(t, items, limit)
    decreases |items|, 0
  {
    if items != [] {
      var w, rest := items[0].size, items[1..];
      if t + w <= limit {
        FullerIsWorse(s + w, t + w, rest, limit);
      } else if s + w <= limit {
        OneApart(s + w, w, rest, limit);
      }
    }
  }

  /** Whatever the open group, the counts differ by at most one. */
  lemma {:induction false} OneApart<T>(s: nat, t: nat, items: seq<Item<T>>, limit: int)
    ensures Count(s, items, limit) <= 1 + Count(t, items, limit)
    decreases |items|, 1
  {
    if items != [] {
      var w, rest := items[0].size, items[1..];
      if s + w > limit {
        if t + w <= limit {
          FullerIsWorse(w, t + w, rest, limit);
        }
      } else {
        OneApart(s + w, if t + w > limit then w else t + w, rest, limit);
      }
    }
  }

  lemma {:induction false} CountWithin<T>(open: nat, more: seq<Item<T>>, items: seq<Item<T>>, limit: int)
    requires more == [] || open + Size(more) <= limit
    ensures Count(open, more + items, limit) == Count(open + Size(more), items, limit)
    decreases |more|
  {
    if more == [] {
      assert more + items == items;
    } else {
      assert (more + items)[1..] == more[1..] + items;
      CountWithin(open + more[0].size, more[1..], items, limit);
    }
  }

  lemma {:induction false} NoGroupingHasFewer<T>(groups: seq<seq<Item<T>>>, items: seq<Item<T>>, limit: int)
    requires IsGrouping(groups, items, limit) && items != []
    ensures Count(items[0].size, items[1..], limit) <= |groups|
    decreases |groups|
  {
    var g, rest := groups[0], Flat(groups[1..]);
    assert g in groups && Fits(g, limit);
    assert items[1..] == g[1..] + rest;
    CountWithin(g[0].size, g[1..], rest, limit);
    if rest != [] {
      NoGroupingHasFewer(groups[1..], rest, limit);
      OneApart(Size(g) + rest[0].size, rest[0].size, rest[1..], limit);
    }
  }

  /** Greedy packing groups all items in order, and no grouping that fits has fewer groups. */
  lemma PackedIsOptimal<T>(items: seq<Item<T>>, limit: int, groups: seq<seq<Item<T>>>)
    requires IsGrouping(groups, items, limit)
    ensures IsGrouping(Packed([], items, limit), items, limit)
    ensures |Packed([], items, limit)| <= |groups|
  {
    PackedIsGrouping([], items, limit);
    assert [] + items == items;
    if items != [] {
      SizeOne(items[0]);
      assert [] + [items[0]] == [items[0]];
      PackedCount([items[0]], items[1..], limit);
      NoGroupingHasFewer(groups, items, limit);
    }
  }
}
