// Selections and maps over lists, and what a reordering of the list does to them.
module Lists {

  function Filter<T>(keep: T -> bool, items: seq<T>): seq<T> {
    if items == [] then []
    else (if keep(items[0]) then [items[0]] else []) + Filter(keep, items[1..])
  }

  function MapAll<T, U>(f: T -> U, items: seq<T>): (r: seq<U>)
    ensures |r| == |items|
    ensures forall i :: 0 <= i < |items| ==> r[i] == f(items[i])
  {
    if items == [] then [] else [f(items[0])] + MapAll(f, items[1..])
  }

  // The elements of `a`, in their order, among those of `b`.
  predicate Subsequence<T(==)>(a: seq<T>, b: seq<T>) {
    a == [] || (b != [] && ((a[0] == b[0] && Subsequence(a[1..], b[1..])) || Subsequence(a, b[1..])))
  }

  lemma MapMembers<T, U>(f: T -> U, items: seq<T>)
    ensures forall y :: y in MapAll(f, items) <==> exists x :: x in items && f(x) == y
  {
    forall y
      ensures y in MapAll(f, items) <==> exists x :: x in items && f(x) == y
    {
      if x :| x in items && f(x) == y {
        var i :| 0 <= i < |items| && items[i] == x;
        assert MapAll(f, items)[i] == y;
      }
    }
  }

  lemma {:induction false} FilterSplit<T>(keep: T -> bool, items: seq<T>, k: nat)
    requires k < |items|
    ensures Filter(keep, items[..k + 1]) == Filter(keep, items[..k]) + if keep(items[k]) then [items[k]] else []
  {
    if k == 0 {
      assert items[..1] == [items[0]] && items[..0] == [];
    } else {
      FilterSplit(keep, items[1..], k - 1);
      assert items[..k + 1][1..] == items[1..][..k];
      assert items[..k][1..] == items[1..][..k - 1];
    }
  }

  lemma {:induction false} FilterMembers<T>(keep: T -> bool, items: seq<T>)
    ensures |Filter(keep, items)| <= |items|
    ensures forall x :: x in Filter(keep, items) <==> x in items && keep(x)
  {
    if items != [] {
      FilterMembers(keep, items[1..]);
      assert items == [items[0]] + items[1..];
    }
  }

  lemma {:induction false} FilterKeepsOrder<T>(keep: T -> bool, items: seq<T>)
    ensures Subsequence(Filter(keep, items), items)
  {
    if items != [] {
      FilterKeepsOrder(keep, items[1..]);
      var rest := Filter(keep, items[1..]);
      if keep(items[0]) {
        assert ([items[0]] + rest)[1..] == rest;
      } else {
        assert Filter(keep, items) == rest;
      }
    }
  }

  // The places of the elements that pass.
  function Places<T>(keep: T -> bool, items: seq<T>): (r: set<nat>)
    ensures forall i: nat :: i in r <==> i < |items| && keep(items[i])
  {
    set i: nat | i < |items| && keep(items[i])
  }

  lemma {:induction false} FilterCounts<T>(keep: T -> bool, items: seq<T>)
    ensures |Filter(keep, items)| == |Places(keep, items)|
  {
    if items != [] {
      var last := |items| - 1;
      FilterCounts(keep, items[..last]);
      FilterSplit(keep, items, last);
      assert items[..last + 1] == items;
      assert Places(keep, items) == Places(keep, items[..last]) + if keep(items[last]) then {last} else {};
    }
  }

  lemma {:induction false} FilterConcat<T>(keep: T -> bool, a: seq<T>, b: seq<T>)
    ensures Filter(keep, a + b) == Filter(keep, a) + Filter(keep, b)
  {
    if a == [] {
      assert a + b == b;
    } else {
      var head := if keep(a[0]) then [a[0]] else [];
      FilterConcat(keep, a[1..], b);
      Associates([a[0]], a[1..], b);
      Associates(head, Filter(keep, a[1..]), Filter(keep, b));
      assert a == [a[0]] + a[1..];
      assert (a + b)[1..] == a[1..] + b;
      assert Filter(keep, a + b) == head + Filter(keep, a[1..] + b);
    }
  }

  lemma Associates<T>(a: seq<T>, b: seq<T>, c: seq<T>)
    ensures a + (b + c) == (a + b) + c
  {
  }

  lemma MapConcat<T, U>(f: T -> U, a: seq<T>, b: seq<T>)
    ensures MapAll(f, a + b) == MapAll(f, a) + MapAll(f, b)
  {
    forall i | 0 <= i < |a + b|
      ensures MapAll(f, a + b)[i] == (MapAll(f, a) + MapAll(f, b))[i]
    {
      assert (a + b)[i] == if i < |a| then a[i] else b[i - |a|];
    }
  }

  // Where the first element of a list sits in a reordering of it.
  lemma Located<T>(a: seq<T>, b: seq<T>) returns (i: nat)
    requires a != [] && multiset(a) == multiset(b)
    ensures i < |b| && b[i] == a[0] && b == b[..i] + ([a[0]] + b[i + 1..])
    ensures multiset(a[1..]) == multiset(b[..i] + b[i + 1..])
  {
    assert a[0] in multiset(b);
    i :| 0 <= i < |b| && b[i] == a[0];
    assert b == b[..i] + ([a[0]] + b[i + 1..]);
    assert a == [] + ([a[0]] + a[1..]);
    assert [] + a[1..] == a[1..];
    MiddleOut(b[..i], [a[0]], b[i + 1..]);
    MiddleOut([], [a[0]], a[1..]);
    Cancel(multiset([a[0]]), multiset(a[1..]), multiset(b[..i] + b[i + 1..]));
  }

  lemma Cancel<T>(x: multiset<T>, y: multiset<T>, z: multiset<T>)
    requires x + y == x + z
    ensures y == z
  {
    assert y == (x + y) - x;
    assert z == (x + z) - x;
  }

  lemma MiddleOut<T>(x: seq<T>, y: seq<T>, z: seq<T>)
    ensures multiset(x + (y + z)) == multiset(y) + multiset(x + z)
  {
  }

  // Filtering a reordering gives a reordering.
  lemma {:induction false} FilterReordered<T>(keep: T -> bool, a: seq<T>, b: seq<T>)
    requires multiset(a) == multiset(b)
    ensures multiset(Filter(keep, a)) == multiset(Filter(keep, b))
  {
    if a == [] {
      assert |multiset(b)| == 0;
    } else {
      var i := Located(a, b);
      var head := if keep(a[0]) then [a[0]] else [];
      FilterReordered(keep, a[1..], b[..i] + b[i + 1..]);
      FilterConcat(keep, b[..i], b[i + 1..]);
      FilterConcat(keep, b[..i], [a[0]] + b[i + 1..]);
      assert ([a[0]] + b[i + 1..])[1..] == b[i + 1..];
      MiddleOut(Filter(keep, b[..i]), head, Filter(keep, b[i + 1..]));
    }
  }

  // Mapping a reordering gives a reordering.
  lemma {:induction false} MapReordered<T, U>(f: T -> U, a: seq<T>, b: seq<T>)
    requires multiset(a) == multiset(b)
    ensures multiset(MapAll(f, a)) == multiset(MapAll(f, b))
  {
    if a == [] {
      assert |multiset(b)| == 0;
    } else {
      var i := Located(a, b);
      MapReordered(f, a[1..], b[..i] + b[i + 1..]);
      MapConcat(f, b[..i], b[i + 1..]);
      MapConcat(f, b[..i], [a[0]] + b[i + 1..]);
      assert ([a[0]] + b[i + 1..])[1..] == b[i + 1..];
      assert MapAll(f, [a[0]] + b[i + 1..]) == [f(a[0])] + MapAll(f, b[i + 1..]);
      MiddleOut(MapAll(f, b[..i]), [f(a[0])], MapAll(f, b[i + 1..]));
    }
  }

  lemma SameLength<T>(a: seq<T>, b: seq<T>)
    requires multiset(a) == multiset(b)
    ensures |a| == |b| && forall x :: x in a <==> x in b
  {
    assert |a| == |multiset(a)| && |b| == |multiset(b)|;
    forall x
      ensures x in a <==> x in b
    {
      assert x in a <==> x in multiset(a);
      assert x in b <==> x in multiset(b);
    }
  }

  // ---------------------------------------------------------------- sorting by a key

  predicate Sorted<T>(key: T -> int, items: seq<T>) {
    forall i, j :: 0 <= i < j < |items| ==> key(items[i]) <= key(items[j])
  }

  predicate StrictlySorted<T>(key: T -> int, items: seq<T>) {
    forall i, j :: 0 <= i < j < |items| ==> key(items[i]) < key(items[j])
  }

  function Insert<T>(key: T -> int, item: T, items: seq<T>): seq<T> {
    if items == [] then [item]
    else if key(item) <= key(items[0]) then [item] + items
    else [items[0]] + Insert(key, item, items[1..])
  }

  // The stable sort by a key.
  function SortBy<T>(key: T -> int, items: seq<T>): seq<T> {
    if items == [] then [] else Insert(key, items[0], SortBy(key, items[1..]))
  }

  lemma {:induction false} InsertAdds<T>(key: T -> int, item: T, items: seq<T>)
    ensures multiset(Insert(key, item, items)) == multiset{item} + multiset(items)
  {
    if items != [] {
      InsertAdds(key, item, items[1..]);
      assert items == [items[0]] + items[1..];
    }
  }

  lemma PrependSorts<T>(key: T -> int, item: T, items: seq<T>)
    requires Sorted(key, items) && forall x :: x in items ==> key(item) <= key(x)
    ensures Sorted(key, [item] + items)
  {
  }

  lemma {:induction false} InsertSorts<T>(key: T -> int, item: T, items: seq<T>)
    requires Sorted(key, items)
    ensures Sorted(key, Insert(key, item, items))
  {
    if items != [] && key(item) > key(items[0]) {
      var tail := Insert(key, item, items[1..]);
      InsertSorts(key, item, items[1..]);
      InsertAdds(key, item, items[1..]);
      forall x | x in tail
        ensures key(items[0]) <= key(x)
      {
        assert x in multiset(tail);
        assert x == item || x in items[1..];
      }
      PrependSorts(key, items[0], tail);
    } else {
      PrependSorts(key, item, items);
    }
  }

  lemma {:induction false} SortBySorts<T>(key: T -> int, items: seq<T>)
    ensures Sorted(key, SortBy(key, items))
    ensures multiset(SortBy(key, items)) == multiset(items)
  {
    if items != [] {
      SortBySorts(key, items[1..]);
      InsertSorts(key, items[0], SortBy(key, items[1..]));
      InsertAdds(key, items[0], SortBy(key, items[1..]));
      assert items == [items[0]] + items[1..];
    }
  }

  // Without equal keys there is only one way to sort.
  lemma {:induction false} SortedIsUnique<T>(key: T -> int, a: seq<T>, b: seq<T>)
    requires Sorted(key, a) && StrictlySorted(key, b) && multiset(a) == multiset(b)
    ensures a == b
  {
    SameLength(a, b);
    if a != [] {
      assert b[0] in a && a[0] in b;
      var i :| 0 <= i < |a| && a[i] == b[0];
      var j :| 0 <= j < |b| && b[j] == a[0];
      assert a[0] == b[0];
      assert a == [a[0]] + a[1..] && b == [b[0]] + b[1..];
      Cancel(multiset{a[0]}, multiset(a[1..]), multiset(b[1..]));
      SortedIsUnique(key, a[1..], b[1..]);
    }
  }

  lemma HeadIsNotInTail<T>(key: T -> int, items: seq<T>)
    requires items != [] && StrictlySorted(key, items)
    ensures forall x :: x in items[1..] <==> x in items && x != items[0]
  {
    assert items == [items[0]] + items[1..];
  }

  lemma Member<T>(items: seq<T>) returns (x: T)
    requires items != []
    ensures x in items
  {
    x := items[0];
  }

  // A list in strict order is determined by its members.
  lemma {:induction false} MembersDetermineOrder<T>(key: T -> int, a: seq<T>, b: seq<T>)
    requires StrictlySorted(key, a) && StrictlySorted(key, b)
    requires forall x :: x in a <==> x in b
    ensures a == b
  {
    if a == [] {
      if b != [] {
        var x := Member(b);
        assert false;
      }
    } else {
      assert a[0] in b;
      assert b[0] in a;
      assert a[0] == b[0];
      HeadIsNotInTail(key, a);
      HeadIsNotInTail(key, b);
      MembersDetermineOrder(key, a[1..], b[1..]);
      assert a == [a[0]] + a[1..] && b == [b[0]] + b[1..];
    }
  }
}
