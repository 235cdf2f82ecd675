/** Dropping repeats, and listing a set in order. */
module Listings {
  import opened Basics
  import opened Ordering

  // ----- first occurrences

  /** The first of each group of items with equal keys, in order. */
  function FirstOfEach<T, K(==)>(items: seq<T>, key: T -> K): seq<T> {
    if items == [] then []
    else
      var kept := FirstOfEach(items[..|items| - 1], key);
      var x := items[|items| - 1];
      if Seen(kept, key, key(x)) then kept else kept + [x]
  }

  predicate Seen<T, K(==)>(items: seq<T>, key: T -> K, k: K) {
    exists i :: 0 <= i < |items| && key(items[i]) == k
  }

  ghost predicate KeysDiffer<T, K>(items: seq<T>, key: T -> K) {
    forall i, j :: 0 <= i < j < |items| ==> key(items[i]) != key(items[j])
  }

  /** Nothing is repeated, nothing is invented, and no key is lost. */
  lemma {:induction false} FirstOfEachExact<T, K(!new)>(items: seq<T>, key: T -> K)
    ensures KeysDiffer(FirstOfEach(items, key), key)
    ensures forall x :: x in FirstOfEach(items, key) ==> x in items
    ensures forall k :: Seen(FirstOfEach(items, key), key, k) <==> Seen(items, key, k)
  {
    if items != [] {
      var last := |items| - 1;
      var kept := FirstOfEach(items[..last], key);
      FirstOfEachExact(items[..last], key);
      assert items == items[..last] + [items[last]];
      SeenAppend(items[..last], items[last], key);
      SeenAppend(kept, items[last], key);
    }
  }

  lemma SeenAppend<T, K(!new)>(items: seq<T>, x: T, key: T -> K)
    ensures forall k :: Seen(items + [x], key, k) <==> Seen(items, key, k) || key(x) == k
  {
    var longer := items + [x];
    forall k ensures Seen(longer, key, k) <==> Seen(items, key, k) || key(x) == k {
      assert forall i :: 0 <= i < |items| ==> longer[i] == items[i];
      assert longer[|items|] == x;
    }
  }

  lemma {:induction false} KeepsDistinct<T, K(!new)>(items: seq<T>, key: T -> K)
    requires KeysDiffer(items, key)
    ensures FirstOfEach(items, key) == items
  {
    if items != [] {
      KeepsDistinct(items[..|items| - 1], key);
      assert items == items[..|items| - 1] + [items[|items| - 1]];
    }
  }

  /** Dropping repeats early changes nothing. */
  lemma {:induction false} FirstOfEachMerges<T, K(!new)>(a: seq<T>, b: seq<T>, key: T -> K)
    ensures FirstOfEach(FirstOfEach(a, key) + b, key) == FirstOfEach(a + b, key)
  {
    var kept := FirstOfEach(a, key);
    if b == [] {
      FirstOfEachExact(a, key);
      KeepsDistinct(kept, key);
      assert kept + b == kept && a + b == a;
    } else {
      var last := |b| - 1;
      FirstOfEachMerges(a, b[..last], key);
      assert (kept + b)[..|kept + b| - 1] == kept + b[..last];
      assert (a + b)[..|a + b| - 1] == a + b[..last];
    }
  }

  // ----- sorted names

  function Same<T>(x: T): T {
    x
  }

  function Elements<T(==)>(names: seq<T>): set<T> {
    set x | x in names
  }

  function SortedSet<T(==)>(names: seq<T>, leq: (T, T) -> bool): seq<T> {
    Sort(FirstOfEach(names, Same), leq)
  }

  ghost predicate Lists<T(!new)>(s: seq<T>, names: set<T>, leq: (T, T) -> bool) {
    Distinct(s) && SortedBy(s, leq) && forall x :: x in s <==> x in names
  }

  lemma SortedSetLists<T(!new)>(names: seq<T>, leq: (T, T) -> bool)
    requires TotalOrder(leq)
    ensures Lists(SortedSet(names, leq), Elements(names), leq)
  {
    var kept := FirstOfEach(names, Same);
    FirstOfEachExact(names, Same);
    forall x ensures x in kept <==> x in names {
      assert Seen(kept, Same, x) <==> Seen(names, Same, x);
    }
    SortSorts(kept, leq);
    SortKeepsElements(kept, leq);
    PermutationKeepsDistinct(kept, Sort(kept, leq));
  }

  /** There is one way to list a set in order. */
  lemma {:induction false} OneListing<T(!new)>(s: seq<T>, t: seq<T>, names: set<T>, leq: (T, T) -> bool)
    requires Antisymmetric(leq) && Lists(s, names, leq) && Lists(t, names, leq)
    ensures s == t
  {
    EmptyListing(s, names, leq);
    EmptyListing(t, names, leq);
    if names != {} {
      SmallestFirst(s, t, names, leq);
      SmallestFirst(t, s, names, leq);
      TailLists(s, names, leq);
      TailLists(t, names, leq);
      OneListing(s[1..], t[1..], names - {s[0]}, leq);
    }
  }

  lemma EmptyListing<T(!new)>(s: seq<T>, names: set<T>, leq: (T, T) -> bool)
    requires Lists(s, names, leq)
    ensures s == [] <==> names == {}
  {
    assert s != [] ==> s[0] in names;
  }

  lemma SmallestFirst<T(!new)>(s: seq<T>, t: seq<T>, names: set<T>, leq: (T, T) -> bool)
    requires Lists(s, names, leq) && Lists(t, names, leq) && s != [] && t != []
    ensures s[0] == t[0] || leq(s[0], t[0])
  {
    assert t[0] in names;
    var i :| 0 <= i < |s| && s[i] == t[0];
  }

  lemma TailLists<T(!new)>(s: seq<T>, names: set<T>, leq: (T, T) -> bool)
    requires Lists(s, names, leq) && s != []
    ensures Lists(s[1..], names - {s[0]}, leq)
  {
    forall x ensures x in s[1..] <==> x in names - {s[0]} {
      assert s == [s[0]] + s[1..];
      assert x in s <==> x in names;
    }
  }

  lemma SortedSetDependsOnElements<T(!new)>(a: seq<T>, b: seq<T>, leq: (T, T) -> bool)
    requires TotalOrder(leq) && Antisymmetric(leq) && forall x :: x in a <==> x in b
    ensures SortedSet(a, leq) == SortedSet(b, leq)
  {
    SortedSetLists(a, leq);
    SortedSetLists(b, leq);
    assert Elements(a) == Elements(b);
    OneListing(SortedSet(a, leq), SortedSet(b, leq), Elements(a), leq);
  }
}
