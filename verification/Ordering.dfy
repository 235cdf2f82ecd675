/** Lexicographic order on strings, and sorting by an order. */
module Ordering {
  import opened Basics

  ghost predicate TotalOrder<T(!new)>(leq: (T, T) -> bool) {
    && (forall a, b :: leq(a, b) || leq(b, a))
    && (forall a, b, c :: leq(a, b) && leq(b, c) ==> leq(a, c))
  }

  ghost predicate Antisymmetric<T(!new)>(leq: (T, T) -> bool) {
    forall a, b :: leq(a, b) && leq(b, a) ==> a == b
  }

  predicate StrLeq(a: string, b: string) {
    a == [] || (b != [] && (a[0] < b[0] || (a[0] == b[0] && StrLeq(a[1..], b[1..]))))
  }

  lemma StrTotal(a: string, b: string)
    ensures StrLeq(a, b) || StrLeq(b, a)
  {
  }

  lemma StrAntisymmetric(a: string, b: string)
    requires StrLeq(a, b) && StrLeq(b, a)
    ensures a == b
  {
    if a != [] && b != [] {
      StrAntisymmetric(a[1..], b[1..]);
      assert a == [a[0]] + a[1..] && b == [b[0]] + b[1..];
    }
  }

  lemma StrTransitive(a: string, b: string, c: string)
    requires StrLeq(a, b) && StrLeq(b, c)
    ensures StrLeq(a, c)
  {
    if a != [] && a[0] == b[0] == c[0] {
      StrTransitive(a[1..], b[1..], c[1..]);
    }
  }

  lemma StringOrderIsTotal()
    ensures TotalOrder(StrLeq)
  {
    forall a: string, b: string ensures StrLeq(a, b) || StrLeq(b, a) {
      StrTotal(a, b);
    }
    forall a: string, b: string, c: string | StrLeq(a, b) && StrLeq(b, c) ensures StrLeq(a, c) {
      StrTransitive(a, b, c);
    }
  }

  lemma StringOrderIsAntisymmetric()
    ensures Antisymmetric(StrLeq)
  {
    forall a: string, b: string | StrLeq(a, b) && StrLeq(b, a) ensures a == b {
      StrAntisymmetric(a, b);
    }
  }

  // ----- stable insertion sort: what `sorted` and `list.sort` compute

  function Insert<T>(x: T, s: seq<T>, leq: (T, T) -> bool): seq<T> {
    if s == [] then [x]
    else if leq(x, s[0]) then [x] + s
    else [s[0]] + Insert(x, s[1..], leq)
  }

  function Sort<T>(s: seq<T>, leq: (T, T) -> bool): seq<T> {
    if s == [] then [] else Insert(s[0], Sort(s[1..], leq), leq)
  }

  ghost predicate SortedBy<T>(s: seq<T>, leq: (T, T) -> bool) {
    forall i, j :: 0 <= i < j < |s| ==> leq(s[i], s[j])
  }

  lemma {:induction false} InsertKeepsElements<T>(x: T, s: seq<T>, leq: (T, T) -> bool)
    ensures multiset(Insert(x, s, leq)) == multiset(s) + multiset{x}
  {
    if s != [] {
      assert s == [s[0]] + s[1..];
      if !leq(x, s[0]) {
        InsertKeepsElements(x, s[1..], leq);
      }
    }
  }

  lemma {:induction false} InsertSorts<T(!new)>(x: T, s: seq<T>, leq: (T, T) -> bool)
    requires TotalOrder(leq) && SortedBy(s, leq)
    ensures SortedBy(Insert(x, s, leq), leq)
  {
    if s != [] && !leq(x, s[0]) {
      InsertSorts(x, s[1..], leq);
      InsertKeepsElements(x, s[1..], leq);
      PrependSorted(s[0], Insert(x, s[1..], leq), multiset(s[1..]) + multiset{x}, leq);
    } else if s != [] {
      PrependSorted(x, s, multiset(s), leq);
    }
  }

  lemma PrependSorted<T>(x: T, s: seq<T>, elements: multiset<T>, leq: (T, T) -> bool)
    requires SortedBy(s, leq) && multiset(s) == elements
    requires forall y :: y in elements ==> leq(x, y)
    ensures SortedBy([x] + s, leq)
  {
    assert forall j :: 0 <= j < |s| ==> s[j] in multiset(s);
  }

  lemma {:induction false} SortSorts<T(!new)>(s: seq<T>, leq: (T, T) -> bool)
    requires TotalOrder(leq)
    ensures SortedBy(Sort(s, leq), leq)
  {
    if s != [] {
      SortSorts(s[1..], leq);
      InsertSorts(s[0], Sort(s[1..], leq), leq);
    }
  }

  lemma {:induction false} SortKeepsElements<T>(s: seq<T>, leq: (T, T) -> bool)
    ensures multiset(Sort(s, leq)) == multiset(s)
    ensures |Sort(s, leq)| == |s| && forall x :: x in Sort(s, leq) <==> x in s
  {
    if s != [] {
      SortKeepsElements(s[1..], leq);
      InsertKeepsElements(s[0], Sort(s[1..], leq), leq);
      assert s == [s[0]] + s[1..];
    }
    assert |multiset(Sort(s, leq))| == |multiset(s)|;
    assert forall x :: x in Sort(s, leq) <==> x in multiset(Sort(s, leq));
    assert forall x :: x in s <==> x in multiset(s);
  }

  // ----- permutations

  lemma {:induction false} DistinctCounts<T>(s: seq<T>, x: T)
    requires Distinct(s)
    ensures multiset(s)[x] <= 1
  {
    if s != [] {
      assert s == [s[0]] + s[1..];
      DistinctCounts(s[1..], x);
      assert s[0] !in s[1..];
    }
  }

  lemma TwiceCounts<T>(t: seq<T>, i: nat, j: nat)
    requires i < j < |t| && t[i] == t[j]
    ensures multiset(t)[t[i]] >= 2
  {
    assert t == t[..i] + [t[i]] + t[i + 1..j] + [t[j]] + t[j + 1..];
  }

  lemma PermutationKeepsDistinct<T>(s: seq<T>, t: seq<T>)
    requires Distinct(s) && multiset(s) == multiset(t)
    ensures Distinct(t)
  {
    forall i, j | 0 <= i < j < |t|
      ensures t[i] != t[j]
    {
      DistinctCounts(s, t[i]);
      if t[i] == t[j] {
        TwiceCounts(t, i, j);
      }
    }
  }
}
