/** The stable sort that the language's `Array.sort` is specified to be. */
module Sorting {
  import opened Sequences

  ghost predicate TotalPreorder<T(!new)>(leq: (T, T) -> bool) {
    && (forall x, y :: leq(x, y) || leq(y, x))
    && (forall x, y, z :: leq(x, y) && leq(y, z) ==> leq(x, z))
  }

  ghost predicate Sorted<T>(s: seq<T>, leq: (T, T) -> bool) {
    forall j, k :: 0 <= j < k < |s| ==> leq(s[j], s[k])
  }

  function Insert<T>(x: T, s: seq<T>, leq: (T, T) -> bool): seq<T> {
    if s == [] || leq(x, s[0]) then [x] + s else [s[0]] + Insert(x, s[1..], leq)
  }

  function StableSort<T>(s: seq<T>, leq: (T, T) -> bool): seq<T> {
    if s == [] then [] else Insert(s[0], StableSort(s[1..], leq), leq)
  }

  lemma {:induction false} InsertMembers<T(!new)>(x: T, s: seq<T>, leq: (T, T) -> bool)
    ensures multiset(Insert(x, s, leq)) == multiset(s) + multiset{x}
    ensures forall y :: y in Insert(x, s, leq) <==> y == x || y in s
  {
    if s == [] || leq(x, s[0]) {
    } else {
      InsertMembers(x, s[1..], leq);
      assert s == [s[0]] + s[1..];
    }
  }

  lemma ConsSorted<T(!new)>(x: T, s: seq<T>, leq: (T, T) -> bool)
    requires Sorted(s, leq) && forall y :: y in s ==> leq(x, y)
    ensures Sorted([x] + s, leq)
  {
  }

  lemma HeadIsLeast<T>(s: seq<T>, x: T, leq: (T, T) -> bool)
    requires Sorted(s, leq) && x in s
    ensures x == s[0] || leq(s[0], x)
  {
    var k :| 0 <= k < |s| && s[k] == x;
  }

  lemma {:induction false} InsertKeeps<T(!new)>(x: T, s: seq<T>, leq: (T, T) -> bool)
    requires TotalPreorder(leq) && Sorted(s, leq)
    ensures Sorted(Insert(x, s, leq), leq)
  {
    if s == [] {
    } else if leq(x, s[0]) {
      forall y | y in s ensures leq(x, y) {
        HeadIsLeast(s, y, leq);
      }
      ConsSorted(x, s, leq);
    } else {
      InsertKeeps(x, s[1..], leq);
      InsertMembers(x, s[1..], leq);
      forall y | y in Insert(x, s[1..], leq) ensures leq(s[0], y) {
        assert y in s[1..] ==> y in s;
        if y in s {
          HeadIsLeast(s, y, leq);
        }
      }
      ConsSorted(s[0], Insert(x, s[1..], leq), leq);
    }
  }

  lemma {:induction false} SortKeeps<T(!new)>(s: seq<T>, leq: (T, T) -> bool)
    requires TotalPreorder(leq)
    ensures Sorted(StableSort(s, leq), leq) && multiset(StableSort(s, leq)) == multiset(s)
    ensures forall y :: y in StableSort(s, leq) <==> y in s
    ensures |StableSort(s, leq)| == |s|
  {
    if s != [] {
      SortKeeps(s[1..], leq);
      InsertKeeps(s[0], StableSort(s[1..], leq), leq);
      InsertMembers(s[0], StableSort(s[1..], leq), leq);
      assert s == [s[0]] + s[1..];
      assert |multiset(StableSort(s, leq))| == |multiset(s)|;
    }
  }

  function Filter<T>(s: seq<T>, keep: T -> bool): seq<T> {
    if s == [] then [] else (if keep(s[0]) then [s[0]] else []) + Filter(s[1..], keep)
  }

  lemma FilterCons<T>(x: T, s: seq<T>, keep: T -> bool)
    ensures Filter([x] + s, keep) == (if keep(x) then [x] else []) + Filter(s, keep)
  {
    assert ([x] + s)[1..] == s;
  }

  lemma {:induction false} FilterMembers<T(!new)>(s: seq<T>, keep: T -> bool)
    ensures forall y :: y in Filter(s, keep) <==> y in s && keep(y)
  {
    if s != [] {
      FilterMembers(s[1..], keep);
      assert s == [s[0]] + s[1..];
    }
  }

  lemma {:induction false} FilterAll<T>(s: seq<T>, keep: T -> bool, all: bool)
    requires forall x :: x in s ==> keep(x) == all
    ensures Filter(s, keep) == if all then s else []
  {
    if s != [] {
      FilterAll(s[1..], keep, all);
      assert s == [s[0]] + s[1..];
    }
  }

  lemma FilterPlusOne<T>(x: T, a: seq<T>, b: seq<T>, keep: T -> bool)
    requires Filter(a + b, keep) == Filter(a, keep) + Filter(b, keep)
    ensures Filter([x] + (a + b), keep) == Filter([x] + a, keep) + Filter(b, keep)
  {
    FilterCons(x, a + b, keep);
    FilterCons(x, a, keep);
    var head := if keep(x) then [x] else [];
    assert head + (Filter(a, keep) + Filter(b, keep)) == (head + Filter(a, keep)) + Filter(b, keep);
  }

  lemma {:induction false} FilterPlus<T>(a: seq<T>, b: seq<T>, keep: T -> bool)
    ensures Filter(a + b, keep) == Filter(a, keep) + Filter(b, keep)
  {
    if a == [] {
      assert a + b == b;
    } else {
      FilterPlus(a[1..], b, keep);
      FilterPlusOne(a[0], a[1..], b, keep);
      ConsPlus(a, b);
    }
  }

  lemma {:induction false} FilterSorted<T(!new)>(s: seq<T>, leq: (T, T) -> bool, keep: T -> bool)
    requires Sorted(s, leq)
    ensures Sorted(Filter(s, keep), leq)
  {
    if s != [] {
      var rest := Filter(s[1..], keep);
      FilterSorted(s[1..], leq, keep);
      FilterMembers(s[1..], keep);
      ConsSorted(s[0], rest, leq);
      assert [] + rest == rest;
    }
  }

  /** Elements that come in order already keep their order among themselves. */
  lemma {:induction false} SortIsStable<T(!new)>(s: seq<T>, leq: (T, T) -> bool, keep: T -> bool)
    requires TotalPreorder(leq) && Sorted(Filter(s, keep), leq)
    ensures Filter(StableSort(s, leq), keep) == Filter(s, keep)
  {
    if s != [] {
      var x, rest := s[0], Filter(s[1..], keep);
      if keep(x) {
        assert Filter(s, keep)[0] == x && Filter(s, keep)[1..] == rest;
        assert forall y :: y in rest ==> leq(x, y);
      } else {
        assert Filter(s, keep) == rest;
      }
      SortIsStable(s[1..], leq, keep);
      FilterMembers(StableSort(s[1..], leq), keep);
      InsertStable(x, StableSort(s[1..], leq), leq, keep);
    }
  }

  lemma {:induction false} InsertStable<T(!new)>(x: T, s: seq<T>, leq: (T, T) -> bool, keep: T -> bool)
    requires keep(x) ==> forall y :: y in s && keep(y) ==> leq(x, y)
    ensures Filter(Insert(x, s, leq), keep) == (if keep(x) then [x] else []) + Filter(s, keep)
  {
    if s == [] || leq(x, s[0]) {
      FilterCons(x, s, keep);
    } else {
      InsertStable(x, s[1..], leq, keep);
      FilterCons(s[0], Insert(x, s[1..], leq), keep);
    }
  }

  lemma MultisetTail<T>(s: seq<T>)
    requires s != []
    ensures multiset(s[1..]) == multiset(s) - multiset{s[0]}
  {
    assert s == [s[0]] + s[1..];
  }

  /** Under an antisymmetric order a sorted sequence is determined by its elements. */
  lemma {:induction false} SortedUnique<T(!new)>(a: seq<T>, b: seq<T>, leq: (T, T) -> bool)
    requires Sorted(a, leq) && Sorted(b, leq) && multiset(a) == multiset(b)
    requires forall x, y :: leq(x, y) && leq(y, x) ==> x == y
    ensures a == b
  {
    assert |a| == |multiset(a)| == |multiset(b)| == |b|;
    if a != [] {
      assert a[0] in multiset(a) && b[0] in multiset(b);
      HeadIsLeast(a, b[0], leq);
      HeadIsLeast(b, a[0], leq);
      MultisetTail(a);
      MultisetTail(b);
      SortedUnique(a[1..], b[1..], leq);
      assert a == [a[0]] + a[1..] && b == [b[0]] + b[1..];
    }
  }
}
