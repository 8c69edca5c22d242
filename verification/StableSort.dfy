/** What `sort.SliceStable` and `sort.Slice` promise, for any strict weak order. */
module StableSort {

  ghost predicate StrictWeakOrder<T(!new)>(less: (T, T) -> bool) {
    && (forall x, y :: less(x, y) ==> !less(y, x))
    && (forall x, y, z :: less(x, z) ==> less(x, y) || less(y, z))
  }

  ghost predicate Sorted<T>(less: (T, T) -> bool, s: seq<T>) {
    forall i, j :: 0 <= i < j < |s| ==> !less(s[j], s[i])
  }

  predicate Equivalent<T>(less: (T, T) -> bool, x: T, y: T) {
    !less(x, y) && !less(y, x)
  }

  /** The elements that tie with `x`, in the order they stand in `s`. */
  function Class<T(!new)>(less: (T, T) -> bool, x: T, s: seq<T>): (r: seq<T>)
    ensures forall y :: y in r <==> y in s && Equivalent(less, x, y)
  {
    if s == [] then []
    else if Equivalent(less, x, s[0]) then [s[0]] + Class(less, x, s[1..])
    else Class(less, x, s[1..])
  }

  /** A stable rearrangement keeps every class of ties in its original order. */
  ghost predicate SameClasses<T(!new)>(less: (T, T) -> bool, a: seq<T>, b: seq<T>) {
    forall x :: Class(less, x, a) == Class(less, x, b)
  }

  function Insert<T>(less: (T, T) -> bool, x: T, s: seq<T>): seq<T> {
    if s == [] || !less(s[0], x) then [x] + s else [s[0]] + Insert(less, x, s[1..])
  }

  function Sort<T>(less: (T, T) -> bool, s: seq<T>): seq<T> {
    if s == [] then [] else Insert(less, s[0], Sort(less, s[1..]))
  }

  lemma {:induction false} InsertKeepsElements<T>(less: (T, T) -> bool, x: T, s: seq<T>)
    ensures multiset(Insert(less, x, s)) == multiset{x} + multiset(s)
  {
    if s != [] {
      assert s == [s[0]] + s[1..];
      if less(s[0], x) {
        InsertKeepsElements(less, x, s[1..]);
      }
    }
  }

  lemma {:induction false} SortPermutes<T(!new)>(less: (T, T) -> bool, s: seq<T>)
    ensures multiset(Sort(less, s)) == multiset(s)
    ensures |Sort(less, s)| == |s|
    ensures forall x :: x in Sort(less, s) <==> x in s
  {
    if s != [] {
      assert s == [s[0]] + s[1..];
      SortPermutes(less, s[1..]);
      InsertKeepsElements(less, s[0], Sort(less, s[1..]));
    }
    SameElements(Sort(less, s), s);
  }

  lemma SameElements<T(!new)>(a: seq<T>, b: seq<T>)
    requires multiset(a) == multiset(b)
    ensures |a| == |b|
    ensures forall x :: x in a <==> x in b
  {
    assert |multiset(a)| == |multiset(b)|;
    forall x
      ensures x in a <==> x in b
    {
      assert x in a <==> x in multiset(a);
      assert x in b <==> x in multiset(b);
    }
  }

  lemma {:induction false} InsertSorts<T(!new)>(less: (T, T) -> bool, x: T, s: seq<T>)
    requires StrictWeakOrder(less) && Sorted(less, s)
    ensures Sorted(less, Insert(less, x, s))
  {
    if s != [] && less(s[0], x) {
      var rest := Insert(less, x, s[1..]);
      InsertSorts(less, x, s[1..]);
      InsertKeepsElements(less, x, s[1..]);
      forall y | y in rest
        ensures !less(y, s[0])
      {
        assert y in multiset(rest);
      }
    }
  }

  lemma {:induction false} SortSorts<T(!new)>(less: (T, T) -> bool, s: seq<T>)
    requires StrictWeakOrder(less)
    ensures Sorted(less, Sort(less, s))
  {
    if s != [] {
      SortSorts(less, s[1..]);
      InsertSorts(less, s[0], Sort(less, s[1..]));
    }
  }

  lemma {:induction false} InsertIsStable<T(!new)>(less: (T, T) -> bool, x: T, s: seq<T>, c: T)
    requires StrictWeakOrder(less)
    ensures Class(less, c, Insert(less, x, s)) == Class(less, c, [x] + s)
  {
    assert ([x] + s)[1..] == s;
    if s != [] && less(s[0], x) {
      InsertIsStable(less, x, s[1..], c);
      var tail := [x] + s[1..];
      assert tail[1..] == s[1..];
      assert Insert(less, x, s)[1..] == Insert(less, x, s[1..]);
      assert !(Equivalent(less, c, x) && Equivalent(less, c, s[0]));
    }
  }

  lemma {:induction false} SortIsStable<T(!new)>(less: (T, T) -> bool, s: seq<T>, c: T)
    requires StrictWeakOrder(less)
    ensures Class(less, c, Sort(less, s)) == Class(less, c, s)
  {
    if s != [] {
      var rest := Sort(less, s[1..]);
      SortIsStable(less, s[1..], c);
      InsertIsStable(less, s[0], rest, c);
      assert ([s[0]] + rest)[1..] == rest;
    }
  }

  /** `Sort` meets the whole promise of a stable sort: ordered, a permutation, ties kept in order. */
  lemma SortSpec<T(!new)>(less: (T, T) -> bool, s: seq<T>)
    requires StrictWeakOrder(less)
    ensures Sorted(less, Sort(less, s))
    ensures multiset(Sort(less, s)) == multiset(s)
    ensures SameClasses(less, Sort(less, s), s)
  {
    SortSorts(less, s);
    SortPermutes(less, s);
    forall c
      ensures Class(less, c, Sort(less, s)) == Class(less, c, s)
    {
      SortIsStable(less, s, c);
    }
  }

  /** The promise determines the result, so any other stable algorithm returns the same sequence. */
  lemma {:induction false} StableSortUnique<T(!new)>(less: (T, T) -> bool, a: seq<T>, b: seq<T>)
    requires StrictWeakOrder(less)
    requires Sorted(less, a) && Sorted(less, b) && SameClasses(less, a, b)
    ensures a == b
  {
    assert b != [] ==> b[0] in Class(less, b[0], b);
    if a != [] {
      var x := a[0];
      assert x in Class(less, x, a);
      assert b != [] && x in b;
      var y := b[0];
      assert y in Class(less, y, b) && y in a;
      assert Equivalent(less, x, y) && Equivalent(less, x, x);
      assert Class(less, x, a)[0] == x && Class(less, x, b)[0] == y;
      forall c
        ensures Class(less, c, a[1..]) == Class(less, c, b[1..])
      {
        assert Class(less, c, a) == Class(less, c, b);
        assert Equivalent(less, c, x) ==>
          Class(less, c, a)[1..] == Class(less, c, a[1..]) && Class(less, c, b)[1..] == Class(less, c, b[1..]);
      }
      StableSortUnique(less, a[1..], b[1..]);
      assert a == [a[0]] + a[1..] && b == [b[0]] + b[1..];
    }
  }

  lemma TailMultiset<T>(s: seq<T>)
    requires s != []
    ensures multiset(s[1..]) == multiset(s) - multiset{s[0]}
  {
    assert s == [s[0]] + s[1..];
  }

  lemma LeastHeadsTie<T(!new)>(less: (T, T) -> bool, a: seq<T>, b: seq<T>)
    requires StrictWeakOrder(less) && Sorted(less, a) && Sorted(less, b)
    requires a != [] && b != [] && a[0] in b && b[0] in a
    ensures Equivalent(less, a[0], b[0])
  {
  }

  lemma SortedTail<T(!new)>(less: (T, T) -> bool, s: seq<T>)
    requires Sorted(less, s) && s != []
    ensures Sorted(less, s[1..])
  {
  }

  /** Two sorted permutations agree once ties are equal, so an unstable sort is canonical there. */
  lemma {:induction false} SortedPermutationUnique<T(!new)>(less: (T, T) -> bool, a: seq<T>, b: seq<T>)
    requires StrictWeakOrder(less)
    requires Sorted(less, a) && Sorted(less, b) && multiset(a) == multiset(b)
    requires forall x, y :: x in a && y in a && Equivalent(less, x, y) ==> x == y
    ensures a == b
  {
    SameElements(a, b);
    if a != [] {
      assert a[0] in b && b[0] in a;
      LeastHeadsTie(less, a, b);
      TailMultiset(a);
      TailMultiset(b);
      SortedTail(less, a);
      SortedTail(less, b);
      hide Equivalent, StrictWeakOrder, Sorted;
      assert forall x :: x in a[1..] ==> x in a;
      SortedPermutationUnique(less, a[1..], b[1..]);
      assert a == [a[0]] + a[1..] && b == [b[0]] + b[1..];
    }
  }

  function Map<A, B>(f: A -> B, s: seq<A>): (r: seq<B>)
    ensures |r| == |s|
    ensures forall i :: 0 <= i < |s| ==> r[i] == f(s[i])
  {
    if s == [] then [] else [f(s[0])] + Map(f, s[1..])
  }

  /** Sorting by a projection is sorting the projections. */
  lemma {:induction false} SortCommutesWithMap<A, B>(f: A -> B, lessA: (A, A) -> bool, lessB: (B, B) -> bool, s: seq<A>)
    requires forall x, y :: x in s && y in s ==> lessA(x, y) == lessB(f(x), f(y))
    ensures Map(f, Sort(lessA, s)) == Sort(lessB, Map(f, s))
    ensures forall x :: x in Sort(lessA, s) ==> x in s
  {
    if s != [] {
      SortCommutesWithMap(f, lessA, lessB, s[1..]);
      InsertCommutesWithMap(f, lessA, lessB, s[0], Sort(lessA, s[1..]), s);
    }
  }

  lemma {:induction false} InsertCommutesWithMap<A, B>(f: A -> B, lessA: (A, A) -> bool, lessB: (B, B) -> bool,
                                                       x: A, s: seq<A>, all: seq<A>)
    requires forall x, y :: x in all && y in all ==> lessA(x, y) == lessB(f(x), f(y))
    requires x in all && forall y :: y in s ==> y in all
    ensures Map(f, Insert(lessA, x, s)) == Insert(lessB, f(x), Map(f, s))
    ensures forall y :: y in Insert(lessA, x, s) ==> y in all
  {
    if s != [] {
      assert s[0] in all;
      assert ([x] + s)[1..] == s;
      if lessA(s[0], x) {
        InsertCommutesWithMap(f, lessA, lessB, x, s[1..], all);
        assert Insert(lessA, x, s)[1..] == Insert(lessA, x, s[1..]);
      }
    } else {
      assert ([x] + s)[1..] == s;
    }
  }

  /** Sorting what is already sorted moves nothing. */
  lemma SortFixesSorted<T(!new)>(less: (T, T) -> bool, s: seq<T>)
    requires StrictWeakOrder(less) && Sorted(less, s)
    ensures Sort(less, s) == s
  {
    SortSpec(less, s);
    StableSortUnique(less, Sort(less, s), s);
  }

  lemma TwiceCounts<T>(t: seq<T>, i: nat, j: nat)
    requires i < j < |t| && t[i] == t[j]
    ensures multiset(t)[t[i]] >= 2
  {
    assert t == t[..j] + t[j..];
    assert t[i] in t[..j] && t[i] in t[j..];
  }

  lemma SwapPermutes<T>(s: seq<T>, i: nat, j: nat)
    requires i <= j < |s|
    ensures multiset(s[i := s[j]][j := s[i]]) == multiset(s)
  {
  }

  /** An in-place sort that does not keep ties in order, standing for `sort.Slice`. */
  method SortSlice<T(!new)>(less: (T, T) -> bool, a: array<T>)
    requires StrictWeakOrder(less)
    modifies a
    ensures Sorted(less, a[..])
    ensures multiset(a[..]) == multiset(old(a[..]))
  {
    for n := 0 to a.Length
      invariant multiset(a[..]) == multiset(old(a[..]))
      invariant forall i, j :: 0 <= i < n && i < j < a.Length ==> !less(a[j], a[i])
    {
      var least := n;
      for m := n + 1 to a.Length
        invariant n <= least < a.Length
        invariant forall j :: n <= j < m ==> !less(a[j], a[least])
      {
        if less(a[m], a[least]) {
          least := m;
        }
      }
      SwapPermutes(a[..], n, least);
      a[n], a[least] := a[least], a[n];
    }
  }
}
