/** internal/inventory: the recorded inventory, compared and diffed by key. */
module Inventory {
  import opened Text
  import opened StableSort
  import opened ResourceReferences

  lemma KeyLessOrders()
    ensures StrictWeakOrder(KeyLess)
  {
    forall x: ResourceReference, y: ResourceReference | KeyLess(x, y)
      ensures !KeyLess(y, x)
    {
      LessAsymmetric(x.Key(), y.Key());
    }
    forall x: ResourceReference, y: ResourceReference, z: ResourceReference | KeyLess(x, z)
      ensures KeyLess(x, y) || KeyLess(y, z)
    {
      LessSplits(x.Key(), y.Key(), z.Key());
    }
  }

  lemma TiesShareKey(a: ResourceReference, b: ResourceReference)
    ensures Equivalent(KeyLess, a, b) <==> a.Key() == b.Key()
  {
    LessTotal(a.Key(), b.Key());
    if Less(a.Key(), b.Key()) {
      LessAsymmetric(a.Key(), b.Key());
    }
    if Less(b.Key(), a.Key()) {
      LessAsymmetric(b.Key(), a.Key());
    }
  }

  /** All that `sort.Slice` promises about its result: ties may come out in any order. */
  ghost predicate IsNormalization(out: seq<ResourceReference>, items: seq<ResourceReference>) {
    Sorted(KeyLess, out) && multiset(out) == multiset(items)
  }

  ghost predicate KeysDistinguish(items: seq<ResourceReference>) {
    forall x, y :: x in items && y in items && x.Key() == y.Key() ==> x == y
  }

  lemma WellFormedKeysDistinguish(items: seq<ResourceReference>)
    requires AllWellFormed(items)
    ensures KeysDistinguish(items)
  {
    forall x, y | x in items && y in items && x.Key() == y.Key()
      ensures x == y
    {
      KeyInjective(x, y);
    }
  }

  /** One canonical sequence per multiset, although the sort is unstable. */
  lemma NormalizationCanonical(a: seq<ResourceReference>, b: seq<ResourceReference>,
                               items: seq<ResourceReference>, others: seq<ResourceReference>)
    requires IsNormalization(a, items) && IsNormalization(b, others)
    requires KeysDistinguish(items)
    ensures a == b <==> multiset(items) == multiset(others)
  {
    if multiset(items) == multiset(others) {
      KeyLessOrders();
      SameElements(a, items);
      forall x, y | x in a && y in a && Equivalent(KeyLess, x, y)
        ensures x == y
      {
        TiesShareKey(x, y);
      }
      SortedPermutationUnique(KeyLess, a, b);
    }
  }

  method Normalize(items: seq<ResourceReference>) returns (out: seq<ResourceReference>)
    ensures IsNormalization(out, items)
    ensures forall i, j :: 0 <= i < j < |out| ==> out[i].Key() == out[j].Key() || Less(out[i].Key(), out[j].Key())
  {
    var a := new ResourceReference[|items|](i requires 0 <= i < |items| => items[i]);
    assert a[..] == items;
    KeyLessOrders();
    SortSlice(KeyLess, a);
    out := a[..];
    forall i, j | 0 <= i < j < |out|
      ensures out[i].Key() == out[j].Key() || Less(out[i].Key(), out[j].Key())
    {
      LessTotal(out[i].Key(), out[j].Key());
    }
  }

  /** True answers are always right; false ones are right when keys tell the references apart. */
  method Equal(a: seq<ResourceReference>, b: seq<ResourceReference>) returns (same: bool)
    ensures same ==> multiset(a) == multiset(b)
    ensures KeysDistinguish(a) ==> (same <==> multiset(a) == multiset(b))
  {
    hide KeyLess;
    if |a| != |b| {
      assert |multiset(a)| == |a| && |multiset(b)| == |b|;
      return false;
    }
    var x := Normalize(a);
    var y := Normalize(b);
    SameElements(x, a);
    SameElements(y, b);
    if KeysDistinguish(a) {
      NormalizationCanonical(x, y, a, b);
    }
    for i := 0 to |x|
      invariant x[..i] == y[..i]
    {
      if x[i] != y[i] {
        return false;
      }
    }
    assert x == x[..|x|] == y[..|y|] == y;
    return true;
  }

  /** The entries of `previous` that no desired key covers, the last one for each key. */
  function Survivors(previous: seq<ResourceReference>, desired: set<string>): (r: seq<ResourceReference>)
    ensures forall x :: x in r ==> x in previous && x.Key() !in desired
    ensures forall x :: x in previous && x.Key() !in desired ==> x.Key() in Keys(r)
  {
    if previous == [] then []
    else
      var rest := Survivors(previous[1..], desired);
      if previous[0].Key() in desired || previous[0].Key() in Keys(previous[1..]) then
        rest
      else
        [previous[0]] + rest
  }

  /** The specification of Diff: what an inventory names and the desired set no longer does. */
  function Stale(previous: seq<ResourceReference>, desired: seq<ResourceReference>): seq<ResourceReference> {
    Sort(KeyLess, Survivors(previous, Keys(desired)))
  }

  /** previous[i] is the entry a map filled from front to back keeps for its key. */
  predicate LastOfKey(previous: seq<ResourceReference>, i: nat)
    requires i < |previous|
  {
    forall j :: i < j < |previous| ==> previous[j].Key() != previous[i].Key()
  }

  lemma {:induction false} SurvivorsAre(previous: seq<ResourceReference>, desired: set<string>, r: ResourceReference)
    ensures r in Survivors(previous, desired) <==>
            r.Key() !in desired && exists i :: 0 <= i < |previous| && previous[i] == r && LastOfKey(previous, i)
  {
    hide ResourceReference.Key;
    if previous != [] {
      var tail := previous[1..];
      SurvivorsAre(tail, desired, r);
      assert forall i :: 0 <= i < |tail| ==> tail[i] == previous[i + 1];
      forall i | 0 <= i < |tail|
        ensures LastOfKey(tail, i) <==> LastOfKey(previous, i + 1)
      {
        assert forall j :: i < j < |tail| ==> tail[j] == previous[j + 1];
        assert forall j :: i + 1 < j < |previous| ==> previous[j] == tail[j - 1];
      }
      assert LastOfKey(previous, 0) <==> previous[0].Key() !in Keys(tail) by {
        assert forall j :: 0 < j < |previous| ==> previous[j] == tail[j - 1] && previous[j] in tail;
      }
      if exists i :: 0 <= i < |previous| && previous[i] == r && LastOfKey(previous, i) {
        var i :| 0 <= i < |previous| && previous[i] == r && LastOfKey(previous, i);
        if i > 0 {
          assert tail[i - 1] == r && LastOfKey(tail, i - 1);
        }
      }
    }
  }

  predicate DistinctKeys(s: seq<ResourceReference>) {
    forall i, j :: 0 <= i < j < |s| ==> s[i].Key() != s[j].Key()
  }

  lemma FreshKeyFirst(r: ResourceReference, rest: seq<ResourceReference>, all: seq<ResourceReference>)
    requires DistinctKeys(rest) && (forall x :: x in rest ==> x in all) && r.Key() !in Keys(all)
    ensures DistinctKeys([r] + rest)
  {
    hide ResourceReference.Key;
    assert forall j :: 0 <= j < |rest| ==> rest[j] in all;
  }

  lemma {:induction false} SurvivorsDistinct(previous: seq<ResourceReference>, desired: set<string>)
    ensures DistinctKeys(Survivors(previous, desired))
  {
    hide ResourceReference.Key;
    if previous != [] {
      SurvivorsDistinct(previous[1..], desired);
      var rest := Survivors(previous[1..], desired);
      if previous[0].Key() !in desired && previous[0].Key() !in Keys(previous[1..]) {
        FreshKeyFirst(previous[0], rest, previous[1..]);
      }
    }
  }

  /** What Diff promises, read off the two inventories: exactly the last uncovered entry of each key, strictly sorted. */
  lemma StaleExactly(previous: seq<ResourceReference>, desired: seq<ResourceReference>)
    ensures forall r :: r in Stale(previous, desired) <==>
              r.Key() !in Keys(desired) && exists i :: 0 <= i < |previous| && previous[i] == r && LastOfKey(previous, i)
    ensures forall i, j :: 0 <= i < j < |Stale(previous, desired)| ==> KeyLess(Stale(previous, desired)[i], Stale(previous, desired)[j])
  {
    var s := Survivors(previous, Keys(desired));
    var out := Stale(previous, desired);
    KeyLessOrders();
    SortSpec(KeyLess, s);
    SameElements(out, s);
    forall r
      ensures r in out <==> r.Key() !in Keys(desired) && exists i :: 0 <= i < |previous| && previous[i] == r && LastOfKey(previous, i)
    {
      SurvivorsAre(previous, Keys(desired), r);
    }
    SurvivorsDistinct(previous, Keys(desired));
    forall i, j | 0 <= i < j < |out|
      ensures KeyLess(out[i], out[j])
    {
      DistinctKeysPermute(s, out, i, j);
      TiesShareKey(out[i], out[j]);
    }
  }

  lemma DistinctKeysPermute(s: seq<ResourceReference>, t: seq<ResourceReference>, i: nat, j: nat)
    requires DistinctKeys(s) && multiset(s) == multiset(t) && i < j < |t|
    ensures t[i].Key() != t[j].Key()
  {
    SameElements(s, t);
    assert t[i] in s && t[j] in s;
    if t[i].Key() == t[j].Key() {
      assert t[i] == t[j];
      OnceEach(s, t[i]);
      TwiceCounts(t, i, j);
    }
  }

  function KeyMap(refs: seq<ResourceReference>): map<string, ResourceReference> {
    if refs == [] then map[]
    else KeyMap(refs[..|refs| - 1])[refs[|refs| - 1].Key() := refs[|refs| - 1]]
  }

  lemma {:induction false} KeyMapKeepsLast(refs: seq<ResourceReference>, k: string)
    ensures k in KeyMap(refs) <==> k in Keys(refs)
    ensures k in KeyMap(refs) ==> exists i :: 0 <= i < |refs| && refs[i] == KeyMap(refs)[k] && refs[i].Key() == k && LastOfKey(refs, i)
  {
    hide ResourceReference.Key;
    if refs != [] {
      var n := |refs| - 1;
      var front := refs[..n];
      KeyMapKeepsLast(front, k);
      assert refs == front + [refs[n]];
      assert LastOfKey(refs, n);
      if k in KeyMap(refs) && k != refs[n].Key() {
        var i :| 0 <= i < |front| && front[i] == KeyMap(front)[k] && front[i].Key() == k && LastOfKey(front, i);
        assert refs[i] == KeyMap(refs)[k] && LastOfKey(refs, i) by {
          assert forall j :: i < j < n ==> refs[j] == front[j];
        }
      }
    }
  }

  lemma LastOfKeyUnique(refs: seq<ResourceReference>, i: nat, j: nat)
    requires i < |refs| && j < |refs| && refs[i].Key() == refs[j].Key()
    requires LastOfKey(refs, i) && LastOfKey(refs, j)
    ensures i == j
  {
  }

  lemma {:induction false} SameMembersSameMultiset(a: seq<ResourceReference>, b: seq<ResourceReference>)
    requires DistinctKeys(a) && DistinctKeys(b)
    requires forall r :: r in a <==> r in b
    ensures multiset(a) == multiset(b)
  {
    forall r
      ensures multiset(a)[r] == multiset(b)[r]
    {
      OnceEach(a, r);
      OnceEach(b, r);
    }
  }

  lemma OnceEach(s: seq<ResourceReference>, r: ResourceReference)
    requires DistinctKeys(s)
    ensures multiset(s)[r] == if r in s then 1 else 0
  {
    if r in s {
      var a :| 0 <= a < |s| && s[a] == r;
      assert s == s[..a] + [s[a]] + s[a + 1..];
      assert r !in s[..a] && r !in s[a + 1..];
    }
  }

  /** The result is a function of the inputs, whatever order the map is ranged over in. */
  method Diff(previous: seq<ResourceReference>, desired: seq<ResourceReference>) returns (out: seq<ResourceReference>)
    ensures out == Stale(previous, desired)
  {
    hide KeyLess, Stale, ResourceReference.Key, LastOfKey;
    var prev: map<string, ResourceReference> := map[];
    for i := 0 to |previous|
      invariant prev == KeyMap(previous[..i])
    {
      assert previous[..i + 1] == previous[..i] + [previous[i]];
      assert previous[..i + 1][..i] == previous[..i];
      prev := prev[previous[i].Key() := previous[i]];
    }
    assert previous[..|previous|] == previous;
    for i := 0 to |desired|
      invariant prev == KeyMap(previous) - Keys(desired[..i])
    {
      assert desired[..i + 1] == desired[..i] + [desired[i]];
      assert Keys(desired[..i + 1]) == Keys(desired[..i]) + {desired[i].Key()};
      prev := prev - {desired[i].Key()};
    }
    assert desired[..|desired|] == desired;
    forall k | k in prev
      ensures prev[k].Key() == k
    {
      KeyMapKeepsLast(previous, k);
    }
    var list: seq<ResourceReference> := [];
    var todo := prev.Keys;
    while todo != {}
      invariant todo <= prev.Keys
      invariant forall r :: r in list <==> r.Key() in prev && r.Key() !in todo && prev[r.Key()] == r
      invariant DistinctKeys(list)
      decreases todo
    {
      var k :| k in todo;
      assert forall i :: 0 <= i < |list| ==> list[i] in list && list[i].Key() != k;
      list := list + [prev[k]];
      todo := todo - {k};
    }
    out := Normalize(list);
    DiffIsStale(previous, desired, list, out);
  }

  lemma DiffIsStale(previous: seq<ResourceReference>, desired: seq<ResourceReference>,
                    list: seq<ResourceReference>, out: seq<ResourceReference>)
    requires forall r :: r in list <==> r.Key() in KeyMap(previous) - Keys(desired) && KeyMap(previous)[r.Key()] == r
    requires DistinctKeys(list) && IsNormalization(out, list)
    ensures out == Stale(previous, desired)
  {
    var s := Survivors(previous, Keys(desired));
    SurvivorsDistinct(previous, Keys(desired));
    forall r
      ensures r in list <==> r in s
    {
      SurvivorsAre(previous, Keys(desired), r);
      KeyMapKeepsLast(previous, r.Key());
      if r in s {
        var i :| 0 <= i < |previous| && previous[i] == r && LastOfKey(previous, i);
        assert r in previous;
        var j :| 0 <= j < |previous| && previous[j] == KeyMap(previous)[r.Key()] && previous[j].Key() == r.Key() && LastOfKey(previous, j);
        LastOfKeyUnique(previous, i, j);
      }
    }
    SameMembersSameMultiset(list, s);
    KeyLessOrders();
    SortSpec(KeyLess, s);
    forall x, y | x in s && y in s && x.Key() == y.Key()
      ensures x == y
    {
    }
    NormalizationCanonical(Sort(KeyLess, s), out, s, list);
  }
}
