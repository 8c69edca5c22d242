/** internal/apply: NormalizeAndValidate, which rewrites the rendered objects where they stand. */
module Admission {
  import opened Outcomes
  import opened StableSort
  import opened ResourceReferences
  import opened Manifests

  class Unstructured {
    var content: Manifest

    constructor (content: Manifest)
      ensures this.content == content
    {
      this.content := content;
    }
  }

  ghost function NonNull(objects: seq<Unstructured?>): set<Unstructured> {
    set o: Unstructured | o in objects
  }

  /** What the pointers hold, a nil pointer holding nothing. */
  ghost function Contents(objects: seq<Unstructured?>): (r: seq<Option<Manifest>>)
    reads NonNull(objects)
    ensures |r| == |objects|
    ensures forall i :: 0 <= i < |objects| ==> r[i] == if objects[i] == null then None else Some(objects[i].content)
  {
    if objects == [] then []
    else [if objects[0] == null then None else Some(objects[0].content)] + Contents(objects[1..])
  }

  function Values(objects: seq<Unstructured>): (r: seq<Manifest>)
    reads objects
    ensures |r| == |objects| && forall i :: 0 <= i < |objects| ==> r[i] == objects[i].content
  {
    if objects == [] then [] else [objects[0].content] + Values(objects[1..])
  }

  lemma ValuesCons(o: Unstructured, s: seq<Unstructured>)
    ensures Values([o] + s) == [o.content] + Values(s)
  {
    assert ([o] + s)[1..] == s;
  }

  function InsertBy(less: (Manifest, Manifest) -> bool, o: Unstructured, s: seq<Unstructured>): (r: seq<Unstructured>)
    reads o, s
    ensures multiset(r) == multiset{o} + multiset(s)
  {
    if s == [] || !less(s[0].content, o.content) then [o] + s
    else
      assert s == [s[0]] + s[1..];
      [s[0]] + InsertBy(less, o, s[1..])
  }

  lemma {:induction false} InsertByValues(less: (Manifest, Manifest) -> bool, o: Unstructured, s: seq<Unstructured>)
    ensures Values(InsertBy(less, o, s)) == Insert(less, o.content, Values(s))
  {
    if s == [] || !less(s[0].content, o.content) {
      ValuesCons(o, s);
    } else {
      InsertByValues(less, o, s[1..]);
      ValuesCons(s[0], InsertBy(less, o, s[1..]));
    }
  }

  /** `sort.SliceStable` on pointers, comparing what they point at. */
  function SortBy(less: (Manifest, Manifest) -> bool, s: seq<Unstructured>): (r: seq<Unstructured>)
    reads s
    ensures multiset(r) == multiset(s)
    ensures forall i :: 0 <= i < |r| ==> r[i] in s
  {
    if s == [] then []
    else
      assert s == [s[0]] + s[1..];
      var rest := SortBy(less, s[1..]);
      var r := InsertBy(less, s[0], rest);
      assert forall i :: 0 <= i < |r| ==> r[i] in multiset(r) && r[i] in multiset(s);
      r
  }

  lemma {:induction false} SortByValues(less: (Manifest, Manifest) -> bool, s: seq<Unstructured>)
    ensures Values(SortBy(less, s)) == Sort(less, Values(s))
  {
    if s != [] {
      SortByValues(less, s[1..]);
      InsertByValues(less, s[0], SortBy(less, s[1..]));
    }
  }

  lemma {:induction false} FirstRejection(mapper: Mapper, sizer: Sizer, policy: Policy, ms: seq<Option<Manifest>>, k: nat)
    requires k < |ms|
    requires forall i :: 0 <= i < k ==> ms[i].Some? && Admit(mapper, sizer, policy, ms[i].value).Ok?
    ensures ms[k].None? ==> AdmitAll(mapper, sizer, policy, ms) == Err(NilObject)
    ensures ms[k].Some? && Admit(mapper, sizer, policy, ms[k].value).Err? ==>
              AdmitAll(mapper, sizer, policy, ms) == Err(Admit(mapper, sizer, policy, ms[k].value).error)
  {
    if k > 0 {
      FirstRejection(mapper, sizer, policy, ms[1..], k - 1);
    }
  }

  lemma AdmitIsPrepare(mapper: Mapper, sizer: Sizer, policy: Policy, m: Manifest)
    requires Admit(mapper, sizer, policy, m).Ok?
    ensures Prepare(mapper, policy, m) == Admit(mapper, sizer, policy, m)
    ensures mapper(GvkOf(Admit(mapper, sizer, policy, m).value)).Some?
  {
    assert GvkOf(Admit(mapper, sizer, policy, m).value) == GvkOf(m);
  }

  /** One pass over one object: the checks, the namespace, the ownership metadata, the size. */
  method NormalizeObject(mapper: Mapper, sizer: Sizer, obj: Unstructured, policy: Policy) returns (rejected: Option<Rejection>)
    modifies obj
    ensures var was := old(obj.content);
            && (rejected.None? <==> Admit(mapper, sizer, policy, was).Ok?)
            && (rejected.Some? ==> Admit(mapper, sizer, policy, was) == Err(rejected.value))
            && obj.content == (if Prepare(mapper, policy, was).Ok? then Prepare(mapper, policy, was).value else was)
  {
    var invalid := BasicValidate(obj.content);
    if invalid.Some? {
      return invalid;
    }
    var mapping := mapper(GvkOf(obj.content));
    if mapping.None? {
      return Some(Discovery);
    }
    if !mapping.value.namespaced {
      if !policy.allowClusterScoped {
        return Some(ClusterScopedDisabled);
      }
      var allowed := CheckClusterScopedKind(GvkOf(obj.content).kind, policy.allowedClusterScopedKinds);
      if !allowed {
        return Some(ClusterScopedKindNotAllowed);
      }
    }
    if mapping.value.namespaced {
      if obj.content.namespace == "" {
        obj.content := obj.content.(namespace := policy.destinationNamespace);
      } else if obj.content.namespace != policy.destinationNamespace {
        return Some(OutsideDestinationNamespace);
      }
    } else {
      obj.content := obj.content.(namespace := "");
    }
    obj.content := Stamp(obj.content, policy);
    rejected := SizeCheck(sizer, obj.content);
  }

  /** The validating loop, before either result is sorted. */
  method NormalizeEach(mapper: Mapper, sizer: Sizer, objects: seq<Unstructured?>, policy: Policy)
    returns (r: Result<(seq<Unstructured>, seq<ResourceReference>), Rejection>)
    modifies NonNull(objects)
    ensures AdmitAll(mapper, sizer, policy, old(Contents(objects))).Err? ==>
              r == Err(AdmitAll(mapper, sizer, policy, old(Contents(objects))).error)
    ensures AdmitAll(mapper, sizer, policy, old(Contents(objects))).Ok? ==>
              var admitted := AdmitAll(mapper, sizer, policy, old(Contents(objects))).value;
              && r.Ok? && r.value.0 == objects
              && Values(r.value.0) == admitted
              && (forall m :: m in admitted ==> mapper(GvkOf(m)).Some?)
              && r.value.1 == References(mapper, admitted)
              && (forall i :: 0 <= i < |objects| ==> RefersTo(mapper, r.value.1[i], admitted[i]))
  {
    hide Admit, Prepare, GvkOf, BasicValidate, SizeCheck, ReferenceFor, RefersTo, AdmitAll, Contents;
    var out: seq<Unstructured> := [];
    var refs: seq<ResourceReference> := [];
    ghost var was := Contents(objects);
    ghost var seen: set<Unstructured> := {};
    for idx := 0 to |objects|
      invariant |out| == |refs| == idx && seen <= NonNull(objects)
      invariant forall i :: 0 <= i < idx ==> objects[i] == out[i] && out[i] in seen
      invariant forall o :: o in seen ==> Admit(mapper, sizer, policy, old(o.content)) == Ok(o.content)
      invariant forall o :: o in NonNull(objects) && o !in seen ==> o.content == old(o.content)
      invariant forall i :: 0 <= i < idx ==> mapper(GvkOf(out[i].content)).Some? && refs[i] == ReferenceFor(mapper, out[i].content)
    {
      var obj := objects[idx];
      if obj == null {
        FirstRejection(mapper, sizer, policy, was, idx);
        return Err(NilObject);
      }
      label before:
      if obj in seen {
        // A pointer that occurs twice meets its own admitted content, which admission leaves alone.
        AdmittedAgain(mapper, sizer, policy, old(obj.content));
        AdmitIsPrepare(mapper, sizer, policy, obj.content);
      }
      var rejected := NormalizeObject(mapper, sizer, obj, policy);
      if rejected.Some? {
        FirstRejection(mapper, sizer, policy, was, idx);
        return Err(rejected.value);
      }
      AdmitIsPrepare(mapper, sizer, policy, old@before(obj.content));
      seen := seen + {obj};
      refs := refs + [ReferenceFor(mapper, obj.content)];
      out := out + [obj];
    }
    assert forall i :: 0 <= i < |objects| ==> was[i] == Some(old(objects[i].content));
    assert out == objects && Values(out) == AdmitAll(mapper, sizer, policy, was).value;
    assert refs == References(mapper, Values(out));
    EachRefersTo(mapper, Values(out));
    r := Ok((out, refs));
  }

  lemma EachRefersTo(mapper: Mapper, ms: seq<Manifest>)
    requires forall m :: m in ms ==> mapper(GvkOf(m)).Some?
    ensures forall i :: 0 <= i < |ms| ==> RefersTo(mapper, References(mapper, ms)[i], ms[i])
  {
    hide References, GvkOf, ReferenceFor, RefersTo;
    forall i | 0 <= i < |ms|
      ensures RefersTo(mapper, References(mapper, ms)[i], ms[i])
    {
      ReferencesTellApart(mapper, ms[i], ms[i]);
    }
  }

  lemma SortedReferTo(mapper: Mapper, ms: seq<Manifest>, refs: seq<ResourceReference>)
    requires |refs| == |ms| && forall i :: 0 <= i < |ms| ==> RefersTo(mapper, refs[i], ms[i])
    ensures forall m :: m in ms ==> exists ref :: ref in Sort(KeyLess, refs) && RefersTo(mapper, ref, m)
    ensures forall ref :: ref in Sort(KeyLess, refs) ==> exists m :: m in ms && RefersTo(mapper, ref, m)
  {
    SortPermutes(KeyLess, refs);
    hide RefersTo, KeyLess, Sort;
    forall m | m in ms
      ensures exists ref :: ref in Sort(KeyLess, refs) && RefersTo(mapper, ref, m)
    {
      var i :| 0 <= i < |ms| && ms[i] == m;
      assert refs[i] in refs;
    }
    forall ref | ref in Sort(KeyLess, refs)
      ensures exists m :: m in ms && RefersTo(mapper, ref, m)
    {
      var i :| 0 <= i < |refs| && refs[i] == ref;
      assert ms[i] in ms;
    }
  }

  /** Either the first rejection, or the objects stably sorted by priority with their key-sorted references. */
  method NormalizeAndValidate(mapper: Mapper, sizer: Sizer, objects: seq<Unstructured?>, policy: Policy)
    returns (r: Result<(seq<Unstructured>, seq<ResourceReference>), Rejection>)
    modifies NonNull(objects)
    ensures AdmitAll(mapper, sizer, policy, old(Contents(objects))).Err? ==>
              r == Err(AdmitAll(mapper, sizer, policy, old(Contents(objects))).error)
    ensures AdmitAll(mapper, sizer, policy, old(Contents(objects))).Ok? ==>
              var admitted := AdmitAll(mapper, sizer, policy, old(Contents(objects))).value;
              && r.Ok?
              && multiset(r.value.0) == multiset(objects)
              && Values(r.value.0) == Sort(AppliesEarlier, admitted)
              && (forall m :: m in admitted ==> mapper(GvkOf(m)).Some?)
              && r.value.1 == Sort(KeyLess, References(mapper, admitted))
              && (forall m :: m in admitted ==> exists ref :: ref in r.value.1 && RefersTo(mapper, ref, m))
              && (forall ref :: ref in r.value.1 ==> exists m :: m in admitted && RefersTo(mapper, ref, m))
  {
    hide Admit, Prepare, GvkOf, BasicValidate, SizeCheck, ReferenceFor, RefersTo, AppliesEarlier, KeyLess;
    r := NormalizeEach(mapper, sizer, objects, policy);
    if r.Ok? {
      SortByValues(AppliesEarlier, r.value.0);
      SortedReferTo(mapper, Values(r.value.0), r.value.1);
      r := Ok((SortBy(AppliesEarlier, r.value.0), Sort(KeyLess, r.value.1)));
    }
  }
}
