/** The live objects of a cluster, and what server-side applying a list of manifests does to them. */
module Clusters {
  import opened Outcomes
  import opened StableSort
  import opened ResourceReferences
  import opened Manifests

  datatype Live = Live(labels: map<string, string>, annotations: map<string, string>, body: string)

  type Cluster = map<Identity, Live>

  /** What the API server makes of an apply patch, given the object it finds; any per-object function. */
  type PatchFn = (Option<Live>, Manifest) -> Live

  /** A manifest with the reference its REST mapping gives it. */
  datatype Planned = Planned(ref: ResourceReference, manifest: Manifest)

  function Get(c: Cluster, id: Identity): Option<Live> {
    if id in c then Some(c[id]) else None
  }

  function ApplyOne(patch: PatchFn, c: Cluster, p: Planned): Cluster {
    c[p.ref.Id() := patch(Get(c, p.ref.Id()), p.manifest)]
  }

  function ApplyAll(patch: PatchFn, c: Cluster, ps: seq<Planned>): Cluster
    decreases |ps|
  {
    if ps == [] then c else ApplyAll(patch, ApplyOne(patch, c, ps[0]), ps[1..])
  }

  lemma {:induction false} ApplyAllGrows(patch: PatchFn, c: Cluster, ps: seq<Planned>, k: nat)
    requires k < |ps|
    ensures ApplyAll(patch, c, ps[..k + 1]) == ApplyOne(patch, ApplyAll(patch, c, ps[..k]), ps[k])
    decreases k
  {
    assert ps[..k + 1][1..] == ps[1..][..k];
    if k > 0 {
      assert ps[..k][1..] == ps[1..][..k - 1];
      ApplyAllGrows(patch, ApplyOne(patch, c, ps[0]), ps[1..], k - 1);
    } else {
      assert ps[..1] == [ps[0]] && ps[..0] == [];
    }
  }

  function Lookup(m: map<string, string>, k: string): string {
    if k in m then m[k] else ""
  }

  /** The test prune makes before it deletes: this application's UID and the managed-by label. */
  predicate Owned(live: Live, uid: string) {
    Lookup(live.annotations, APPLICATION_UID_ANNO) == uid && Lookup(live.labels, MANAGED_BY_LABEL) == MANAGED_BY_VALUE
  }

  predicate OwnedIn(c: Cluster, id: Identity, uid: string) {
    id in c && Owned(c[id], uid)
  }

  /** Server-side apply sets every label and annotation the manifest carries. */
  ghost predicate KeepsMetadata(patch: PatchFn) {
    forall o: Option<Live>, m: Manifest, k: string ::
        && (k in m.labels ==> Lookup(patch(o, m).labels, k) == m.labels[k])
        && (k in m.annotations ==> Lookup(patch(o, m).annotations, k) == m.annotations[k])
  }

  /** Applying the same manifest again finds nothing to change. */
  ghost predicate Idempotent(patch: PatchFn) {
    forall o: Option<Live>, m: Manifest :: patch(Some(patch(o, m)), m) == patch(o, m)
  }

  lemma StampedIsOwned(patch: PatchFn, o: Option<Live>, m: Manifest, uid: string, revision: string)
    requires KeepsMetadata(patch) && Stamped(m, uid, revision)
    ensures Owned(patch(o, m), uid)
  {
    assert MANAGED_BY_LABEL in m.labels && APPLICATION_UID_ANNO in m.annotations;
  }

  // Reordering

  predicate PlannedEarlier(a: Planned, b: Planned) {
    AppliesEarlier(a.manifest, b.manifest)
  }

  function AtIdentity(id: Identity, ps: seq<Planned>): seq<Planned> {
    if ps == [] then []
    else (if ps[0].ref.Id() == id then [ps[0]] else []) + AtIdentity(id, ps[1..])
  }

  function Fold(patch: PatchFn, o: Option<Live>, ps: seq<Planned>): Option<Live>
    decreases |ps|
  {
    if ps == [] then o else Fold(patch, Some(patch(o, ps[0].manifest)), ps[1..])
  }

  /** Objects do not interact: what becomes of one identity depends on its own manifests only. */
  lemma {:induction false} ApplyAllAt(patch: PatchFn, c: Cluster, ps: seq<Planned>, id: Identity)
    ensures Get(ApplyAll(patch, c, ps), id) == Fold(patch, Get(c, id), AtIdentity(id, ps))
    decreases |ps|
  {
    if ps != [] {
      ApplyAllAt(patch, ApplyOne(patch, c, ps[0]), ps[1..], id);
      var rest := AtIdentity(id, ps[1..]);
      assert ([ps[0]] + rest)[1..] == rest && [] + rest == rest;
    }
  }

  lemma {:induction false} AtIdentityMember(id: Identity, ps: seq<Planned>)
    ensures AtIdentity(id, ps) == [] <==> forall p :: p in ps ==> p.ref.Id() != id
  {
    if ps != [] {
      AtIdentityMember(id, ps[1..]);
    }
  }

  ghost predicate KindsAgree(ps: seq<Planned>) {
    forall p :: p in ps ==> p.ref.kind == p.manifest.kind
  }

  lemma {:induction false} ClassHoldsIdentity(x: Planned, ps: seq<Planned>)
    requires KindsAgree(ps) && x.ref.kind == x.manifest.kind
    ensures AtIdentity(x.ref.Id(), Class(PlannedEarlier, x, ps)) == AtIdentity(x.ref.Id(), ps)
  {
    if ps != [] {
      ClassHoldsIdentity(x, ps[1..]);
      var rest := Class(PlannedEarlier, x, ps[1..]);
      assert ([ps[0]] + rest)[1..] == rest;
      assert ps[0].ref.Id() == x.ref.Id() ==> Equivalent(PlannedEarlier, x, ps[0]);
      assert [] + AtIdentity(x.ref.Id(), ps[1..]) == AtIdentity(x.ref.Id(), ps[1..]);
    }
  }

  lemma SameClassesSameIdentity(a: seq<Planned>, b: seq<Planned>, id: Identity)
    requires KindsAgree(a) && KindsAgree(b) && SameClasses(PlannedEarlier, a, b)
    ensures AtIdentity(id, a) == AtIdentity(id, b)
  {
    AtIdentityMember(id, a);
    AtIdentityMember(id, b);
    if AtIdentity(id, a) != [] || AtIdentity(id, b) != [] {
      var x :| (x in a || x in b) && x.ref.Id() == id;
      ClassHoldsIdentity(x, a);
      ClassHoldsIdentity(x, b);
      assert Class(PlannedEarlier, x, a) == Class(PlannedEarlier, x, b);
    }
  }

  /** Applying in stable priority order gives the cluster that applying in render order gives. */
  lemma ReorderingPreservesMeaning(patch: PatchFn, c: Cluster, ps: seq<Planned>)
    requires KindsAgree(ps)
    ensures ApplyAll(patch, c, Sort(PlannedEarlier, ps)) == ApplyAll(patch, c, ps)
  {
    var sorted := Sort(PlannedEarlier, ps);
    PlannedEarlierOrders();
    SortSpec(PlannedEarlier, ps);
    SortPermutes(PlannedEarlier, ps);
    var x, y := ApplyAll(patch, c, sorted), ApplyAll(patch, c, ps);
    forall id
      ensures Get(x, id) == Get(y, id)
    {
      ApplyAllAt(patch, c, sorted, id);
      ApplyAllAt(patch, c, ps, id);
      SameClassesSameIdentity(sorted, ps, id);
    }
    SameEverywhere(x, y);
  }

  /** What has been applied when a run stops anywhere: nothing that goes earlier is still missing. */
  lemma PrefixRespectsPriority(ps: seq<Planned>, k: nat, p: Planned, q: Planned)
    requires k <= |Sort(PlannedEarlier, ps)| && p in Sort(PlannedEarlier, ps)[..k]
    requires q in ps && ApplyPriority(q.manifest.kind) < ApplyPriority(p.manifest.kind)
    ensures q in Sort(PlannedEarlier, ps)[..k]
  {
    var sorted := Sort(PlannedEarlier, ps);
    PlannedEarlierOrders();
    SortSpec(PlannedEarlier, ps);
    SortPermutes(PlannedEarlier, ps);
    assert q in sorted;
    var i :| 0 <= i < k && sorted[..k][i] == p;
    var j :| 0 <= j < |sorted| && sorted[j] == q;
    assert sorted[i] == p && PlannedEarlier(q, p);
    assert j < i;
    assert sorted[..k][j] == q;
  }

  lemma SameEverywhere(x: Cluster, y: Cluster)
    requires forall id :: Get(x, id) == Get(y, id)
    ensures x == y
  {
    forall id
      ensures id in x <==> id in y
      ensures id in x ==> x[id] == y[id]
    {
      assert Get(x, id) == Get(y, id);
    }
  }

  lemma PlannedEarlierOrders()
    ensures StrictWeakOrder(PlannedEarlier)
  {
  }

  /** An apply order that breaks priorities: two manifests of one identity swapped do change the outcome. */
  lemma SwappingOneIdentityMatters()
    ensures exists patch: PatchFn, c: Cluster, p: Planned, q: Planned ::
              p.ref == q.ref && ApplyAll(patch, c, [p, q]) != ApplyAll(patch, c, [q, p])
  {
    var patch: PatchFn := (o: Option<Live>, m: Manifest) => Live(m.labels, m.annotations, m.body);
    var ref := ResourceReference("", "v1", "ConfigMap", "ns", "a");
    var p := Planned(ref, Manifest("v1", "ConfigMap", "a", false, "ns", map[], map[], "1"));
    var q := Planned(ref, Manifest("v1", "ConfigMap", "a", false, "ns", map[], map[], "2"));
    var c: Cluster := map[];
    assert [p, q][1..] == [q] && [q, p][1..] == [p] && [q][1..] == [] && [p][1..] == [];
    assert ApplyAll(patch, ApplyOne(patch, c, p), [q]) == ApplyOne(patch, ApplyOne(patch, c, p), q);
    assert ApplyAll(patch, ApplyOne(patch, c, q), [p]) == ApplyOne(patch, ApplyOne(patch, c, q), p);
    assert ApplyAll(patch, c, [p, q])[ref.Id()].body == "2";
    assert ApplyAll(patch, c, [q, p])[ref.Id()].body == "1";
  }
}
