/** Small concrete runs, for the lemmas that show a hypothesis cannot be dropped. */
module Scenarios {
  import opened Outcomes
  import opened StableSort
  import opened ResourceReferences
  import opened Inventory
  import opened Manifests
  import opened Clusters
  import opened AppStatus
  import opened Protocol

  /** A patch that replaces the object by the manifest. */
  function Replace(o: Option<Live>, m: Manifest): Live {
    Live(m.labels, m.annotations, m.body)
  }

  /** A ConfigMap as the given application would apply it. */
  function ConfigMap(uid: string, apiVersion: string, name: string): Planned {
    Planned(
      ResourceReference("", apiVersion, "ConfigMap", "ns", name),
      Stamp(Manifest(apiVersion, "ConfigMap", name, false, "ns", map[], map[], ""), Policy("ns", uid, "r", false, [])))
  }

  function Wanting(p: Planned): Attempt {
    Attempt("r", true, [p], [p.ref])
  }

  function Fresh(inventory: seq<ResourceReference>): App {
    var stored := Status(0, "", "", None, None, inventory, []);
    App(stored, Idle, Attempt("", true, [], []), stored, [], {}, {}, (inventory, ""), NoWrite)
  }

  lemma ReplaceIsReasonable()
    ensures KeepsMetadata(Replace) && Idempotent(Replace)
  {
  }

  lemma ConfigMapIsStamped(uid: string, apiVersion: string, name: string)
    ensures Stamped(ConfigMap(uid, apiVersion, name).manifest, uid, "r")
    ensures forall o :: Owned(Replace(o, ConfigMap(uid, apiVersion, name).manifest), uid)
  {
    StampEffects(Manifest(apiVersion, "ConfigMap", name, false, "ns", map[], map[], ""), Policy("ns", uid, "r", false, []));
    forall o
      ensures Owned(Replace(o, ConfigMap(uid, apiVersion, name).manifest), uid)
    {
      ReplaceIsReasonable();
      StampedIsOwned(Replace, o, ConfigMap(uid, apiVersion, name).manifest, uid, "r");
    }
  }

  lemma WantingIsProper(uid: string, apiVersion: string, name: string)
    requires ',' !in apiVersion
    ensures Proper(uid, Wanting(ConfigMap(uid, apiVersion, name)))
  {
    hide Stamp, Stamped;
    var p := ConfigMap(uid, apiVersion, name);
    ConfigMapIsStamped(uid, apiVersion, name);
    assert PlanRefs([p]) == [p.ref];
  }

  function Started(w: World, uid: string, p: Planned): seq<Event> {
    [Begin(uid, Wanting(p)), Patch(uid, Done)]
  }

  /** An idle application begins a run for one object and applies it. */
  function Applied(w: World, uid: string, p: Planned): World
    requires uid in w.apps
  {
    var app := w.apps[uid];
    World(
      w.cluster[p.ref.Id() := Replace(Get(w.cluster, p.ref.Id()), p.manifest)],
      w.apps[uid := app.(phase := Applying(1), attempt := Wanting(p), memory := app.stored.(attemptedRevision := "r"),
                         stale := [], touched := app.touched + {p.ref.Id()})],
      w.lastApplier[p.ref.Id() := uid])
  }

  lemma StartedRuns(w: World, uid: string, p: Planned)
    requires uid in w.apps && w.apps[uid].phase.Idle? && Proper(uid, Wanting(p))
    ensures Admissible(Replace, w, Started(w, uid, p))
    ensures Run(Replace, w, Started(w, uid, p)) == Applied(w, uid, p)
  {
    var e0, e1 := Begin(uid, Wanting(p)), Patch(uid, Done);
    RunOne(Replace, w, [], e0);
    RunOne(Replace, w, [] + [e0], e1);
    assert [] + [e0] + [e1] == Started(w, uid, p);
  }

  lemma StaleOfOne(r: ResourceReference)
    ensures Stale([r], []) == [r]
  {
    assert [r][1..] == [];
    assert Survivors([], Keys([])) == [];
    assert Survivors([r], Keys([])) == [r];
    assert Sort(KeyLess, []) == [];
  }


  const GONE := Attempt("r", true, [], [])

  /** A run that wants nothing any more, up to the point where it has fetched its one stale object. */
  function PruningEvents(uid: string): seq<Event> {
    [Begin(uid, GONE), ApplyEnds(uid), Fetch(uid, true)]
  }

  function PruningWorld(w: World, uid: string, r: ResourceReference): World
    requires uid in w.apps && r.Id() in w.cluster
  {
    var app := w.apps[uid];
    World(
      w.cluster,
      w.apps[uid := app.(phase := Deleting(0, w.cluster[r.Id()]), attempt := GONE,
                         memory := app.stored.(attemptedRevision := "r"), stale := [r])],
      w.lastApplier)
  }

  lemma PruningRuns(w: World, uid: string, r: ResourceReference)
    requires uid in w.apps && w.apps[uid].phase.Idle? && w.apps[uid].stored.inventory == [r]
    requires OwnedIn(w.cluster, r.Id(), uid)
    ensures Admissible(Replace, w, PruningEvents(uid))
    ensures Run(Replace, w, PruningEvents(uid)) == PruningWorld(w, uid, r)
  {
    hide Stale, Owned;
    StaleOfOne(r);
    var e0, e1, e2 := Begin(uid, GONE), ApplyEnds(uid), Fetch(uid, true);
    RunOne(Replace, w, [], e0);
    RunOne(Replace, w, [] + [e0], e1);
    RunOne(Replace, w, [] + [e0] + [e1], e2);
    assert [] + [e0] + [e1] + [e2] == PruningEvents(uid);
  }
}
