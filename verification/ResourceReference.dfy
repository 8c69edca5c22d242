/** Inventory entries and the cluster identities they name. */
module ResourceReferences {
  import opened Text

  /** What the API server keys an object by. The API version is not part of it. */
  datatype Identity = Identity(group: string, kind: string, namespace: string, name: string)

  datatype ResourceReference = ResourceReference(group: string, version: string, kind: string, namespace: string, name: string) {

    /** GroupVersionKind.String() is "group/version, Kind=kind". */
    function Key(): string {
      group + "/" + version + ", Kind=" + kind + "/" + namespace + "/" + name
    }

    function Id(): Identity {
      Identity(group, kind, namespace, name)
    }

    /** The names Kubernetes admits: no slash before the name part, no comma in the version. */
    predicate WellFormed() {
      '/' !in group && ',' !in version && '/' !in kind && '/' !in namespace
    }
  }

  const KIND_TAG: string := " Kind="

  /** Reads the five fields back out of a key. */
  function ParseKey(key: string): ResourceReference {
    var group := Before(key, '/');
    var rest := After(key, '/');
    var version := Before(rest, ',');
    var tagged := After(rest, ',');
    var named := if |tagged| < |KIND_TAG| then [] else tagged[|KIND_TAG|..];
    var placed := After(named, '/');
    ResourceReference(group, version, Before(named, '/'), Before(placed, '/'), After(placed, '/'))
  }

  lemma KeyParsesBack(r: ResourceReference)
    requires r.WellFormed()
    ensures ParseKey(r.Key()) == r
  {
    var placed := r.namespace + "/" + r.name;
    var named := r.kind + "/" + placed;
    var tagged := KIND_TAG + named;
    var rest := r.version + "," + tagged;
    assert r.Key() == r.group + "/" + rest;
    CutAtFirst(r.group, '/', rest);
    CutAtFirst(r.version, ',', tagged);
    assert tagged[|KIND_TAG|..] == named;
    CutAtFirst(r.kind, '/', placed);
    CutAtFirst(r.namespace, '/', r.name);
  }

  lemma KeyInjective(a: ResourceReference, b: ResourceReference)
    requires a.WellFormed() && b.WellFormed() && a.Key() == b.Key()
    ensures a == b
  {
    KeyParsesBack(a);
    KeyParsesBack(b);
  }

  /** Without the name rules two different references share a key. */
  lemma KeyCollides()
    ensures exists a: ResourceReference, b: ResourceReference ::
              a.WellFormed() && !b.WellFormed() && a != b && a.Key() == b.Key()
  {
    var a := ResourceReference("", "v1", "Pod", "x", "y/z");
    var b := ResourceReference("", "v1", "Pod", "x/y", "z");
    assert a.Key() == ("" + "/" + "v1" + ", Kind=" + "Pod") + "/x/y/z";
    assert b.Key() == ("" + "/" + "v1" + ", Kind=" + "Pod") + "/x/y/z";
    assert b.namespace[1] == '/';
  }

  predicate KeyLess(a: ResourceReference, b: ResourceReference) {
    Less(a.Key(), b.Key())
  }

  function Keys(refs: seq<ResourceReference>): (ks: set<string>)
    ensures forall r :: r in refs ==> r.Key() in ks
    ensures forall k :: k in ks ==> exists r :: r in refs && r.Key() == k
  {
    set r | r in refs :: r.Key()
  }

  function Identities(refs: seq<ResourceReference>): (ids: set<Identity>)
    ensures forall r :: r in refs ==> r.Id() in ids
    ensures forall id :: id in ids ==> exists r :: r in refs && r.Id() == id
  {
    set r | r in refs :: r.Id()
  }

  ghost predicate AllWellFormed(refs: seq<ResourceReference>) {
    forall r :: r in refs ==> r.WellFormed()
  }
}
