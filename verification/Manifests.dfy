/** internal/apply: admission of rendered objects under an application's policy. */
module Manifests {
  import opened Outcomes
  import opened Text
  import opened StableSort
  import opened ResourceReferences

  const MANAGED_BY_LABEL := "app.kubernetes.io/managed-by"
  const MANAGED_BY_VALUE := "tiny-gitops"
  const APPLICATION_UID_ANNO := "gitops.cabure.io/application-uid"
  const SOURCE_REVISION_ANNO := "gitops.cabure.io/source-revision"
  const MAX_OBJECT_SIZE_BYTES := 1024 * 1024

  /** A rendered object: the fields the operator reads or writes, and the rest as `body`. */
  datatype Manifest = Manifest(
    apiVersion: string, kind: string, name: string, generateName: bool, namespace: string,
    labels: map<string, string>, annotations: map<string, string>, body: string)

  datatype GroupVersionKind = GroupVersionKind(group: string, version: string, kind: string)

  datatype Mapping = Mapping(group: string, version: string, resource: string, namespaced: bool)

  /** REST mapping; a failed lookup is None. */
  type Mapper = GroupVersionKind -> Option<Mapping>

  /** Length of the JSON encoding; a failed encoding is None. */
  type Sizer = Manifest -> Option<nat>

  datatype Policy = Policy(
    destinationNamespace: string, applicationUid: string, sourceRevision: string,
    allowClusterScoped: bool, allowedClusterScopedKinds: seq<string>)

  datatype Rejection =
    | NilObject
    | MissingTypeMeta
    | GenerateNameOnly
    | MissingName
    | Discovery
    | ClusterScopedDisabled
    | ClusterScopedKindNotAllowed
    | OutsideDestinationNamespace
    | Unencodable
    | TooLarge

  /** schema.ParseGroupVersion as Unstructured.GroupVersionKind uses it: two slashes give the empty kind. */
  function GvkOf(m: Manifest): GroupVersionKind {
    if m.apiVersion == "" || m.apiVersion == "/" then GroupVersionKind("", "", m.kind)
    else if '/' !in m.apiVersion then GroupVersionKind("", m.apiVersion, m.kind)
    else
      var version := After(m.apiVersion, '/');
      if '/' in version then GroupVersionKind("", "", "")
      else GroupVersionKind(Before(m.apiVersion, '/'), version, m.kind)
  }

  predicate IsSupportedClusterScopedKind(kind: string) {
    ToLower(kind) in {"namespace", "customresourcedefinition", "clusterrole", "clusterrolebinding"}
  }

  predicate ClusterScopedKindAllowed(kind: string, allowed: seq<string>) {
    (exists k :: k in allowed && ToLower(k) == ToLower(kind)) && IsSupportedClusterScopedKind(kind)
  }

  function BasicValidate(m: Manifest): Option<Rejection> {
    if m.apiVersion == "" || m.kind == "" then Some(MissingTypeMeta)
    else if m.name == "" then Some(if m.generateName then GenerateNameOnly else MissingName)
    else None
  }

  /** ensureMetadata: ownership label and annotations win over what was rendered. */
  function Stamp(m: Manifest, policy: Policy): Manifest {
    m.(labels := m.labels[MANAGED_BY_LABEL := MANAGED_BY_VALUE],
       annotations := m.annotations[APPLICATION_UID_ANNO := policy.applicationUid][SOURCE_REVISION_ANNO := policy.sourceRevision])
  }

  /** Everything done to one object before its size is checked. */
  function Prepare(mapper: Mapper, policy: Policy, m: Manifest): Result<Manifest, Rejection> {
    var invalid := BasicValidate(m);
    if invalid.Some? then Err(invalid.value)
    else
      var mapping := mapper(GvkOf(m));
      if mapping.None? then Err(Discovery)
      else if !mapping.value.namespaced && !policy.allowClusterScoped then Err(ClusterScopedDisabled)
      else if !mapping.value.namespaced && !ClusterScopedKindAllowed(GvkOf(m).kind, policy.allowedClusterScopedKinds) then
        Err(ClusterScopedKindNotAllowed)
      else if mapping.value.namespaced && m.namespace != "" && m.namespace != policy.destinationNamespace then
        Err(OutsideDestinationNamespace)
      else
        Ok(Stamp(m.(namespace := if mapping.value.namespaced then policy.destinationNamespace else ""), policy))
  }

  function SizeCheck(sizer: Sizer, m: Manifest): Option<Rejection> {
    var size := sizer(m);
    if size.None? then Some(Unencodable)
    else if size.value > MAX_OBJECT_SIZE_BYTES then Some(TooLarge)
    else None
  }

  function Admit(mapper: Mapper, sizer: Sizer, policy: Policy, m: Manifest): Result<Manifest, Rejection> {
    var prepared := Prepare(mapper, policy, m);
    if prepared.Err? then prepared
    else
      var oversize := SizeCheck(sizer, prepared.value);
      if oversize.Some? then Err(oversize.value) else prepared
  }

  /** resourceReferenceFor: group and version of the mapping, the rest from the object. */
  function ReferenceFor(mapper: Mapper, m: Manifest): ResourceReference
    requires mapper(GvkOf(m)).Some?
  {
    var mapping := mapper(GvkOf(m)).value;
    ResourceReference(mapping.group, mapping.version, m.kind, m.namespace, m.name)
  }

  /** The reference stands at the object's mapping and at its own kind, namespace and name. */
  predicate RefersTo(mapper: Mapper, r: ResourceReference, m: Manifest) {
    var mapping := mapper(GvkOf(m));
    && mapping.Some? && r.group == mapping.value.group && r.version == mapping.value.version
    && r.kind == m.kind && r.namespace == m.namespace && r.name == m.name
  }

  /** Objects that differ in mapped group, kind, namespace or name are different objects to the API server, and only those. */
  lemma ReferencesTellApart(mapper: Mapper, m: Manifest, n: Manifest)
    requires mapper(GvkOf(m)).Some? && mapper(GvkOf(n)).Some?
    ensures RefersTo(mapper, ReferenceFor(mapper, m), m)
    ensures ReferenceFor(mapper, m).Id() == ReferenceFor(mapper, n).Id() <==>
              && mapper(GvkOf(m)).value.group == mapper(GvkOf(n)).value.group
              && m.kind == n.kind && m.namespace == n.namespace && m.name == n.name
  {
  }

  /** A group and a version joined by a slash are read back, and a version alone belongs to the core group. */
  lemma GroupVersionReadsBack(m: Manifest, group: string, version: string)
    requires '/' !in group && '/' !in version && version != ""
    ensures m.apiVersion == group + "/" + version ==> GvkOf(m) == GroupVersionKind(group, version, m.kind)
    ensures m.apiVersion == version ==> GvkOf(m) == GroupVersionKind("", version, m.kind)
  {
    CutAtFirst(group, '/', version);
    assert (group + "/" + version)[|group|] == '/';
    assert |group + "/" + version| > 1;
  }

  predicate Stamped(m: Manifest, uid: string, revision: string) {
    && MANAGED_BY_LABEL in m.labels && m.labels[MANAGED_BY_LABEL] == MANAGED_BY_VALUE
    && APPLICATION_UID_ANNO in m.annotations && m.annotations[APPLICATION_UID_ANNO] == uid
    && SOURCE_REVISION_ANNO in m.annotations && m.annotations[SOURCE_REVISION_ANNO] == revision
  }

  /** What the safety section of the architecture document promises of an object that gets through. */
  ghost predicate WithinPolicy(mapper: Mapper, sizer: Sizer, policy: Policy, m: Manifest) {
    var mapping := mapper(GvkOf(m));
    && m.apiVersion != "" && m.kind != "" && m.name != "" && mapping.Some?
    && (mapping.value.namespaced ==> m.namespace == policy.destinationNamespace)
    && (!mapping.value.namespaced ==>
          m.namespace == "" && policy.allowClusterScoped && ClusterScopedKindAllowed(GvkOf(m).kind, policy.allowedClusterScopedKinds))
    && Stamped(m, policy.applicationUid, policy.sourceRevision)
    && sizer(m).Some? && sizer(m).value <= MAX_OBJECT_SIZE_BYTES
  }

  /** Only metadata the operator owns may differ between a rendered object and its admitted form. */
  predicate SameApartFromMetadata(m: Manifest, admitted: Manifest) {
    && admitted.apiVersion == m.apiVersion && admitted.kind == m.kind && admitted.name == m.name && admitted.body == m.body
    && (forall k :: k in m.labels && k != MANAGED_BY_LABEL ==> k in admitted.labels && admitted.labels[k] == m.labels[k])
    && (forall k :: k in m.annotations && k != APPLICATION_UID_ANNO && k != SOURCE_REVISION_ANNO ==>
          k in admitted.annotations && admitted.annotations[k] == m.annotations[k])
  }

  lemma SupportIgnoresCase(kind: string)
    ensures IsSupportedClusterScopedKind(ToLower(kind)) == IsSupportedClusterScopedKind(kind)
  {
    ToLowerIdempotent(kind);
  }

  /** clusterScopedKindAllowed: the first listed kind that matches decides, and no later one could decide otherwise. */
  method CheckClusterScopedKind(kind: string, allowed: seq<string>) returns (ok: bool)
    ensures ok <==> (exists k :: k in allowed && ToLower(k) == ToLower(kind)) && IsSupportedClusterScopedKind(kind)
    ensures ok == ClusterScopedKindAllowed(kind, allowed)
  {
    SupportIgnoresCase(kind);
    hide ToLower, IsSupportedClusterScopedKind;
    if |allowed| == 0 {
      return false;
    }
    var candidate := ToLower(kind);
    for i := 0 to |allowed|
      invariant forall j :: 0 <= j < i ==> ToLower(allowed[j]) != candidate
    {
      if ToLower(allowed[i]) == candidate {
        assert allowed[i] in allowed;
        return IsSupportedClusterScopedKind(candidate);
      }
    }
    ok := false;
  }

  lemma StampEffects(m: Manifest, policy: Policy)
    ensures var out := Stamp(m, policy);
            && Stamped(out, policy.applicationUid, policy.sourceRevision)
            && SameApartFromMetadata(m, out)
            && out.namespace == m.namespace && GvkOf(out) == GvkOf(m)
  {
    assert APPLICATION_UID_ANNO[17] != SOURCE_REVISION_ANNO[17];
  }

  lemma AdmittedIsWithinPolicy(mapper: Mapper, sizer: Sizer, policy: Policy, m: Manifest)
    requires Admit(mapper, sizer, policy, m).Ok?
    ensures WithinPolicy(mapper, sizer, policy, Admit(mapper, sizer, policy, m).value)
    ensures SameApartFromMetadata(m, Admit(mapper, sizer, policy, m).value)
  {
    var out := Admit(mapper, sizer, policy, m).value;
    var placed := m.(namespace := out.namespace);
    StampEffects(placed, policy);
    assert GvkOf(placed) == GvkOf(m);
    assert SameApartFromMetadata(m, out) by {
      assert SameApartFromMetadata(placed, out) by {
        hide SameApartFromMetadata, Stamped, GvkOf;
        assert out == Stamp(placed, policy);
      }
    }
    hide Stamp, Stamped, SameApartFromMetadata, GvkOf, ClusterScopedKindAllowed;
    assert out == Stamp(placed, policy);
  }

  lemma StampLeavesStamped(m: Manifest, policy: Policy)
    requires Stamped(m, policy.applicationUid, policy.sourceRevision)
    ensures Stamp(m, policy) == m
  {
    assert m.labels[MANAGED_BY_LABEL := MANAGED_BY_VALUE] == m.labels;
    assert m.annotations[APPLICATION_UID_ANNO := policy.applicationUid][SOURCE_REVISION_ANNO := policy.sourceRevision] == m.annotations;
  }

  lemma WithinPolicyIsKept(mapper: Mapper, sizer: Sizer, policy: Policy, m: Manifest)
    requires WithinPolicy(mapper, sizer, policy, m)
    ensures Admit(mapper, sizer, policy, m) == Ok(m)
  {
    StampLeavesStamped(m, policy);
    hide GvkOf, Stamp, Stamped, ClusterScopedKindAllowed;
    assert m.(namespace := m.namespace) == m;
  }

  /** An object within policy is admitted as it is: admission is the test for WithinPolicy. */
  lemma WithinPolicyIsAdmittedUnchanged(mapper: Mapper, sizer: Sizer, policy: Policy, m: Manifest)
    ensures WithinPolicy(mapper, sizer, policy, m) <==> Admit(mapper, sizer, policy, m) == Ok(m)
  {
    hide WithinPolicy, Admit;
    if WithinPolicy(mapper, sizer, policy, m) {
      WithinPolicyIsKept(mapper, sizer, policy, m);
    }
    if Admit(mapper, sizer, policy, m) == Ok(m) {
      AdmittedIsWithinPolicy(mapper, sizer, policy, m);
    }
  }

  // Which rendered objects are admitted, and what comes of the others

  /** x is the rendered object m, placed and marked: nothing but the namespace and the three owned keys differs. */
  predicate MarkedForm(mapper: Mapper, policy: Policy, m: Manifest, x: Manifest) {
    && mapper(GvkOf(m)).Some?
    && x.apiVersion == m.apiVersion && x.kind == m.kind && x.name == m.name && x.generateName == m.generateName && x.body == m.body
    && x.namespace == (if mapper(GvkOf(m)).value.namespaced then policy.destinationNamespace else "")
    && x.labels == m.labels[MANAGED_BY_LABEL := MANAGED_BY_VALUE]
    && x.annotations == m.annotations + map[APPLICATION_UID_ANNO := policy.applicationUid, SOURCE_REVISION_ANNO := policy.sourceRevision]
  }

  /** A namespaced object may be rendered without a namespace or with the destination's. */
  predicate MayBePlaced(mapper: Mapper, policy: Policy, m: Manifest) {
    mapper(GvkOf(m)).Some? && mapper(GvkOf(m)).value.namespaced ==> m.namespace == "" || m.namespace == policy.destinationNamespace
  }

  lemma AdmittedIsMarkedForm(mapper: Mapper, sizer: Sizer, policy: Policy, m: Manifest)
    requires Admit(mapper, sizer, policy, m).Ok?
    ensures MarkedForm(mapper, policy, m, Admit(mapper, sizer, policy, m).value) && MayBePlaced(mapper, policy, m)
  {
    var out := Admit(mapper, sizer, policy, m).value;
    assert out.annotations
        == m.annotations + map[APPLICATION_UID_ANNO := policy.applicationUid, SOURCE_REVISION_ANNO := policy.sourceRevision];
    hide GvkOf, ClusterScopedKindAllowed;
  }

  lemma MarkedFormIsAdmitted(mapper: Mapper, sizer: Sizer, policy: Policy, m: Manifest, x: Manifest)
    requires MarkedForm(mapper, policy, m, x) && MayBePlaced(mapper, policy, m) && WithinPolicy(mapper, sizer, policy, x)
    ensures Admit(mapper, sizer, policy, m) == Ok(x)
  {
    assert GvkOf(x) == GvkOf(m);
    var placed := m.(namespace := x.namespace);
    assert x.annotations == m.annotations[APPLICATION_UID_ANNO := policy.applicationUid][SOURCE_REVISION_ANNO := policy.sourceRevision];
    assert Stamp(placed, policy) == x;
    hide GvkOf, ClusterScopedKindAllowed, Stamped, Stamp;
  }

  /** For every rendered object: it is admitted exactly if it may be placed and some marked form of it is within policy, and what
      comes out is that form. */
  lemma AdmittedExactly(mapper: Mapper, sizer: Sizer, policy: Policy, m: Manifest)
    ensures Admit(mapper, sizer, policy, m).Ok? <==>
            MayBePlaced(mapper, policy, m) && exists x :: MarkedForm(mapper, policy, m, x) && WithinPolicy(mapper, sizer, policy, x)
    ensures forall x :: MayBePlaced(mapper, policy, m) && MarkedForm(mapper, policy, m, x) && WithinPolicy(mapper, sizer, policy, x) ==>
              Admit(mapper, sizer, policy, m) == Ok(x)
  {
    hide Admit, WithinPolicy, MarkedForm, MayBePlaced;
    if Admit(mapper, sizer, policy, m).Ok? {
      AdmittedIsMarkedForm(mapper, sizer, policy, m);
      AdmittedIsWithinPolicy(mapper, sizer, policy, m);
    }
    forall x | MayBePlaced(mapper, policy, m) && MarkedForm(mapper, policy, m, x) && WithinPolicy(mapper, sizer, policy, x)
      ensures Admit(mapper, sizer, policy, m) == Ok(x)
    {
      MarkedFormIsAdmitted(mapper, sizer, policy, m, x);
    }
  }

  /** What can be wrong with a rendered object, each fault on its own. */
  ghost predicate Fault(mapper: Mapper, sizer: Sizer, policy: Policy, m: Manifest, e: Rejection) {
    var mapping := mapper(GvkOf(m));
    match e
    case NilObject => false
    case MissingTypeMeta => m.apiVersion == "" || m.kind == ""
    case GenerateNameOnly => m.name == "" && m.generateName
    case MissingName => m.name == "" && !m.generateName
    case Discovery => mapping.None?
    case ClusterScopedDisabled => mapping.Some? && !mapping.value.namespaced && !policy.allowClusterScoped
    case ClusterScopedKindNotAllowed =>
      mapping.Some? && !mapping.value.namespaced && !ClusterScopedKindAllowed(GvkOf(m).kind, policy.allowedClusterScopedKinds)
    case OutsideDestinationNamespace => !MayBePlaced(mapper, policy, m)
    case Unencodable => exists x :: MarkedForm(mapper, policy, m, x) && sizer(x).None?
    case TooLarge => exists x :: MarkedForm(mapper, policy, m, x) && sizer(x).Some? && sizer(x).value > 1_048_576
  }

  /** The order in which faults are reported. */
  function Rank(e: Rejection): nat {
    match e
    case NilObject => 0
    case MissingTypeMeta => 1
    case GenerateNameOnly => 2
    case MissingName => 2
    case Discovery => 3
    case ClusterScopedDisabled => 4
    case ClusterScopedKindNotAllowed => 5
    case OutsideDestinationNamespace => 6
    case Unencodable => 7
    case TooLarge => 8
  }

  lemma MarkedFormIsUnique(mapper: Mapper, policy: Policy, m: Manifest, x: Manifest, y: Manifest)
    requires MarkedForm(mapper, policy, m, x) && MarkedForm(mapper, policy, m, y)
    ensures x == y
  {
  }

  lemma PreparedIsMarkedForm(mapper: Mapper, policy: Policy, m: Manifest)
    requires Prepare(mapper, policy, m).Ok?
    ensures MarkedForm(mapper, policy, m, Prepare(mapper, policy, m).value)
  {
    var out := Prepare(mapper, policy, m).value;
    assert out.annotations
        == m.annotations + map[APPLICATION_UID_ANNO := policy.applicationUid, SOURCE_REVISION_ANNO := policy.sourceRevision];
    hide GvkOf, ClusterScopedKindAllowed;
  }

  /** An object is rejected for the first of its faults in this order, and admitted exactly if it has none. */
  lemma RejectedForFirstFault(mapper: Mapper, sizer: Sizer, policy: Policy, m: Manifest)
    ensures Admit(mapper, sizer, policy, m).Ok? ==> forall e :: !Fault(mapper, sizer, policy, m, e)
    ensures Admit(mapper, sizer, policy, m).Err? ==>
              var e := Admit(mapper, sizer, policy, m).error;
              Fault(mapper, sizer, policy, m, e) && forall f :: Fault(mapper, sizer, policy, m, f) ==> Rank(e) <= Rank(f)
  {
    hide GvkOf, ClusterScopedKindAllowed, MarkedForm, Stamp;
    if Prepare(mapper, policy, m).Ok? {
      PreparedIsMarkedForm(mapper, policy, m);
      var x := Prepare(mapper, policy, m).value;
      forall y | MarkedForm(mapper, policy, m, y)
        ensures y == x
      {
        MarkedFormIsUnique(mapper, policy, m, x, y);
      }
    }
  }

  function ApplyPriority(kind: string): nat {
    var k := ToLower(kind);
    if k == "namespace" then 0
    else if k == "customresourcedefinition" then 1
    else if k == "serviceaccount" then 2
    else if k in {"configmap", "secret"} then 3
    else if k in {"role", "clusterrole"} then 4
    else if k in {"rolebinding", "clusterrolebinding"} then 5
    else if k == "service" then 6
    else if k == "persistentvolumeclaim" then 7
    else if k in {"deployment", "statefulset", "daemonset", "job", "cronjob"} then 8
    else if k == "ingress" then 9
    else 10
  }

  /** By lower-case kind: b lives in a, is an instance of a, runs as, reads or mounts a, binds a, or routes to a. */
  predicate DependsOn(b: string, a: string) {
    || (a == "namespace" && b != "namespace")
    || (a == "customresourcedefinition" && b != "namespace" && b != "customresourcedefinition")
    || (a == "serviceaccount" && (IsWorkload(b) || b == "rolebinding" || b == "clusterrolebinding"))
    || ((a == "configmap" || a == "secret" || a == "persistentvolumeclaim" || a == "service") && IsWorkload(b))
    || ((a == "role" || a == "clusterrole") && (b == "rolebinding" || b == "clusterrolebinding"))
    || ((a == "rolebinding" || a == "clusterrolebinding") && IsWorkload(b))
    || (a == "service" && b == "ingress")
  }

  predicate IsWorkload(kind: string) {
    kind == "deployment" || kind == "statefulset" || kind == "daemonset" || kind == "job" || kind == "cronjob"
  }

  /** What the order is for: whatever an object depends on is applied before it, however the kinds are written. */
  lemma DependenciesComeFirst(a: string, b: string)
    requires DependsOn(ToLower(b), ToLower(a))
    ensures ApplyPriority(a) < ApplyPriority(b)
  {
    hide ToLower;
  }

  predicate AppliesEarlier(a: Manifest, b: Manifest) {
    ApplyPriority(a.kind) < ApplyPriority(b.kind)
  }

  /** The specification of the validating loop: the first rejection, or every admitted object in order. */
  function AdmitAll(mapper: Mapper, sizer: Sizer, policy: Policy, ms: seq<Option<Manifest>>): (r: Result<seq<Manifest>, Rejection>)
    ensures r.Ok? <==> forall i :: 0 <= i < |ms| ==> ms[i].Some? && Admit(mapper, sizer, policy, ms[i].value).Ok?
    ensures r.Ok? ==> |r.value| == |ms|
    ensures r.Ok? ==> forall i :: 0 <= i < |ms| ==> Ok(r.value[i]) == Admit(mapper, sizer, policy, ms[i].value)
  {
    if ms == [] then Ok([])
    else if ms[0].None? then Err(NilObject)
    else
      var first := Admit(mapper, sizer, policy, ms[0].value);
      if first.Err? then Err(first.error)
      else
        var rest := AdmitAll(mapper, sizer, policy, ms[1..]);
        if rest.Err? then rest
        else
          assert forall i :: 1 <= i < |ms| ==> ms[i] == ms[1..][i - 1];
          Ok([first.value] + rest.value)
  }

  function References(mapper: Mapper, ms: seq<Manifest>): (r: seq<ResourceReference>)
    requires forall m :: m in ms ==> mapper(GvkOf(m)).Some?
    ensures |r| == |ms| && forall i :: 0 <= i < |ms| ==> r[i] == ReferenceFor(mapper, ms[i])
  {
    if ms == [] then [] else [ReferenceFor(mapper, ms[0])] + References(mapper, ms[1..])
  }

  lemma AppliesEarlierOrders()
    ensures StrictWeakOrder(AppliesEarlier)
  {
  }

  function Present(ms: seq<Manifest>): (r: seq<Option<Manifest>>)
    ensures |r| == |ms| && forall i :: 0 <= i < |ms| ==> r[i] == Some(ms[i])
  {
    seq(|ms|, i requires 0 <= i < |ms| => Some(ms[i]))
  }

  lemma AdmittedAgain(mapper: Mapper, sizer: Sizer, policy: Policy, m: Manifest)
    requires Admit(mapper, sizer, policy, m).Ok?
    ensures var out := Admit(mapper, sizer, policy, m).value;
            WithinPolicy(mapper, sizer, policy, out) && Admit(mapper, sizer, policy, out) == Ok(out)
  {
    AdmittedIsWithinPolicy(mapper, sizer, policy, m);
    WithinPolicyIsAdmittedUnchanged(mapper, sizer, policy, Admit(mapper, sizer, policy, m).value);
  }

  lemma {:induction false} AdmitAllUnchanged(mapper: Mapper, sizer: Sizer, policy: Policy, ms: seq<Manifest>)
    requires forall m :: m in ms ==> Admit(mapper, sizer, policy, m) == Ok(m)
    ensures AdmitAll(mapper, sizer, policy, Present(ms)) == Ok(ms)
  {
    var again := AdmitAll(mapper, sizer, policy, Present(ms));
    assert forall i :: 0 <= i < |ms| ==> ms[i] in ms && Present(ms)[i] == Some(ms[i]);
    assert again.Ok? && again.value == ms;
  }

  lemma AllAdmittedAgain(mapper: Mapper, sizer: Sizer, policy: Policy, ms: seq<Option<Manifest>>)
    requires AdmitAll(mapper, sizer, policy, ms).Ok?
    ensures forall m :: m in AdmitAll(mapper, sizer, policy, ms).value ==>
              WithinPolicy(mapper, sizer, policy, m) && Admit(mapper, sizer, policy, m) == Ok(m)
  {
    var admitted := AdmitAll(mapper, sizer, policy, ms).value;
    forall m | m in admitted
      ensures WithinPolicy(mapper, sizer, policy, m) && Admit(mapper, sizer, policy, m) == Ok(m)
    {
      var i :| 0 <= i < |admitted| && admitted[i] == m;
      AdmittedAgain(mapper, sizer, policy, ms[i].value);
    }
  }

  /** Running the whole pass on its own output changes neither the objects nor their order. */
  lemma AdmissionIdempotent(mapper: Mapper, sizer: Sizer, policy: Policy, ms: seq<Option<Manifest>>, out: seq<Manifest>)
    requires AdmitAll(mapper, sizer, policy, ms).Ok?
    requires out == Sort(AppliesEarlier, AdmitAll(mapper, sizer, policy, ms).value)
    ensures AdmitAll(mapper, sizer, policy, Present(out)) == Ok(out)
    ensures Sort(AppliesEarlier, out) == out
    ensures forall m :: m in out ==> WithinPolicy(mapper, sizer, policy, m)
  {
    var admitted := AdmitAll(mapper, sizer, policy, ms).value;
    AppliesEarlierOrders();
    SortSpec(AppliesEarlier, admitted);
    SortFixesSorted(AppliesEarlier, out);
    SameElements(out, admitted);
    AllAdmittedAgain(mapper, sizer, policy, ms);
    AdmitAllUnchanged(mapper, sizer, policy, out);
  }
}
