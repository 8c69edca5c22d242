/** GitApplicationStatus, its conditions, and the merge patches that persist it. */
module AppStatus {
  import opened Outcomes
  import opened ResourceReferences

  datatype Condition = Condition(name: string, holds: bool, reason: string, message: string, observedGeneration: int, transition: nat)

  datatype Status = Status(
    observedGeneration: int, attemptedRevision: string, appliedRevision: string,
    lastAttemptTime: Option<nat>, lastSuccessTime: Option<nat>,
    inventory: seq<ResourceReference>, conditions: seq<Condition>)

  // Conditions

  /** setCondition: overwrite the first condition of that type, or append. */
  function SetCondition(cs: seq<Condition>, c: Condition): seq<Condition> {
    if cs == [] then [c]
    else if cs[0].name == c.name then [c] + cs[1..]
    else [cs[0]] + SetCondition(cs[1..], c)
  }

  /** meta.FindStatusCondition: the first condition of that type. */
  function Find(cs: seq<Condition>, name: string): (r: Option<Condition>)
    ensures r.Some? ==> r.value in cs && r.value.name == name
    ensures r.None? ==> forall c :: c in cs ==> c.name != name
  {
    if cs == [] then None
    else if cs[0].name == name then Some(cs[0])
    else Find(cs[1..], name)
  }

  predicate UniqueTypes(cs: seq<Condition>) {
    forall i, j :: 0 <= i < j < |cs| ==> cs[i].name != cs[j].name
  }

  predicate IsTrue(cs: seq<Condition>, name: string) {
    Find(cs, name).Some? && Find(cs, name).value.holds
  }

  /** Setting changes what is found under that type and under no other, and never duplicates a type. */
  lemma {:induction false} SetConditionFinds(cs: seq<Condition>, c: Condition, name: string)
    ensures Find(SetCondition(cs, c), name) == if name == c.name then Some(c) else Find(cs, name)
  {
    if cs != [] {
      SetConditionFinds(cs[1..], c, name);
      var rest := SetCondition(cs[1..], c);
      assert ([cs[0]] + rest)[1..] == rest && ([c] + cs[1..])[1..] == cs[1..];
    }
  }

  lemma {:induction false} SetConditionKeepsUnique(cs: seq<Condition>, c: Condition)
    requires UniqueTypes(cs)
    ensures UniqueTypes(SetCondition(cs, c))
    ensures forall x :: x in SetCondition(cs, c) ==> x.name == c.name || x in cs
  {
    if cs != [] {
      SetConditionKeepsUnique(cs[1..], c);
      var out := SetCondition(cs, c);
      forall i, j | 0 <= i < j < |out|
        ensures out[i].name != out[j].name
      {
        if cs[0].name != c.name && i == 0 {
          assert out[j] in SetCondition(cs[1..], c);
        }
      }
    }
  }

  // What each outcome writes into the status held in memory

  function WithCondition(s: Status, name: string, holds: bool, reason: string, message: string, generation: int, now: nat): Status {
    s.(conditions := SetCondition(s.conditions, Condition(name, holds, reason, message, generation, now)))
  }

  function Success(s: Status, revision: string, inventory: seq<ResourceReference>, generation: int, now: nat): Status {
    var t := s.(observedGeneration := generation, attemptedRevision := revision, appliedRevision := revision,
                lastAttemptTime := Some(now), lastSuccessTime := Some(now), inventory := inventory);
    var t1 := WithCondition(t, "Reconciling", false, "Reconciled", "reconciliation complete", generation, now);
    var t2 := WithCondition(t1, "Ready", true, "Reconciled", "application is ready", generation, now);
    WithCondition(t2, "Stalled", false, "Reconciled", "", generation, now)
  }

  function Failure(s: Status, stalled: bool, reason: string, message: string, generation: int, now: nat): Status {
    var t := s.(observedGeneration := generation, lastAttemptTime := Some(now));
    var t1 := WithCondition(t, "Stalled", stalled, reason, if stalled then message else "", generation, now);
    var t2 := WithCondition(t1, "Reconciling", false, reason, message, generation, now);
    WithCondition(t2, "Ready", false, reason, message, generation, now)
  }

  function Suspended(s: Status, generation: int, now: nat): Status {
    var t1 := WithCondition(s, "Reconciling", false, "Suspended", "reconciliation is suspended", generation, now);
    var t2 := WithCondition(t1, "Ready", false, "Suspended", "reconciliation is suspended", generation, now);
    t2.(lastAttemptTime := Some(now))
  }

  /** An application that is ready is neither stalled nor reconciling. */
  predicate Coherent(cs: seq<Condition>) {
    IsTrue(cs, "Ready") ==>
      && Find(cs, "Stalled").Some? && !Find(cs, "Stalled").value.holds
      && Find(cs, "Reconciling").Some? && !Find(cs, "Reconciling").value.holds
  }

  lemma SuccessConditions(s: Status, revision: string, inventory: seq<ResourceReference>, generation: int, now: nat)
    ensures var t := Success(s, revision, inventory, generation, now);
            && IsTrue(t.conditions, "Ready") && Coherent(t.conditions)
            && t.observedGeneration == generation && t.lastAttemptTime == t.lastSuccessTime == Some(now)
            && t.appliedRevision == revision && t.inventory == inventory
            && (UniqueTypes(s.conditions) ==> UniqueTypes(t.conditions))
  {
    var c1 := Condition("Reconciling", false, "Reconciled", "reconciliation complete", generation, now);
    var c2 := Condition("Ready", true, "Reconciled", "application is ready", generation, now);
    var c3 := Condition("Stalled", false, "Reconciled", "", generation, now);
    ThreeConditions(s.conditions, c1, c2, c3);
  }

  lemma ThreeConditions(cs: seq<Condition>, c1: Condition, c2: Condition, c3: Condition)
    requires c1.name != c2.name && c1.name != c3.name && c2.name != c3.name
    ensures var out := SetCondition(SetCondition(SetCondition(cs, c1), c2), c3);
            && Find(out, c1.name) == Some(c1) && Find(out, c2.name) == Some(c2) && Find(out, c3.name) == Some(c3)
            && (UniqueTypes(cs) ==> UniqueTypes(out))
  {
    var s1 := SetCondition(cs, c1);
    var s2 := SetCondition(s1, c2);
    SetConditionFinds(cs, c1, c1.name);
    SetConditionFinds(s1, c2, c1.name);
    SetConditionFinds(s1, c2, c2.name);
    SetConditionFinds(s2, c3, c1.name);
    SetConditionFinds(s2, c3, c2.name);
    SetConditionFinds(s2, c3, c3.name);
    if UniqueTypes(cs) {
      SetConditionKeepsUnique(cs, c1);
      SetConditionKeepsUnique(s1, c2);
      SetConditionKeepsUnique(s2, c3);
    }
  }

  lemma FailureConditions(s: Status, stalled: bool, reason: string, message: string, generation: int, now: nat)
    ensures var t := Failure(s, stalled, reason, message, generation, now);
            && Find(t.conditions, "Ready") == Some(Condition("Ready", false, reason, message, generation, now))
            && !IsTrue(t.conditions, "Ready") && (IsTrue(t.conditions, "Stalled") <==> stalled)
            && Find(t.conditions, "Reconciling").Some? && !IsTrue(t.conditions, "Reconciling")
            && t.observedGeneration == generation && t.lastAttemptTime == Some(now) && t.lastSuccessTime == s.lastSuccessTime
            && t.appliedRevision == s.appliedRevision && t.inventory == s.inventory
            && (UniqueTypes(s.conditions) ==> UniqueTypes(t.conditions))
  {
    var c1 := Condition("Stalled", stalled, reason, if stalled then message else "", generation, now);
    var c2 := Condition("Reconciling", false, reason, message, generation, now);
    var c3 := Condition("Ready", false, reason, message, generation, now);
    ThreeConditions(s.conditions, c1, c2, c3);
  }

  lemma SuspendedConditions(s: Status, generation: int, now: nat)
    ensures var t := Suspended(s, generation, now);
            && Find(t.conditions, "Ready").Some? && !IsTrue(t.conditions, "Ready")
            && Find(t.conditions, "Ready").value.reason == "Suspended"
            && Find(t.conditions, "Reconciling").Some? && !IsTrue(t.conditions, "Reconciling")
            && Find(t.conditions, "Stalled") == Find(s.conditions, "Stalled") && t.observedGeneration == s.observedGeneration
            && t.lastAttemptTime == Some(now) && t.lastSuccessTime == s.lastSuccessTime
            && t.appliedRevision == s.appliedRevision && t.inventory == s.inventory
            && (UniqueTypes(s.conditions) ==> UniqueTypes(t.conditions))
  {
    var c1 := Condition("Reconciling", false, "Suspended", "reconciliation is suspended", generation, now);
    var c2 := Condition("Ready", false, "Suspended", "reconciliation is suspended", generation, now);
    SetConditionFinds(SetCondition(s.conditions, c1), c2, "Ready");
    SetConditionFinds(SetCondition(s.conditions, c1), c2, "Reconciling");
    SetConditionFinds(SetCondition(s.conditions, c1), c2, "Stalled");
    SetConditionFinds(s.conditions, c1, "Reconciling");
    SetConditionFinds(s.conditions, c1, "Stalled");
    if UniqueTypes(s.conditions) {
      SetConditionKeepsUnique(s.conditions, c1);
      SetConditionKeepsUnique(SetCondition(s.conditions, c1), c2);
    }
  }

  // Merge patches, section 2 of RFC 7386: arrays and scalars are replaced whole, equal members are left out

  /** A member that became empty is patched to null and reads back as its zero value, which is Put of that value. */
  datatype Member<T> = Keep | Put(value: T)

  datatype StatusPatch = StatusPatch(
    observedGeneration: Member<int>, attemptedRevision: Member<string>, appliedRevision: Member<string>,
    lastAttemptTime: Member<Option<nat>>, lastSuccessTime: Member<Option<nat>>,
    inventory: Member<seq<ResourceReference>>, conditions: Member<seq<Condition>>)

  function DiffMember<T(==)>(base: T, memory: T): Member<T> {
    if base == memory then Keep else Put(memory)
  }

  function MergeMember<T>(stored: T, m: Member<T>): T {
    if m.Keep? then stored else m.value
  }

  /** client.MergeFrom(base) */
  function MergeFrom(base: Status, memory: Status): StatusPatch {
    StatusPatch(
      DiffMember(base.observedGeneration, memory.observedGeneration),
      DiffMember(base.attemptedRevision, memory.attemptedRevision),
      DiffMember(base.appliedRevision, memory.appliedRevision),
      DiffMember(base.lastAttemptTime, memory.lastAttemptTime),
      DiffMember(base.lastSuccessTime, memory.lastSuccessTime),
      DiffMember(base.inventory, memory.inventory),
      DiffMember(base.conditions, memory.conditions))
  }

  function Merge(stored: Status, p: StatusPatch): Status {
    Status(
      MergeMember(stored.observedGeneration, p.observedGeneration),
      MergeMember(stored.attemptedRevision, p.attemptedRevision),
      MergeMember(stored.appliedRevision, p.appliedRevision),
      MergeMember(stored.lastAttemptTime, p.lastAttemptTime),
      MergeMember(stored.lastSuccessTime, p.lastSuccessTime),
      MergeMember(stored.inventory, p.inventory),
      MergeMember(stored.conditions, p.conditions))
  }
}
