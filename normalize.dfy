/**
 * Target-object normalisation (controller/state.go): namespace assignment and
 * deduplication by resource key, correction of cluster-scoped objects that the
 * renderer tagged with a namespace, and removal of excluded resources.
 */
module Normalize {
  import opened Wrappers
  import opened Resources
  import opened Conditions

  // ---------------------------------------------------------------------------
  // DeduplicateTargetObjects

  /** Cluster-scoped kinds lose their namespace; namespaced (or unknown) kinds without one get the destination's. */
  function WithScopedNamespace(namespace: string, o: Obj, info: GroupKind -> ScopeLookup): Obj
  {
    if !IsNamespacedOrUnknown(info, o.GroupKindOf()) then o.(namespace := "")
    else if o.namespace == "" then o.(namespace := namespace)
    else o
  }

  /** The key of the object at input index i: its resource key, or generateName followed by i when the name is empty. */
  function DedupKey(namespace: string, o: Obj, i: nat, info: GroupKind -> ScopeLookup): ResourceKey
  {
    var key := GetResourceKey(WithScopedNamespace(namespace, o, info));
    if key.name == "" && o.generateName != "" then key.(name := o.generateName + NatToString(i)) else key
  }

  predicate HasKeyAt(namespace: string, objs: seq<Option<Obj>>, info: GroupKind -> ScopeLookup, i: int, k: ResourceKey)
  {
    0 <= i < |objs| && objs[i].Some? && DedupKey(namespace, objs[i].value, i, info) == k
  }

  /** Reference definition: the normalised non-nil inputs whose key is k, in input order. */
  function Matching(namespace: string, objs: seq<Option<Obj>>, info: GroupKind -> ScopeLookup, k: ResourceKey): seq<Obj>
    decreases |objs|
  {
    if objs == [] then []
    else
      var n := |objs| - 1;
      Matching(namespace, objs[..n], info, k) +
        match objs[n]
        case Some(o) => if DedupKey(namespace, o, n, info) == k then [WithScopedNamespace(namespace, o, info)] else []
        case None => []
  }

  function Last<T>(s: seq<T>): T
    requires s != []
  {
    s[|s| - 1]
  }

  /** One repeated-resource warning per listed key that occurs more than once, in the order the keys are listed. */
  function RepeatWarnings(namespace: string, objs: seq<Option<Obj>>, info: GroupKind -> ScopeLookup, keys: seq<ResourceKey>): seq<Condition>
    decreases |keys|
  {
    if keys == [] then []
    else
      var k := Last(keys);
      var targets := Matching(namespace, objs, info, k);
      RepeatWarnings(namespace, objs, info, keys[..|keys| - 1]) +
        (if |targets| > 1 then [Condition(RepeatedResourceWarning, RepeatedResource(k, |targets|))] else [])
  }

  lemma MatchingPrefixStep(namespace: string, objs: seq<Option<Obj>>, info: GroupKind -> ScopeLookup, i: nat)
    requires i < |objs|
    ensures forall k :: Matching(namespace, objs[..i + 1], info, k) ==
              Matching(namespace, objs[..i], info, k)
              + (if objs[i].Some? && DedupKey(namespace, objs[i].value, i, info) == k
                 then [WithScopedNamespace(namespace, objs[i].value, info)] else [])
  {
    assert objs[..i + 1][..i] == objs[..i];
  }

  lemma RepeatWarningsAppend(namespace: string, objs: seq<Option<Obj>>, info: GroupKind -> ScopeLookup, keys: seq<ResourceKey>, k: ResourceKey)
    ensures RepeatWarnings(namespace, objs, info, keys + [k]) ==
            RepeatWarnings(namespace, objs, info, keys)
            + (if |Matching(namespace, objs, info, k)| > 1
               then [Condition(RepeatedResourceWarning, RepeatedResource(k, |Matching(namespace, objs, info, k)|))] else [])
  {
    assert (keys + [k])[..|keys|] == keys;
  }

  /** The first loop of the deduplication: normalised inputs grouped by key, in input order. */
  method GroupByKey(namespace: string, objs: seq<Option<Obj>>, info: GroupKind -> ScopeLookup)
    returns (targetByKey: map<ResourceKey, seq<Obj>>)
    ensures forall k :: k in targetByKey <==> Matching(namespace, objs, info, k) != []
    ensures forall k :: k in targetByKey ==> targetByKey[k] == Matching(namespace, objs, info, k)
  {
    targetByKey := map[];
    for i := 0 to |objs|
      invariant forall k :: k in targetByKey <==> Matching(namespace, objs[..i], info, k) != []
      invariant forall k :: k in targetByKey ==> targetByKey[k] == Matching(namespace, objs[..i], info, k)
    {
      MatchingPrefixStep(namespace, objs, info, i);
      if objs[i].Some? {
        var obj := WithScopedNamespace(namespace, objs[i].value, info);
        var key := GetResourceKey(obj);
        if key.name == "" && objs[i].value.generateName != "" {
          key := key.(name := objs[i].value.generateName + NatToString(i));
        }
        assert key == DedupKey(namespace, objs[i].value, i, info);
        var existing := if key in targetByKey then targetByKey[key] else [];
        targetByKey := targetByKey[key := existing + [obj]];
      }
    }
    assert objs[..|objs|] == objs;
  }

  /** One repeated-resource warning per listed group of more than one object, in the order the keys are listed. */
  function GroupWarnings(groups: map<ResourceKey, seq<Obj>>, keys: seq<ResourceKey>): seq<Condition>
    requires forall k :: k in keys ==> k in groups
  {
    if keys == [] then []
    else
      var k := Last(keys);
      GroupWarnings(groups, keys[..|keys| - 1]) +
        (if |groups[k]| > 1 then [Condition(RepeatedResourceWarning, RepeatedResource(k, |groups[k]|))] else [])
  }

  lemma GroupWarningsAppend(groups: map<ResourceKey, seq<Obj>>, keys: seq<ResourceKey>, k: ResourceKey)
    requires forall k :: k in keys ==> k in groups
    requires k in groups
    ensures GroupWarnings(groups, keys + [k]) ==
            GroupWarnings(groups, keys)
            + (if |groups[k]| > 1 then [Condition(RepeatedResourceWarning, RepeatedResource(k, |groups[k]|))] else [])
  {
    assert (keys + [k])[..|keys|] == keys;
  }

  /** With the groups built from the inputs, the group warnings are the repeat warnings. */
  lemma {:induction false} GroupWarningsAreRepeatWarnings(namespace: string, objs: seq<Option<Obj>>, info: GroupKind -> ScopeLookup,
                                                          groups: map<ResourceKey, seq<Obj>>, keys: seq<ResourceKey>)
    requires forall k :: k in keys ==> k in groups
    requires forall k :: k in groups ==> groups[k] == Matching(namespace, objs, info, k)
    ensures GroupWarnings(groups, keys) == RepeatWarnings(namespace, objs, info, keys)
    decreases |keys|
  {
    if keys != [] {
      GroupWarningsAreRepeatWarnings(namespace, objs, info, groups, keys[..|keys| - 1]);
    }
  }

  /**
   * The second loop of the deduplication: visits the groups in an unspecified
   * order (Go map order), recorded in keys, and emits the last object of each
   * group and a warning for each group of more than one.
   */
  method EmitGroups(targetByKey: map<ResourceKey, seq<Obj>>)
    returns (result: seq<Obj>, conditions: seq<Condition>, ghost keys: seq<ResourceKey>)
    requires forall k :: k in targetByKey ==> targetByKey[k] != []
    ensures |keys| == |result|
    ensures forall a, b :: 0 <= a < b < |keys| ==> keys[a] != keys[b]
    ensures forall k :: k in keys <==> k in targetByKey
    ensures forall j :: 0 <= j < |result| ==> result[j] == Last(targetByKey[keys[j]])
    ensures conditions == GroupWarnings(targetByKey, keys)
  {
    conditions, result, keys := [], [], [];
    var remaining := targetByKey.Keys;
    while remaining != {}
      invariant remaining <= targetByKey.Keys
      invariant forall k :: k in keys <==> k in targetByKey && k !in remaining
      invariant forall a, b :: 0 <= a < b < |keys| ==> keys[a] != keys[b]
      invariant |keys| == |result|
      invariant forall j {:trigger result[j]} :: 0 <= j < |result| ==> result[j] == Last(targetByKey[keys[j]])
      invariant conditions == GroupWarnings(targetByKey, keys)
      decreases remaining
    {
      var key :| key in remaining;
      GroupWarningsAppend(targetByKey, keys, key);
      var targets := targetByKey[key];
      if |targets| > 1 {
        conditions := conditions + [Condition(RepeatedResourceWarning, RepeatedResource(key, |targets|))];
      }
      result := result + [targets[|targets| - 1]];
      keys := keys + [key];
      remaining := remaining - {key};
    }
  }

  /**
   * Groups the objects by key in a map of slices, then emits the last object of
   * every group and a warning for every group of more than one, visiting the
   * groups in an unspecified order (Go map order), recorded in keys.
   */
  method DeduplicateTargetObjects(namespace: string, objs: seq<Option<Obj>>, info: GroupKind -> ScopeLookup)
    returns (result: seq<Obj>, conditions: seq<Condition>, ghost keys: seq<ResourceKey>)
    ensures |keys| == |result|
    ensures forall a, b :: 0 <= a < b < |keys| ==> keys[a] != keys[b]
    ensures forall k :: k in keys <==> Matching(namespace, objs, info, k) != []
    ensures forall j :: 0 <= j < |result| ==>
              Matching(namespace, objs, info, keys[j]) != [] && result[j] == Last(Matching(namespace, objs, info, keys[j]))
    ensures conditions == RepeatWarnings(namespace, objs, info, keys)
    ensures forall x :: x in result <==> KeptForSomeKey(namespace, objs, info, x)
    ensures forall k :: WarningsFor(conditions, k) == if |Matching(namespace, objs, info, k)| > 1 then 1 else 0
    ensures forall c :: c in conditions ==>
              c.ctype == RepeatedResourceWarning && c.message.RepeatedResource? &&
              c.message.count == |Matching(namespace, objs, info, c.message.key)| > 1
    ensures forall k :: |Matching(namespace, objs, info, k)| > 1 ==>
              Condition(RepeatedResourceWarning, RepeatedResource(k, |Matching(namespace, objs, info, k)|)) in conditions
  {
    var targetByKey := GroupByKey(namespace, objs, info);
    result, conditions, keys := EmitGroups(targetByKey);
    GroupWarningsAreRepeatWarnings(namespace, objs, info, targetByKey, keys);
    DedupKeepsLastOfEveryKey(namespace, objs, info, result, keys);
    DedupWarningCounts(namespace, objs, info, keys);
    DedupWarnsEveryRepeat(namespace, objs, info, conditions);
  }

  /** The objects with key k are exactly the normalised inputs at the indices carrying key k. */
  lemma {:induction false} MatchingMembers(namespace: string, objs: seq<Option<Obj>>, info: GroupKind -> ScopeLookup, k: ResourceKey, x: Obj)
    ensures x in Matching(namespace, objs, info, k) <==>
            exists i :: HasKeyAt(namespace, objs, info, i, k) && x == WithScopedNamespace(namespace, objs[i].value, info)
    decreases |objs|
  {
    if objs != [] {
      var n := |objs| - 1;
      MatchingMembers(namespace, objs[..n], info, k, x);
      forall i | 0 <= i < n ensures HasKeyAt(namespace, objs[..n], info, i, k) == HasKeyAt(namespace, objs, info, i, k) {
      }
    }
  }

  /** A key is kept exactly when some non-nil input carries it. */
  lemma KeyPresentIff(namespace: string, objs: seq<Option<Obj>>, info: GroupKind -> ScopeLookup, k: ResourceKey)
    ensures Matching(namespace, objs, info, k) != [] <==> exists i :: HasKeyAt(namespace, objs, info, i, k)
  {
    var m := Matching(namespace, objs, info, k);
    if m != [] {
      MatchingMembers(namespace, objs, info, k, m[0]);
    } else {
      forall i | HasKeyAt(namespace, objs, info, i, k) ensures false {
        MatchingMembers(namespace, objs, info, k, WithScopedNamespace(namespace, objs[i].value, info));
      }
    }
  }

  /** The object kept for a key is the normalised last input carrying that key. */
  lemma {:induction false} KeepsLast(namespace: string, objs: seq<Option<Obj>>, info: GroupKind -> ScopeLookup, k: ResourceKey, j: nat)
    requires HasKeyAt(namespace, objs, info, j, k)
    requires forall i :: j < i < |objs| ==> !HasKeyAt(namespace, objs, info, i, k)
    ensures Matching(namespace, objs, info, k) != []
    ensures Last(Matching(namespace, objs, info, k)) == WithScopedNamespace(namespace, objs[j].value, info)
    decreases |objs|
  {
    var n := |objs| - 1;
    if j < n {
      assert !HasKeyAt(namespace, objs, info, n, k);
      forall i | j < i < n ensures !HasKeyAt(namespace, objs[..n], info, i, k) {
        assert !HasKeyAt(namespace, objs, info, i, k);
      }
      KeepsLast(namespace, objs[..n], info, k, j);
    }
  }

  /** The input indices carrying key k. */
  function Occurrences(namespace: string, objs: seq<Option<Obj>>, info: GroupKind -> ScopeLookup, k: ResourceKey): set<int>
  {
    set i | 0 <= i < |objs| && HasKeyAt(namespace, objs, info, i, k)
  }

  lemma MatchingStep(namespace: string, objs: seq<Option<Obj>>, info: GroupKind -> ScopeLookup, k: ResourceKey)
    requires objs != []
    ensures |Matching(namespace, objs, info, k)| ==
            |Matching(namespace, objs[..|objs| - 1], info, k)| + (if HasKeyAt(namespace, objs, info, |objs| - 1, k) then 1 else 0)
  {
  }

  lemma OccurrencesStep(namespace: string, objs: seq<Option<Obj>>, info: GroupKind -> ScopeLookup, k: ResourceKey)
    requires objs != []
    ensures Occurrences(namespace, objs, info, k) ==
            Occurrences(namespace, objs[..|objs| - 1], info, k) +
            (if HasKeyAt(namespace, objs, info, |objs| - 1, k) then {|objs| - 1} else {})
  {
    var n := |objs| - 1;
    forall i | 0 <= i < n ensures HasKeyAt(namespace, objs[..n], info, i, k) == HasKeyAt(namespace, objs, info, i, k) {
    }
  }

  /** The number of objects grouped under a key is the number of inputs carrying it. */
  lemma {:induction false} CountIsOccurrences(namespace: string, objs: seq<Option<Obj>>, info: GroupKind -> ScopeLookup, k: ResourceKey)
    ensures |Matching(namespace, objs, info, k)| == |Occurrences(namespace, objs, info, k)|
    decreases |objs|
  {
    if objs == [] {
      assert Occurrences(namespace, objs, info, k) == {};
    } else {
      var n := |objs| - 1;
      CountIsOccurrences(namespace, objs[..n], info, k);
      MatchingStep(namespace, objs, info, k);
      OccurrencesStep(namespace, objs, info, k);
      assert n !in Occurrences(namespace, objs[..n], info, k);
    }
  }

  /** Occurrences of repeated-resource warnings naming key k. */
  function WarningsFor(conditions: seq<Condition>, k: ResourceKey): nat
    decreases |conditions|
  {
    if conditions == [] then 0
    else
      var c := Last(conditions);
      WarningsFor(conditions[..|conditions| - 1], k) +
        (if c.ctype == RepeatedResourceWarning && c.message.RepeatedResource? && c.message.key == k then 1 else 0)
  }

  lemma {:induction false} WarningsForAppend(a: seq<Condition>, b: seq<Condition>, k: ResourceKey)
    ensures WarningsFor(a + b, k) == WarningsFor(a, k) + WarningsFor(b, k)
    decreases |b|
  {
    if b != [] {
      assert (a + b)[..|a + b| - 1] == a + b[..|b| - 1];
      WarningsForAppend(a, b[..|b| - 1], k);
    } else {
      assert a + b == a;
    }
  }

  /**
   * Over distinct keys, a key gets exactly one warning when it occurs more than
   * once and none otherwise, and every warning carries its key's occurrence count.
   */
  lemma {:induction false} WarningsExactlyForRepeats(namespace: string, objs: seq<Option<Obj>>, info: GroupKind -> ScopeLookup, keys: seq<ResourceKey>, k: ResourceKey)
    requires forall a, b :: 0 <= a < b < |keys| ==> keys[a] != keys[b]
    ensures WarningsFor(RepeatWarnings(namespace, objs, info, keys), k) ==
            if k in keys && |Matching(namespace, objs, info, k)| > 1 then 1 else 0
    ensures forall c :: c in RepeatWarnings(namespace, objs, info, keys) ==>
              c.ctype == RepeatedResourceWarning && c.message.RepeatedResource? && c.message.key in keys &&
              c.message.count == |Matching(namespace, objs, info, c.message.key)| > 1
    decreases |keys|
  {
    if keys != [] {
      var n := |keys| - 1;
      var init := keys[..n];
      WarningsExactlyForRepeats(namespace, objs, info, init, k);
      var targets := Matching(namespace, objs, info, keys[n]);
      var tail := if |targets| > 1 then [Condition(RepeatedResourceWarning, RepeatedResource(keys[n], |targets|))] else [];
      assert RepeatWarnings(namespace, objs, info, keys) == RepeatWarnings(namespace, objs, info, init) + tail;
      WarningsForAppend(RepeatWarnings(namespace, objs, info, init), tail, k);
      if tail != [] {
        assert tail[..0] == [];
      }
      assert keys[n] !in init by {
        forall a | 0 <= a < n ensures init[a] != keys[n] {
        }
      }
      assert k in keys <==> k in init || k == keys[n];
    }
  }

  /** A positive warning count for k means some warning names k. */
  lemma {:induction false} WarningsForPositive(conditions: seq<Condition>, k: ResourceKey)
    requires WarningsFor(conditions, k) > 0
    ensures exists c :: c in conditions && c.ctype == RepeatedResourceWarning && c.message.RepeatedResource? && c.message.key == k
    decreases |conditions|
  {
    var c := Last(conditions);
    if !(c.ctype == RepeatedResourceWarning && c.message.RepeatedResource? && c.message.key == k) {
      var init := conditions[..|conditions| - 1];
      WarningsForPositive(init, k);
      var d :| d in init && d.ctype == RepeatedResourceWarning && d.message.RepeatedResource? && d.message.key == k;
      assert d in conditions;
    }
  }

  /** x is what the deduplication keeps for some key present in the inputs. */
  ghost predicate KeptForSomeKey(namespace: string, objs: seq<Option<Obj>>, info: GroupKind -> ScopeLookup, x: Obj)
  {
    exists k :: Matching(namespace, objs, info, k) != [] && x == Last(Matching(namespace, objs, info, k))
  }

  /** The kept objects are exactly the last normalised object of every key present. */
  lemma DedupKeepsLastOfEveryKey(namespace: string, objs: seq<Option<Obj>>, info: GroupKind -> ScopeLookup,
                                 result: seq<Obj>, keys: seq<ResourceKey>)
    requires |keys| == |result|
    requires forall k :: k in keys <==> Matching(namespace, objs, info, k) != []
    requires forall j :: 0 <= j < |result| ==>
               Matching(namespace, objs, info, keys[j]) != [] && result[j] == Last(Matching(namespace, objs, info, keys[j]))
    ensures forall x :: x in result <==> KeptForSomeKey(namespace, objs, info, x)
  {
    forall x | x in result
      ensures KeptForSomeKey(namespace, objs, info, x)
    {
      var j :| 0 <= j < |result| && result[j] == x;
      var key := keys[j];
      assert Matching(namespace, objs, info, key) != [] && x == Last(Matching(namespace, objs, info, key));
    }
    forall x | KeptForSomeKey(namespace, objs, info, x)
      ensures x in result
    {
      var k :| Matching(namespace, objs, info, k) != [] && x == Last(Matching(namespace, objs, info, k));
      var j :| 0 <= j < |keys| && keys[j] == k;
      assert result[j] == x;
    }
  }

  /**
   * Over all present keys in any order, a key gets exactly one warning when it
   * occurs more than once and none otherwise, and every warning carries its
   * key's occurrence count.
   */
  lemma DedupWarningCounts(namespace: string, objs: seq<Option<Obj>>, info: GroupKind -> ScopeLookup, keys: seq<ResourceKey>)
    requires forall a, b :: 0 <= a < b < |keys| ==> keys[a] != keys[b]
    requires forall k :: k in keys <==> Matching(namespace, objs, info, k) != []
    ensures forall k :: WarningsFor(RepeatWarnings(namespace, objs, info, keys), k) ==
              if |Matching(namespace, objs, info, k)| > 1 then 1 else 0
    ensures forall c :: c in RepeatWarnings(namespace, objs, info, keys) ==>
              c.ctype == RepeatedResourceWarning && c.message.RepeatedResource? &&
              c.message.count == |Matching(namespace, objs, info, c.message.key)| > 1
  {
    forall k
      ensures WarningsFor(RepeatWarnings(namespace, objs, info, keys), k) ==
              if |Matching(namespace, objs, info, k)| > 1 then 1 else 0
    {
      WarningsExactlyForRepeats(namespace, objs, info, keys, k);
    }
    WarningsExactlyForRepeats(namespace, objs, info, keys, ResourceKey("", "", "", ""));
  }

  /** Every key occurring more than once is named, with its count, by a warning. */
  lemma DedupWarnsEveryRepeat(namespace: string, objs: seq<Option<Obj>>, info: GroupKind -> ScopeLookup, conditions: seq<Condition>)
    requires forall k :: WarningsFor(conditions, k) == if |Matching(namespace, objs, info, k)| > 1 then 1 else 0
    requires forall c :: c in conditions ==>
               c.ctype == RepeatedResourceWarning && c.message.RepeatedResource? &&
               c.message.count == |Matching(namespace, objs, info, c.message.key)| > 1
    ensures forall k :: |Matching(namespace, objs, info, k)| > 1 ==>
              Condition(RepeatedResourceWarning, RepeatedResource(k, |Matching(namespace, objs, info, k)|)) in conditions
  {
    forall k | |Matching(namespace, objs, info, k)| > 1
      ensures Condition(RepeatedResourceWarning, RepeatedResource(k, |Matching(namespace, objs, info, k)|)) in conditions
    {
      WarningsForPositive(conditions, k);
    }
  }

  /** An object keyed by its own resource key (it has a name, or no generateName) keeps that key. */
  lemma NamedObjectsKeepResourceKey(namespace: string, o: Obj, i: nat, info: GroupKind -> ScopeLookup)
    requires o.name != "" || o.generateName == ""
    ensures DedupKey(namespace, o, i, info) == GetResourceKey(WithScopedNamespace(namespace, o, info))
  {
  }

  /** Objects with an empty name and a generateName are never merged with another input. */
  lemma {:induction false} GeneratedNamesNeverCollide(namespace: string, objs: seq<Option<Obj>>, info: GroupKind -> ScopeLookup, i: nat, j: nat)
    requires i < j < |objs| && objs[i].Some? && objs[j].Some?
    requires objs[i].value.name == "" && objs[i].value.generateName != ""
    requires objs[j].value.name == "" && objs[j].value.generateName != ""
    requires objs[i].value.generateName == objs[j].value.generateName
    ensures DedupKey(namespace, objs[i].value, i, info) != DedupKey(namespace, objs[j].value, j, info)
  {
    var g := objs[i].value.generateName;
    if DedupKey(namespace, objs[i].value, i, info) == DedupKey(namespace, objs[j].value, j, info) {
      assert g + NatToString(i) == g + NatToString(j);
      assert NatToString(i) == (g + NatToString(i))[|g|..];
      assert NatToString(j) == (g + NatToString(j))[|g|..];
      CountTextInjective(i, j);
    }
  }

  /** When the cluster cache is unreachable (stub provider) every kept object has its namespace cleared. */
  lemma StubProviderClearsNamespaces(namespace: string, objs: seq<Option<Obj>>, k: ResourceKey, x: Obj)
    requires x in Matching(namespace, objs, StubProvider, k)
    ensures x.namespace == ""
  {
    MatchingMembers(namespace, objs, StubProvider, k, x);
  }

  /** Every kept object is a non-nil input with the scope rule applied to its namespace. */
  lemma KeptObjectsAreScoped(namespace: string, objs: seq<Option<Obj>>, info: GroupKind -> ScopeLookup, k: ResourceKey, x: Obj)
    requires x in Matching(namespace, objs, info, k)
    ensures exists i :: 0 <= i < |objs| && objs[i].Some? && x == WithScopedNamespace(namespace, objs[i].value, info)
    ensures !IsNamespacedOrUnknown(info, x.GroupKindOf()) ==> x.namespace == ""
    ensures IsNamespacedOrUnknown(info, x.GroupKindOf()) ==> x.namespace != "" || namespace == ""
    ensures forall i :: (0 <= i < |objs| && objs[i].Some? && x == WithScopedNamespace(namespace, objs[i].value, info) &&
                         IsNamespacedOrUnknown(info, objs[i].value.GroupKindOf())) ==>
              x.namespace == (if objs[i].value.namespace == "" then namespace else objs[i].value.namespace)
  {
    MatchingMembers(namespace, objs, info, k, x);
  }

  // ---------------------------------------------------------------------------
  // normalizeClusterScopeTracking

  /** A non-nil object whose kind is cluster-scoped but which carries a namespace. */
  predicate NeedsScopeFix(o: Option<Obj>, info: GroupKind -> ScopeLookup)
  {
    o.Some? && !IsNamespacedOrUnknown(info, o.value.GroupKindOf()) && o.value.namespace != ""
  }

  predicate TrackingFails(o: Option<Obj>, info: GroupKind -> ScopeLookup, setAppInstance: Obj -> Result<Metadata, string>)
  {
    NeedsScopeFix(o, info) && setAppInstance(o.value.(namespace := "")).Failure?
  }

  /** The object after a successful correction: namespace cleared, tracking metadata re-applied. */
  function ScopeFixed(o: Option<Obj>, info: GroupKind -> ScopeLookup, setAppInstance: Obj -> Result<Metadata, string>): Option<Obj>
  {
    if NeedsScopeFix(o, info) && setAppInstance(o.value.(namespace := "")).Success? then
      Some(o.value.(namespace := "", meta := setAppInstance(o.value.(namespace := "")).value))
    else o
  }

  /**
   * A corrected object needs no further correction, so a second pass over the
   * result of a pass without errors leaves every object as it is.
   */
  lemma SecondPassChangesNothing(o: Option<Obj>, info: GroupKind -> ScopeLookup, setAppInstance: Obj -> Result<Metadata, string>)
    requires !TrackingFails(o, info, setAppInstance)
    ensures !NeedsScopeFix(ScopeFixed(o, info, setAppInstance), info)
    ensures !TrackingFails(ScopeFixed(o, info, setAppInstance), info, setAppInstance)
    ensures ScopeFixed(ScopeFixed(o, info, setAppInstance), info, setAppInstance) == ScopeFixed(o, info, setAppInstance)
  {
  }

  /**
   * Walks the objects from the last to the first, clearing the namespace of
   * mis-scoped cluster-scoped objects and re-applying tracking on them; the
   * first callback error aborts, leaving the lower indices untouched.
   */
  method NormalizeClusterScopeTracking(targetObjs: array<Option<Obj>>, info: GroupKind -> ScopeLookup, setAppInstance: Obj -> Result<Metadata, string>)
    returns (err: Option<Message>, ghost failedAt: int)
    modifies targetObjs
    ensures forall k :: 0 <= k < targetObjs.Length && !NeedsScopeFix(old(targetObjs[k]), info) ==> targetObjs[k] == old(targetObjs[k])
    ensures err.None? <==> forall k :: 0 <= k < targetObjs.Length ==> !TrackingFails(old(targetObjs[k]), info, setAppInstance)
    ensures err.None? ==> forall k :: 0 <= k < targetObjs.Length ==>
              targetObjs[k] == ScopeFixed(old(targetObjs[k]), info, setAppInstance) && !NeedsScopeFix(targetObjs[k], info)
    ensures err.Some? ==>
              && 0 <= failedAt < targetObjs.Length
              && TrackingFails(old(targetObjs[failedAt]), info, setAppInstance)
              && (forall k :: failedAt < k < targetObjs.Length ==>
                    !TrackingFails(old(targetObjs[k]), info, setAppInstance) &&
                    targetObjs[k] == ScopeFixed(old(targetObjs[k]), info, setAppInstance))
              && targetObjs[failedAt] == Some(old(targetObjs[failedAt]).value.(namespace := ""))
              && (forall k :: 0 <= k < failedAt ==> targetObjs[k] == old(targetObjs[k]))
              && err.value == ClusterScopeTrackingFailed(
                   old(targetObjs[failedAt]).value.GvkString(), old(targetObjs[failedAt]).value.name,
                   setAppInstance(old(targetObjs[failedAt]).value.(namespace := "")).error)
  {
    failedAt := -1;
    var i := targetObjs.Length;
    while i > 0
      invariant 0 <= i <= targetObjs.Length
      invariant forall k :: i <= k < targetObjs.Length ==>
                  !TrackingFails(old(targetObjs[k]), info, setAppInstance) &&
                  targetObjs[k] == ScopeFixed(old(targetObjs[k]), info, setAppInstance)
      invariant forall k :: 0 <= k < i ==> targetObjs[k] == old(targetObjs[k])
    {
      i := i - 1;
      var targetObj := targetObjs[i];
      if targetObj.Some? {
        var obj := targetObj.value;
        if !IsNamespacedOrUnknown(info, obj.GroupKindOf()) {
          if obj.namespace != "" {
            var cleared := obj.(namespace := "");
            targetObjs[i] := Some(cleared);
            var applied := setAppInstance(cleared);
            if applied.Failure? {
              failedAt := i;
              return Some(ClusterScopeTrackingFailed(obj.GvkString(), obj.name, applied.error)), failedAt;
            }
            targetObjs[i] := Some(cleared.(meta := applied.value));
          }
        }
      }
    }
    return None, failedAt;
  }

  // ---------------------------------------------------------------------------
  // Excluded resources and the managed namespace among the targets

  /** The objects that survive the resource exclusion filter, in input order. */
  function Kept(objs: seq<Obj>, excluded: (string, string) -> bool): seq<Obj>
    decreases |objs|
  {
    if objs == [] then []
    else (if excluded(objs[0].group, objs[0].kind) then [] else [objs[0]]) + Kept(objs[1..], excluded)
  }

  /** One warning per excluded object, from the last object to the first. */
  function ExclusionWarnings(objs: seq<Obj>, excluded: (string, string) -> bool): seq<Condition>
    decreases |objs|
  {
    if objs == [] then []
    else
      ExclusionWarnings(objs[1..], excluded) +
        if excluded(objs[0].group, objs[0].kind) then
          [Condition(ExcludedResourceWarning, ExcludedResource(objs[0].group, objs[0].kind, objs[0].name))]
        else []
  }

  lemma {:induction false} KeptExactly(objs: seq<Obj>, excluded: (string, string) -> bool, x: Obj)
    ensures x in Kept(objs, excluded) <==> x in objs && !excluded(x.group, x.kind)
    decreases |objs|
  {
    if objs != [] {
      KeptExactly(objs[1..], excluded, x);
      assert objs == [objs[0]] + objs[1..];
    }
  }

  /**
   * Walks the objects from the last to the first, removing excluded kinds with a
   * warning each, and notes whether any object (excluded or not) is the
   * application's managed namespace.
   */
  method FilterExcludedResources(objs: seq<Obj>, excluded: (string, string) -> bool, app: App)
    returns (targetObjs: seq<Obj>, conditions: seq<Condition>, targetNsExists: bool)
    ensures targetObjs == Kept(objs, excluded)
    ensures conditions == ExclusionWarnings(objs, excluded)
    ensures targetNsExists <==> exists i :: 0 <= i < |objs| && IsManagedNamespace(Some(objs[i]), app)
  {
    targetObjs, conditions, targetNsExists := objs, [], false;
    var i := |objs|;
    while i > 0
      invariant 0 <= i <= |objs|
      invariant targetObjs == objs[..i] + Kept(objs[i..], excluded)
      invariant conditions == ExclusionWarnings(objs[i..], excluded)
      invariant targetNsExists <==> exists j :: i <= j < |objs| && IsManagedNamespace(Some(objs[j]), app)
    {
      i := i - 1;
      assert objs[i..][1..] == objs[i + 1..];
      assert objs[..i + 1] == objs[..i] + [objs[i]];
      var targetObj := targetObjs[i];
      assert targetObj == objs[i];
      if excluded(targetObj.group, targetObj.kind) {
        targetObjs := targetObjs[..i] + targetObjs[i + 1..];
        conditions := conditions + [Condition(ExcludedResourceWarning, ExcludedResource(targetObj.group, targetObj.kind, targetObj.name))];
      }
      if IsManagedNamespace(Some(targetObj), app) {
        targetNsExists := true;
      }
    }
    assert objs[0..] == objs;
  }
}
