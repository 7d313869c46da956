/**
 * The resource classification loop and the aggregate sync verdict of
 * CompareAppState (controller/state.go). Every reconciled pair of a desired and
 * a live object gets a per-resource status, and the application's sync status
 * is folded from them.
 */
module Classify {
  import opened Wrappers
  import opened Resources
  import opened Conditions
  import opened Ownership

  /** Sync status codes; NoStatus is the empty code the source leaves on resources it does not judge. */
  datatype SyncStatusCode = NoStatus | Synced | OutOfSync | Unknown

  /** The part of a diff result the classifier reads; the JSON documents are kept as text. */
  datatype DiffResult = DiffResult(modified: bool, normalizedLive: string, predictedLive: string)

  /** The result used for a pair the diff step returned nothing for. */
  const NoDiff := DiffResult(false, "{}", "{}")

  /** One pair from the reconciliation step: either side may be missing. */
  datatype ReconciledPair = ReconciledPair(target: Option<Obj>, live: Option<Obj>)

  /** A pair together with the diff result it is judged by. */
  datatype Reconciled = Reconciled(target: Option<Obj>, live: Option<Obj>, diff: DiffResult)

  /**
   * The collaborators the loop consults, as opaque functions of the object:
   * hook detection, the ignore and skip annotations, the IgnoreExtraneous and
   * Delete=confirm options, the sync wave, the cluster's scope lookup, the
   * project's group-kind permission and the tracking id recorded on an object.
   */
  /**
   * The live cache's answer to "is this kind namespaced?": the boolean it
   * returns and whether it also returned an error. Both parts are read
   * separately: the permission check discounts the boolean on error, the
   * missing-namespace check does not.
   */
  datatype NamespacedAnswer = NamespacedAnswer(isNamespaced: bool, failed: bool)

  datatype Oracles = Oracles(
    isHook: Obj -> bool,
    ignored: Obj -> bool,
    skipped: Obj -> bool,
    ignoreExtraneous: Obj -> bool,
    deleteRequiresConfirm: Obj -> bool,
    syncWave: Obj -> int,
    scope: GroupKind -> NamespacedAnswer,
    permitted: (GroupKind, bool) -> bool,
    appInstanceOf: Obj -> Option<AppInstanceValue>)

  /** What the loop reads besides the pairs. */
  datatype Context = Context(
    app: App,
    trackingMethod: string,
    failedToLoadObjs: bool,
    changedManagedNamespaceMetadata: bool,
    oracles: Oracles)

  /** The per-resource summary stored in the application status. */
  datatype ResourceStatus = ResourceStatus(
    namespace: string, name: string, kind: string, version: string, group: string,
    hook: bool, requiresPruning: bool, requiresDeletionConfirmation: bool,
    syncWave: int, status: SyncStatusCode)

  /** The per-resource record handed on to health assessment. */
  datatype ManagedResource = ManagedResource(
    name: string, namespace: string, group: string, kind: string, version: string,
    live: Option<Obj>, target: Option<Obj>, diff: DiffResult, hook: bool, resourceVersion: string)

  /** Zero values left in the slots of pairs with neither side. */
  const ZeroStatus := ResourceStatus("", "", "", "", "", false, false, false, 0, NoStatus)
  const ZeroManaged := ManagedResource("", "", "", "", "", None, None, DiffResult(false, "", ""), false, "")

  /** Each pair judged by the diff at its own index, or by NoDiff when the diff list is shorter. */
  function Align(pairs: seq<ReconciledPair>, diffs: seq<DiffResult>): (rs: seq<Reconciled>)
    ensures |rs| == |pairs|
    ensures forall i :: 0 <= i < |pairs| ==>
              rs[i].target == pairs[i].target && rs[i].live == pairs[i].live
    ensures forall i :: 0 <= i < |pairs| && i < |diffs| ==> rs[i].diff == diffs[i]
    ensures forall i :: |diffs| <= i < |pairs| ==> rs[i].diff == NoDiff
  {
    seq(|pairs|, i requires 0 <= i < |pairs| =>
      Reconciled(pairs[i].target, pairs[i].live, if i < |diffs| then diffs[i] else NoDiff))
  }

  /** The object a pair is reported by: the live one when it exists. */
  function ObjOf(r: Reconciled): Option<Obj>
  {
    if r.live.Some? then r.live else r.target
  }

  predicate Present(r: Reconciled) { ObjOf(r).Some? }

  predicate SelfReferenced(ctx: Context, r: Reconciled)
  {
    IsSelfReferenced(r.live, r.target, ctx.app.name, ctx.trackingMethod, ctx.oracles.appInstanceOf)
  }

  /** Hooks, ignored and skipped resources and objects the application does not own get no status. */
  predicate Excluded(ctx: Context, r: Reconciled)
    requires Present(r)
  {
    var o := ObjOf(r).value;
    || ctx.oracles.isHook(o)
    || ctx.oracles.ignored(o)
    || (r.target.Some? && ctx.oracles.skipped(r.target.value))
    || !SelfReferenced(ctx, r)
  }

  /** A managed namespace the application declares but that does not exist yet. */
  predicate ManagedNsPlaceholder(ctx: Context, r: Reconciled)
  {
    IsManagedNamespace(r.target, ctx.app) && r.live.None?
  }

  /** The two sides differ, or one of them is missing. */
  predicate Differs(r: Reconciled)
  {
    r.diff.modified || r.target.None? || r.live.None?
  }

  /** Live but no longer desired. */
  predicate PruneCandidate(r: Reconciled)
  {
    r.target.None? && r.live.Some?
  }

  /** The status before the permission and load-failure overrides. */
  function BaseStatus(ctx: Context, r: Reconciled): SyncStatusCode
    requires Present(r)
  {
    if Excluded(ctx, r) then NoStatus
    else if !ManagedNsPlaceholder(ctx, r) && Differs(r) then OutOfSync
    else Synced
  }

  /** An extraneous resource carrying IgnoreExtraneous does not count against the application. */
  predicate Excused(ctx: Context, r: Reconciled)
    requires Present(r)
  {
    PruneCandidate(r) && ctx.oracles.ignoreExtraneous(ObjOf(r).value)
  }

  /** The resource turns the application OutOfSync. */
  predicate Flips(ctx: Context, r: Reconciled)
    requires Present(r)
  {
    BaseStatus(ctx, r) == OutOfSync && !Excused(ctx, r)
  }

  /** The scope lookup reported the kind namespaced, whether or not it also failed. */
  predicate LookupNamespaced(ctx: Context, o: Obj)
  {
    ctx.oracles.scope(o.GroupKindOf()).isNamespaced
  }

  /** The project check is asked with "namespaced" only when the lookup said so without error. */
  predicate Permitted(ctx: Context, o: Obj)
  {
    ctx.oracles.permitted(o.GroupKindOf(), LookupNamespaced(ctx, o) && !ctx.oracles.scope(o.GroupKindOf()).failed)
  }

  /** The stored status of a resource. */
  function StatusOf(ctx: Context, r: Reconciled): SyncStatusCode
    requires Present(r)
  {
    if ctx.failedToLoadObjs then Unknown
    else if !Permitted(ctx, ObjOf(r).value) then Unknown
    else BaseStatus(ctx, r)
  }

  predicate RequiresDeletionConfirmation(ctx: Context, r: Reconciled)
  {
    || (r.target.Some? && ctx.oracles.deleteRequiresConfirm(r.target.value))
    || (r.live.Some? && ctx.oracles.deleteRequiresConfirm(r.live.value))
  }

  function Summary(ctx: Context, r: Reconciled): ResourceStatus
    requires Present(r)
  {
    var o := ObjOf(r).value;
    ResourceStatus(o.namespace, o.name, o.kind, o.version, o.group,
                   ctx.oracles.isHook(o),
                   PruneCandidate(r) && SelfReferenced(ctx, r),
                   RequiresDeletionConfirmation(ctx, r),
                   if r.target.Some? then ctx.oracles.syncWave(r.target.value) else 0,
                   StatusOf(ctx, r))
  }

  function Managed(ctx: Context, r: Reconciled): ManagedResource
    requires Present(r)
  {
    var o := ObjOf(r).value;
    ManagedResource(o.name, o.namespace, o.group, o.kind, o.version, r.live, r.target, r.diff,
                    ctx.oracles.isHook(o), if r.live.Some? then r.live.value.resourceVersion else "")
  }

  function SummaryAt(ctx: Context, rs: seq<Reconciled>, i: nat): ResourceStatus
    requires i < |rs|
  {
    if Present(rs[i]) then Summary(ctx, rs[i]) else ZeroStatus
  }

  function ManagedAt(ctx: Context, rs: seq<Reconciled>, i: nat): ManagedResource
    requires i < |rs|
  {
    if Present(rs[i]) then Managed(ctx, rs[i]) else ZeroManaged
  }

  /** A namespaced kind whose object has no namespace. */
  predicate NamespaceMissing(ctx: Context, r: Reconciled)
  {
    Present(r) && LookupNamespaced(ctx, ObjOf(r).value) && ObjOf(r).value.namespace == ""
  }

  function MissingNamespaceCondition(o: Obj): Condition
  {
    Condition(InvalidSpecError, MissingNamespace(o.name, o.GvkString()))
  }

  /** The InvalidSpecError conditions, in pair order. */
  function InvalidSpecConditions(ctx: Context, rs: seq<Reconciled>): seq<Condition>
  {
    if rs == [] then []
    else
      var last := rs[|rs| - 1];
      InvalidSpecConditions(ctx, rs[..|rs| - 1])
        + (if NamespaceMissing(ctx, last) then [MissingNamespaceCondition(ObjOf(last).value)] else [])
  }

  predicate AnyFlips(ctx: Context, rs: seq<Reconciled>)
  {
    exists i :: 0 <= i < |rs| && Present(rs[i]) && Flips(ctx, rs[i])
  }

  /** The application's sync status. */
  function AggregateVerdict(ctx: Context, rs: seq<Reconciled>): SyncStatusCode
  {
    if ctx.failedToLoadObjs then Unknown
    else if ctx.changedManagedNamespaceMetadata then OutOfSync
    else if AnyFlips(ctx, rs) then OutOfSync
    else Synced
  }

  lemma AnyFlipsStep(ctx: Context, rs: seq<Reconciled>, i: nat)
    requires i < |rs|
    ensures AnyFlips(ctx, rs[..i + 1]) <==> AnyFlips(ctx, rs[..i]) || (Present(rs[i]) && Flips(ctx, rs[i]))
  {
    var next := rs[..i + 1];
    if AnyFlips(ctx, next) {
      var j :| 0 <= j < |next| && Present(next[j]) && Flips(ctx, next[j]);
      if j < i {
        assert rs[..i][j] == next[j];
      }
    }
    if AnyFlips(ctx, rs[..i]) {
      var j :| 0 <= j < i && Present(rs[..i][j]) && Flips(ctx, rs[..i][j]);
      assert next[j] == rs[..i][j];
    }
    if Present(rs[i]) && Flips(ctx, rs[i]) {
      assert next[i] == rs[i];
    }
  }

  lemma InvalidSpecStep(ctx: Context, rs: seq<Reconciled>, i: nat)
    requires i < |rs|
    ensures InvalidSpecConditions(ctx, rs[..i + 1])
            == InvalidSpecConditions(ctx, rs[..i])
               + (if NamespaceMissing(ctx, rs[i]) then [MissingNamespaceCondition(ObjOf(rs[i]).value)] else [])
  {
    assert rs[..i + 1][..i] == rs[..i];
  }

  /**
   * One iteration of the classification loop, for a pair with at least one side:
   * its summary, its managed record, whether it turns the application
   * OutOfSync, and whether it lacks a namespace its kind needs.
   */
  method ClassifyPair(ctx: Context, r: Reconciled)
    returns (summary: ResourceStatus, record: ManagedResource, flipsApp: bool, namespaceMissing: bool)
    requires Present(r)
    ensures summary == Summary(ctx, r)
    ensures record == Managed(ctx, r)
    ensures flipsApp == Flips(ctx, r)
    ensures namespaceMissing == NamespaceMissing(ctx, r)
  {
    var target := r.target;
    var live := r.live;
    var o := if live.Some? then live.value else target.value;
    var selfReferenced := IsSelfReferenced(live, target, ctx.app.name, ctx.trackingMethod, ctx.oracles.appInstanceOf);
    var hook := ctx.oracles.isHook(o);
    var status := NoStatus;
    flipsApp := false;
    var isManagedNs := IsManagedNamespace(target, ctx.app) && live.None?;
    if hook || ctx.oracles.ignored(o) || (target.Some? && ctx.oracles.skipped(target.value)) || !selfReferenced {
    } else if !isManagedNs && (r.diff.modified || target.None? || live.None?) {
      status := OutOfSync;
      var needsPruning := target.None? && live.Some?;
      if !needsPruning || !ctx.oracles.ignoreExtraneous(o) {
        flipsApp := true;
      }
    } else {
      status := Synced;
    }
    var answer := ctx.oracles.scope(o.GroupKindOf());
    var isNamespaced := answer.isNamespaced;
    if !ctx.oracles.permitted(o.GroupKindOf(), isNamespaced && !answer.failed) {
      status := Unknown;
    }
    namespaceMissing := isNamespaced && o.namespace == "";
    if ctx.failedToLoadObjs {
      status := Unknown;
    }
    var resourceVersion := if live.Some? then live.value.resourceVersion else "";
    record := ManagedResource(o.name, o.namespace, o.group, o.kind, o.version, live, target, r.diff,
                              hook, resourceVersion);
    summary := ResourceStatus(o.namespace, o.name, o.kind, o.version, o.group, hook,
                              target.None? && live.Some? && selfReferenced,
                              (target.Some? && ctx.oracles.deleteRequiresConfirm(target.value))
                                || (live.Some? && ctx.oracles.deleteRequiresConfirm(live.value)),
                              if target.Some? then ctx.oracles.syncWave(target.value) else 0,
                              status);
  }

  /** The loop body at index i, stated against the per-index definitions. */
  method ClassifyAt(ctx: Context, rs: seq<Reconciled>, i: nat)
    returns (present: bool, summary: ResourceStatus, record: ManagedResource, flipsApp: bool, namespaceMissing: bool)
    requires i < |rs|
    ensures present == Present(rs[i])
    ensures summary == SummaryAt(ctx, rs, i)
    ensures record == ManagedAt(ctx, rs, i)
    ensures flipsApp == (Present(rs[i]) && Flips(ctx, rs[i]))
    ensures namespaceMissing == NamespaceMissing(ctx, rs[i])
  {
    present := rs[i].live.Some? || rs[i].target.Some?;
    if present {
      summary, record, flipsApp, namespaceMissing := ClassifyPair(ctx, rs[i]);
    } else {
      summary, record, flipsApp, namespaceMissing := ZeroStatus, ZeroManaged, false, false;
    }
  }

  /** The per-index summaries and records, named so that the loop can refer to them. */
  ghost method Expected(ctx: Context, rs: seq<Reconciled>) returns (summaries: seq<ResourceStatus>, records: seq<ManagedResource>)
    ensures |summaries| == |rs| && |records| == |rs|
    ensures forall j {:trigger SummaryAt(ctx, rs, j)} :: 0 <= j < |rs| ==> summaries[j] == SummaryAt(ctx, rs, j)
    ensures forall j {:trigger ManagedAt(ctx, rs, j)} :: 0 <= j < |rs| ==> records[j] == ManagedAt(ctx, rs, j)
  {
    summaries := seq(|rs|, j requires 0 <= j < |rs| => SummaryAt(ctx, rs, j));
    records := seq(|rs|, j requires 0 <= j < |rs| => ManagedAt(ctx, rs, j));
  }

  /**
   * The classification loop over the reconciled records (see Align for how the
   * diff results are matched to the pairs): every record's summary and managed
   * record at its own index, the missing-namespace conditions, and the
   * aggregate verdict.
   */
  method CompareResources(ctx: Context, rs: seq<Reconciled>)
    returns (syncCode: SyncStatusCode, managedResources: seq<ManagedResource>,
             resourceSummaries: seq<ResourceStatus>, conditions: seq<Condition>)
    ensures |managedResources| == |rs| && |resourceSummaries| == |rs|
    ensures forall i :: 0 <= i < |rs| ==> resourceSummaries[i] == SummaryAt(ctx, rs, i)
    ensures forall i :: 0 <= i < |rs| ==> managedResources[i] == ManagedAt(ctx, rs, i)
    ensures conditions == InvalidSpecConditions(ctx, rs)
    ensures syncCode == AggregateVerdict(ctx, rs)
  {
    ghost var wantSummaries, wantManaged := Expected(ctx, rs);
    var managed := new ManagedResource[|rs|](_ => ZeroManaged);
    var summaries := new ResourceStatus[|rs|](_ => ZeroStatus);
    var code := Synced;
    conditions := [];
    for i := 0 to |rs|
      invariant forall j {:trigger summaries[j]} :: 0 <= j < i ==> summaries[j] == wantSummaries[j]
      invariant forall j {:trigger managed[j]} :: 0 <= j < i ==> managed[j] == wantManaged[j]
      invariant conditions == InvalidSpecConditions(ctx, rs[..i])
      invariant code == (if AnyFlips(ctx, rs[..i]) then OutOfSync else Synced)
    {
      AnyFlipsStep(ctx, rs, i);
      InvalidSpecStep(ctx, rs, i);
      var present, summary, record, flipsApp, namespaceMissing := ClassifyAt(ctx, rs, i);
      // a pair with neither side is skipped and its slots keep their zero values
      if present {
        if flipsApp {
          code := OutOfSync;
        }
        if namespaceMissing {
          conditions := conditions + [MissingNamespaceCondition(ObjOf(rs[i]).value)];
        }
        managed[i] := record;
        summaries[i] := summary;
      } else {
        managed[i] := ZeroManaged;
        summaries[i] := ZeroStatus;
      }
      assert summary == wantSummaries[i] && record == wantManaged[i];
    }
    assert rs[..|rs|] == rs;
    if ctx.failedToLoadObjs {
      code := Unknown;
    } else if ctx.changedManagedNamespaceMetadata {
      code := OutOfSync;
    }
    syncCode := code;
    managedResources := managed[..];
    resourceSummaries := summaries[..];
  }

  /** What the diff step leaves for the loop: the results, the load-failure flag, and its condition. */
  datatype DiffStep = DiffStep(diffs: seq<DiffResult>, failedToLoadObjs: bool, conditions: seq<Condition>)

  /** A failed diff leaves no results, marks the objects as not loaded and reports a ComparisonError. */
  function AfterStateDiffs(result: Result<seq<DiffResult>, string>, failedBefore: bool): (step: DiffStep)
    ensures result.Success? ==> step.diffs == result.value && step.failedToLoadObjs == failedBefore && step.conditions == []
    ensures result.Failure? ==> step.diffs == [] && step.failedToLoadObjs
                                && step.conditions == [Condition(ComparisonError, DiffFailed(result.error))]
  {
    match result
    case Success(diffs) => DiffStep(diffs, failedBefore, [])
    case Failure(err) => DiffStep([], true, [Condition(ComparisonError, DiffFailed(err))])
  }

  /**
   * After a failed diff every pair is judged by the unmodified placeholder,
   * every resource is Unknown and so is the application.
   */
  lemma DiffFailureMakesEverythingUnknown(ctx: Context, pairs: seq<ReconciledPair>, failedBefore: bool, err: string)
    requires ctx.failedToLoadObjs == AfterStateDiffs(Failure(err), failedBefore).failedToLoadObjs
    ensures forall i :: 0 <= i < |pairs| ==> Align(pairs, AfterStateDiffs(Failure(err), failedBefore).diffs)[i].diff == NoDiff
    ensures forall i :: 0 <= i < |pairs| && Present(Align(pairs, [])[i]) ==> SummaryAt(ctx, Align(pairs, []), i).status == Unknown
    ensures AggregateVerdict(ctx, Align(pairs, [])) == Unknown
  {
  }

  /**
   * The per-resource status: Unknown when the objects failed to load or the
   * project does not permit the kind; otherwise no status for excluded
   * resources, OutOfSync when the sides differ or one is missing (except a
   * managed namespace that does not exist yet), and Synced otherwise.
   */
  lemma StatusCases(ctx: Context, r: Reconciled)
    requires Present(r)
    ensures ctx.failedToLoadObjs ==> StatusOf(ctx, r) == Unknown
    ensures !Permitted(ctx, ObjOf(r).value) ==> StatusOf(ctx, r) == Unknown
    ensures !ctx.failedToLoadObjs && Permitted(ctx, ObjOf(r).value) ==>
              && (StatusOf(ctx, r) == NoStatus <==> Excluded(ctx, r))
              && (StatusOf(ctx, r) == OutOfSync <==> !Excluded(ctx, r) && Differs(r) && !ManagedNsPlaceholder(ctx, r))
              && (StatusOf(ctx, r) == Synced <==> !Excluded(ctx, r) && (!Differs(r) || ManagedNsPlaceholder(ctx, r)))
  {
  }

  /** A managed namespace declared but not yet live is Synced and never pruned. */
  lemma ManagedNamespacePlaceholderIsSynced(ctx: Context, ns: Obj, diff: DiffResult)
    requires IsManagedNamespace(Some(ns), ctx.app)
    requires !ctx.failedToLoadObjs && Permitted(ctx, ns)
    requires !ctx.oracles.isHook(ns) && !ctx.oracles.ignored(ns) && !ctx.oracles.skipped(ns)
    ensures StatusOf(ctx, Reconciled(Some(ns), None, diff)) == Synced
    ensures !Flips(ctx, Reconciled(Some(ns), None, diff))
    ensures !Summary(ctx, Reconciled(Some(ns), None, diff)).requiresPruning
  {
  }

  /**
   * An object the application does not own gets no status, does not count
   * against the application and is not a pruning candidate.
   */
  lemma UnownedResourceIsIgnored(ctx: Context, r: Reconciled)
    requires Present(r) && !SelfReferenced(ctx, r)
    ensures BaseStatus(ctx, r) == NoStatus
    ensures !Flips(ctx, r)
    ensures !Summary(ctx, r).requiresPruning
  {
  }

  /**
   * An owned extraneous resource is shown OutOfSync and requires pruning; it
   * turns the application OutOfSync exactly when it lacks IgnoreExtraneous.
   */
  lemma ExtraneousResource(ctx: Context, live: Obj, diff: DiffResult)
    requires !Excluded(ctx, Reconciled(None, Some(live), diff))
    ensures BaseStatus(ctx, Reconciled(None, Some(live), diff)) == OutOfSync
    ensures Summary(ctx, Reconciled(None, Some(live), diff)).requiresPruning
    ensures Flips(ctx, Reconciled(None, Some(live), diff)) <==> !ctx.oracles.ignoreExtraneous(live)
  {
  }

  /** Hooks, ignored, skipped and foreign resources never turn the application OutOfSync. */
  lemma ExcludedNeverFlips(ctx: Context, r: Reconciled)
    requires Present(r) && Excluded(ctx, r)
    ensures !Flips(ctx, r)
  {
  }

  /**
   * A scope lookup that errors but still reports "namespaced" makes the
   * project check see a cluster-scoped kind, while the missing-namespace check
   * still sees a namespaced one.
   */
  lemma LookupErrorSplitsChecks(ctx: Context, r: Reconciled)
    requires Present(r)
    requires ctx.oracles.scope(ObjOf(r).value.GroupKindOf()) == NamespacedAnswer(true, true)
    ensures Permitted(ctx, ObjOf(r).value) <==> ctx.oracles.permitted(ObjOf(r).value.GroupKindOf(), false)
    ensures NamespaceMissing(ctx, r) <==> ObjOf(r).value.namespace == ""
  {
  }

  /** When the objects failed to load every resource and the application are Unknown. */
  lemma FailedLoadForcesUnknown(ctx: Context, rs: seq<Reconciled>)
    requires ctx.failedToLoadObjs
    ensures AggregateVerdict(ctx, rs) == Unknown
    ensures forall i :: 0 <= i < |rs| && Present(rs[i]) ==> SummaryAt(ctx, rs, i).status == Unknown
  {
  }

  /**
   * The verdict is never the empty code; with the objects loaded it is
   * OutOfSync exactly when the managed-namespace metadata changed or some
   * resource turns the application OutOfSync, and Synced otherwise.
   */
  lemma VerdictCases(ctx: Context, rs: seq<Reconciled>)
    ensures AggregateVerdict(ctx, rs) != NoStatus
    ensures !ctx.failedToLoadObjs ==>
              (AggregateVerdict(ctx, rs) == OutOfSync <==>
                 ctx.changedManagedNamespaceMetadata || exists i :: 0 <= i < |rs| && Present(rs[i]) && Flips(ctx, rs[i]))
    ensures !ctx.failedToLoadObjs ==>
              (AggregateVerdict(ctx, rs) == Synced <==>
                 !ctx.changedManagedNamespaceMetadata && forall i :: 0 <= i < |rs| && Present(rs[i]) ==> !Flips(ctx, rs[i]))
  {
  }

  /**
   * Hooks, ignored, skipped and foreign resources, excused extraneous ones and
   * anything else that does not turn the application OutOfSync can be inserted
   * anywhere without changing the verdict.
   */
  lemma NonFlippingResourceKeepsVerdict(ctx: Context, rs: seq<Reconciled>, k: nat, r: Reconciled)
    requires k <= |rs|
    requires !Present(r) || !Flips(ctx, r)
    ensures AggregateVerdict(ctx, rs[..k] + [r] + rs[k..]) == AggregateVerdict(ctx, rs)
  {
    var ext := rs[..k] + [r] + rs[k..];
    if AnyFlips(ctx, ext) {
      var j :| 0 <= j < |ext| && Present(ext[j]) && Flips(ctx, ext[j]);
      if j < k {
        assert ext[j] == rs[j];
      } else {
        assert j != k;
        assert ext[j] == rs[j - 1];
      }
    }
    if AnyFlips(ctx, rs) {
      var j :| 0 <= j < |rs| && Present(rs[j]) && Flips(ctx, rs[j]);
      if j < k {
        assert ext[j] == rs[j];
      } else {
        assert ext[j + 1] == rs[j];
      }
    }
  }

  /** The verdict depends on the resources, not on their order. */
  lemma VerdictIgnoresOrder(ctx: Context, a: seq<Reconciled>, b: seq<Reconciled>)
    requires multiset(a) == multiset(b)
    ensures AggregateVerdict(ctx, a) == AggregateVerdict(ctx, b)
  {
    if AnyFlips(ctx, a) {
      var i :| 0 <= i < |a| && Present(a[i]) && Flips(ctx, a[i]);
      assert a[i] in multiset(b);
      var j :| 0 <= j < |b| && b[j] == a[i];
    }
    if AnyFlips(ctx, b) {
      var i :| 0 <= i < |b| && Present(b[i]) && Flips(ctx, b[i]);
      assert b[i] in multiset(a);
      var j :| 0 <= j < |a| && a[j] == b[i];
    }
  }

  /**
   * Project permissions only change the per-resource status: a resource of a
   * kind the project does not permit still decides the application's verdict.
   */
  lemma VerdictIgnoresPermissions(ctx: Context, rs: seq<Reconciled>, permitted: (GroupKind, bool) -> bool)
    ensures AggregateVerdict(ctx.(oracles := ctx.oracles.(permitted := permitted)), rs) == AggregateVerdict(ctx, rs)
  {
    var other := ctx.(oracles := ctx.oracles.(permitted := permitted));
    forall i | 0 <= i < |rs| && Present(rs[i])
      ensures Flips(other, rs[i]) == Flips(ctx, rs[i])
    {
    }
  }

  /** Once OutOfSync, more resources cannot bring the application back to Synced. */
  lemma OutOfSyncPersists(ctx: Context, rs: seq<Reconciled>, more: seq<Reconciled>)
    requires AggregateVerdict(ctx, rs) == OutOfSync
    ensures AggregateVerdict(ctx, rs + more) == OutOfSync
  {
    if AnyFlips(ctx, rs) {
      var i :| 0 <= i < |rs| && Present(rs[i]) && Flips(ctx, rs[i]);
      assert (rs + more)[i] == rs[i];
    }
  }
}
