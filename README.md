# Argo CD application-state comparison: a verified model

This project models the decision logic of Argo CD's application-state
comparison engine, `controller/state.go`. The engine takes an application and
its declared sources. It gets the desired objects from the repo server and
normalises them. It pairs them with the live objects in the cluster, judges
every resource, and folds the results into the application's sync status.
Around that pipeline sit small, self-contained rules. The model states and
proves each one in Dafny:

- **Target-object normalisation** (`normalize.dfy`). Deduplication by
  resource key: namespaces are set by scope, generated names are keyed by
  input index, the last object per key is kept, and a warning is raised per
  repeated key. Cluster-scoped objects that carry a namespace are corrected
  in place on an array. Excluded kinds are filtered out.
- **Ownership** (`ownership.dfy`). Both `isSelfReferencedObj` functions: does a
  live object's tracking id really name this application's object?
- **Signature gate** (`signature.dfy`). `verifyGnuPGSignature` and the loop
  over manifest responses that applies it.
- **Diff configuration** (`diffcache.dfy`). The server-side-diff switch, the
  resolved manifest revisions, the `useDiffCache` guard chain, and the
  revisions recorded in the sync status.
- **Sync classifier** (`classify.dfy`). The resource loop of `CompareAppState`,
  proved against per-resource specification functions. It covers
  pruning, deletion confirmation, the IgnoreExtraneous excuse, the permission
  and load-failure overrides, the managed-namespace exception, the
  missing-namespace conditions and the aggregate verdict. It also covers the
  fallback when the diff step fails.
- **Repo-error grace period** (`graceperiod.dfy`). A class whose map field is
  the per-application record of a repo server's first failure, on an integer
  clock.
- **Desired-state acquisition** (`acquire.dfy`). `GetRepoObjs` per source:
  revision defaulting, the path-scoped change check, the chart and registry
  repository lists, rendering, decoding, and the errors with their source
  numbers.

Shared data lives in `wrappers.dfy` (Option, Result), `resources.dfy` (objects,
resource keys, scope lookups, the application fields read, sources and
manifest responses) and `conditions.dfy`. `conditions.dfy` keeps condition
messages structured and renders them to the exact texts the engine formats.

The model's collaborators are function-valued inputs:

- the cluster's scope lookups (the resource-info provider, and the live cache's namespaced answer with its error flag), hook detection, the ignore and skip
  annotations, and the annotation-option helpers;
- the project's group-kind permission and the tracking-id reader;
- the GnuPG parser and key-id normaliser;
- the repository lookup, the repo server's change check and renderer, and
  manifest decoding.

The reconciliation step's output is a plain input: a sequence of
(target?, live?) pairs. `Classify.Align` attaches each pair's diff result.
Time is an integer clock.

Two details follow the code's order of evaluation exactly:

- The managed-namespace exception of the classifier applies only to a target
  that is the managed namespace and has no live object (state.go:884), not
  to a managed namespace that already exists live.
- The permission and load-failure overrides also apply to hooks and skipped
  resources (state.go:906-919). Such resources keep "no status" only when
  the kind is permitted and the objects loaded.

## Model

| member | source | states |
|---|---|---|
| Normalize.DeduplicateTargetObjects | controller/state.go:397-435 | The output objects are exactly the last normalised input of every key present, one per distinct key, in an unspecified order. A key occurring more than once gets exactly one RepeatedResourceWarning with its occurrence count. A key occurring once gets none, and there are no other conditions. |
| Normalize.DedupKeepsLastOfEveryKey | controller/state.go:421-432 | In whatever order the groups are visited, an object is output iff it is the last normalised input of some key present. |
| Normalize.DedupWarningCounts | controller/state.go:421-429 | In whatever order the groups are visited, each key gets one warning if it occurs more than once and none otherwise. Every warning carries its key's occurrence count. |
| Normalize.DedupWarnsEveryRepeat | controller/state.go:421-429 | Every key occurring more than once is named, with its count, by a warning. |
| Normalize.GroupByKey | controller/state.go:402-420 | The map has exactly the keys some input carries. Each key maps to the normalised inputs with that key, in input order. |
| Normalize.EmitGroups | controller/state.go:421-432 | Every group is visited once, in some order of distinct keys. The last object of each group is emitted, plus a warning with the group's size for each group of more than one. |
| Normalize.GroupWarningsAreRepeatWarnings | controller/state.go:421-429 | With groups built from the inputs, the warnings of the second loop equal the reference warnings defined on the inputs. |
| Normalize.MatchingMembers | controller/state.go:404-420 | An object is grouped under key k iff it is the scope-normalised form of a non-nil input whose key is k. Nil inputs are therefore dropped. |
| Normalize.KeyPresentIff | controller/state.go:404-420 | A key has a group iff some input index carries that key. |
| Normalize.KeepsLast | controller/state.go:420-431 | The object kept for a key is the normalised input at the last index with that key. |
| Normalize.CountIsOccurrences | controller/state.go:420-423 | A group's size is the number of input indices with that key, which is the count printed in the warning. |
| Normalize.WarningsExactlyForRepeats | controller/state.go:421-429 | A key gets exactly one warning if it occurs more than once, and none otherwise. Every warning is a RepeatedResourceWarning that carries its key and that key's occurrence count. |
| Normalize.NamedObjectsKeepResourceKey | controller/state.go:414-417 | An object with a name, or with no generateName, is keyed by its own resource key after namespace normalisation. |
| Normalize.GeneratedNamesNeverCollide | controller/state.go:415-417 | Two unnamed inputs with the same generateName at different indices get different keys and are never merged. |
| Normalize.StubProviderClearsNamespaces | controller/state.go:52-56 | With the stub provider, used at state.go:640-644 when the cluster cache cannot be reached, every kept object has an empty namespace. |
| Normalize.KeptObjectsAreScoped | controller/state.go:408-413 | Every kept object comes from an input. A cluster-scoped one has namespace "". A namespaced or unknown one has a non-empty namespace, unless the destination namespace itself is empty. |
| Normalize.NormalizeClusterScopeTracking | controller/state.go:440-458 | The array is walked from last to first. Objects that are not mis-scoped are left untouched. Without an error, every mis-scoped object has its namespace cleared and tracking re-applied. The first callback error aborts with that error's message naming the object. At that point the failing object is cleared, the higher indices are corrected and the lower ones are untouched. An error occurs iff some callback fails. |
| Normalize.SecondPassChangesNothing | controller/state.go:446-454 | An object corrected without error needs no further correction. A second pass leaves it as it is. |
| Resources.ManagedNamespaceRule | controller/state.go:525-527 | A nil object is never the managed namespace, and without managed-namespace metadata no object is. With that metadata, an object is the managed namespace iff its kind is Namespace and its name is the destination namespace. Its group, namespace and metadata play no part. |
| Normalize.KeptExactly | controller/state.go:661-671 | An object survives the exclusion filter iff it is in the input and its group and kind are not excluded. |
| Normalize.FilterExcludedResources | controller/state.go:661-679 | The result is the non-excluded inputs in order. The conditions hold one exclusion warning per excluded object, from the last to the first. targetNsExists holds iff some input (excluded or not) is the managed namespace. |
| Ownership.IsSelfReferenced | controller/state.go:1150-1199 | A missing live object, or label tracking, is owned. Given a desired object, the live object is owned iff name, group and kind equal the desired object's and its namespace is the desired one or empty. Otherwise it is owned iff no tracking id is recorded on it, or the recorded id matches in the same way. |
| Ownership.CopiedTrackingIdIsRejected | controller/state.go:1183-1199 | A tracking id recorded on an object with a different name does not make that object the application's. |
| Ownership.DesiredObjectOverridesRecordedId | controller/state.go:1161-1175 | When a desired object exists, its group decides: a live object of another group is not owned. |
| Signature.SignatureConditions | controller/state.go:488-523 | There is at most one condition, always a ComparisonError. There is none iff the result is non-empty, parses as Good, and a declared key with a non-empty normalised id equals the signer's. Each other case gives its own message: not signed, untrusted key, invalid, or could not verify. |
| Signature.VerifyGnuPGSignature | controller/state.go:488-523 | The method with its key-search loop returns exactly the conditions of the gate. |
| Signature.VerifyManifestSignatures | controller/state.go:965-969 | The loop over the manifest responses appends, for each present response when GnuPG is enabled and keys are declared, the gate's conditions for its resolved revision. |
| Signature.NoKeysNoConditions | controller/state.go:566 | Without declared keys, or with GnuPG disabled, no signature condition is raised. |
| Signature.OneConditionPerRejectedResponse | controller/state.go:965-969 | When verification is required, there are exactly as many conditions as present responses failing the gate. |
| Signature.UnsignedRevisionReported | controller/state.go:515-518 | An empty verification result yields one ComparisonError whose text contains the revision and "not signed". |
| Conditions.NatToString | controller/state.go:423 | A count prints as a non-empty string of decimal digits with no leading zero. |
| Conditions.DecimalRoundTrip | controller/state.go:423 | Reading the printed count back gives the count. |
| Conditions.CountTextInjective | controller/state.go:415 | Distinct counts, and so distinct input indices in generated names, print differently. |
| Conditions.RenderNamesItsSubject | controller/state.go:423-913 | The rendered texts of the message formats at state.go:423, 452, 505-518, 668, 834 and 913 name what they are about: the excluded or mis-scoped object, the untrusted or invalid key and its detail, the unverifiable revision, the object lacking a namespace with its kind, and the diff error's cause. |
| Conditions.NotSignedMessageNamesRevision | controller/state.go:516 | The unsigned-revision message contains the revision and "not signed". |
| Conditions.RepeatedMessageNamesKeyAndCount | controller/state.go:423 | The repeated-resource message contains the key's text and the printed count. |
| DiffCache.ServerSideDiffEnabled | controller/state.go:777-784 | Server-side diff is on iff the controller flag or "ServerSideDiff=true" is set and "ServerSideDiff=false" is not. |
| DiffCache.CollectManifestRevisions | controller/state.go:771-775 | There is one revision per manifest response, in order, each the response's resolved revision. |
| DiffCache.UseDiffCache | controller/state.go:1007-1054 | The cache is used iff all of these hold: no noCache; no refresh requested; the status is not expired or server-side diff is on; as many responses as sources; the stored revisions equal the resolved ones; the recorded comparison snapshot equals the current one. |
| DiffCache.ServerSideDiffOnlyRelaxesExpiry | controller/state.go:1017-1025 | Turning server-side diff on never stops the cache from being used. With an unexpired status it makes no difference. |
| DiffCache.InitialSyncRevisions | controller/state.go:544-556 | Multi-source: all requested revisions are recorded. Single source: the first, or nothing. |
| DiffCache.ResolvedSyncRevisions | controller/state.go:948-953 | After rendering, multi-source records all resolved revisions. Single source records the first resolved one, if any, and otherwise keeps the initial record. |
| DiffCache.SingleSourceRecordsResolvedRevision | controller/state.go:948-953 | A single-source comparison whose response resolved rev records rev, whatever was requested. |
| Classify.Align | controller/state.go:840-875 | There is one record per reconciled pair with the same sides. It carries the diff at the same index, or the unmodified placeholder when the diff list is shorter. |
| Classify.ClassifyPair | controller/state.go:843-937 | For a pair with an object, the switch and overrides produce exactly the specified summary, record, "turns the app OutOfSync" flag and missing-namespace flag. |
| Classify.ClassifyAt | controller/state.go:842-937 | One loop iteration: a pair with neither side is skipped, leaving the zero values. Any other pair is classified as by the specification. |
| Classify.CompareResources | controller/state.go:839-946 | The summaries and records have one entry per pair, each equal to the per-resource specification. The conditions are the missing-namespace errors in pair order. The sync code is the aggregate verdict. |
| Classify.AfterStateDiffs | controller/state.go:830-836 | A successful diff passes its results on unchanged. A failed one leaves none, marks the objects not loaded and raises one ComparisonError with the cause. |
| Classify.DiffFailureMakesEverythingUnknown | controller/state.go:830-836 | After a failed diff every pair is judged by the placeholder, every resource is Unknown, and so is the application. |
| Classify.StatusCases | controller/state.go:886-919 | A load failure or a non-permitted kind gives Unknown. Otherwise a resource has no status iff excluded (hook, ignored, skipped or not owned). It is OutOfSync iff not excluded, the sides differ or one is missing, and it is not the managed-namespace placeholder. It is Synced in the remaining cases. |
| Classify.ManagedNamespacePlaceholderIsSynced | controller/state.go:877-905 | A declared managed namespace with no live object is Synced, does not turn the app OutOfSync and is not marked for pruning. |
| Classify.UnownedResourceIsIgnored | controller/state.go:862-891 | An object the application does not own gets no status, does not turn the app OutOfSync and is not marked for pruning. |
| Classify.ExtraneousResource | controller/state.go:892-902 | Whatever its diff, an owned live-only resource that is not a hook, ignored or skipped has base status OutOfSync (before the permission and load overrides) and requires pruning. It turns the app OutOfSync iff it lacks IgnoreExtraneous. |
| Classify.ExcludedNeverFlips | controller/state.go:886-891 | A hook, ignored, skipped or foreign resource never turns the app OutOfSync. |
| Classify.LookupErrorSplitsChecks | controller/state.go:907-914 | When the namespaced lookup errors but still answers true, the project check is asked about a cluster-scoped kind, while the missing-namespace condition still fires for an object without a namespace. |
| Classify.FailedLoadForcesUnknown | controller/state.go:916-941 | When the objects failed to load, every resource and the application are Unknown. |
| Classify.VerdictCases | controller/state.go:939-944 | The verdict is never empty. With the objects loaded it is OutOfSync iff the managed-namespace metadata changed or some resource turns the app OutOfSync, and Synced otherwise. |
| Classify.NonFlippingResourceKeepsVerdict | controller/state.go:886-905 | Inserting anywhere a resource that does not turn the app OutOfSync leaves the verdict unchanged. Such resources include hooks, ignored, skipped, foreign and excused extraneous ones. |
| Classify.VerdictIgnoresOrder | controller/state.go:839-944 | Any permutation of the reconciled records gives the same verdict. |
| Classify.VerdictIgnoresPermissions | controller/state.go:906-910 | The permission override changes resource statuses only, never the aggregate verdict. |
| Classify.OutOfSyncPersists | controller/state.go:901 | Once the verdict is OutOfSync, further resources never undo it. |
| GracePeriod.Step | controller/state.go:598-617 | Success forgets the record and loads. A failure with the revision cache bypassed degrades and records nothing. A first failure is recorded at now and hidden. A later failure is hidden iff within the grace period of the record, which is left unchanged, and degrades otherwise. Other applications' records are untouched. |
| GracePeriod.RecordedWindow | controller/state.go:602-608 | With a record at t0, each failure of a failing run is hidden exactly while its clock is within the grace period of t0. |
| GracePeriod.SuppressionWindow | controller/state.go:602-613 | From no record, the first failure is hidden. Each later failure is hidden exactly while within the grace period of the first failure. |
| GracePeriod.OnceDegradedStaysDegraded | controller/state.go:602-614 | With a nondecreasing clock, once a failure is no longer hidden, no later failure of the run is. |
| GracePeriod.DegradedOrHidden | controller/state.go:598-614 | A failure is either hidden or degrades the comparison; it is never reported as loaded. |
| GracePeriod.RepoErrorCache.constructor | controller/state.go:1106-1142 | The manager starts with the configured grace period and no records. |
| GracePeriod.RepoErrorCache.OnTargetState | controller/state.go:598-617 | The outcome and the new record map are those of the step function on the old map. |
| Acquire.RevisionsToRender | controller/state.go:230-233 | This is the corrected defaulting. With fewer revisions than sources, every source renders its declared revision. Otherwise an empty entry falls back to the declared one. |
| Acquire.RenderedRevisionsCoverSources | controller/state.go:230-233 | Every source gets a revision. It is empty only when the source declares none and none was requested. |
| Acquire.DefaultRevisionsAsWritten | controller/state.go:230-233 | The defaulting statements as written, taken alone, panic iff there are fewer revisions than sources. Otherwise they rewrite the caller's array to the corrected defaulting. |
| Acquire.RevisionPanicExample | controller/state.go:230-233 | One source and no revisions make the loop as written panic. |
| Acquire.RequestedRevisions | controller/state.go:588-595 | A revision list whose length differs from the sources' is replaced by the declared revisions. Otherwise it is kept. |
| Acquire.NormalizedRevisionsAgree | controller/state.go:588-597 | After that normalisation the loop as written cannot panic, and it agrees with the corrected defaulting. |
| Acquire.SyncedRevision | controller/state.go:239-246 | A single source compares against the status revision. Source i of a multi-source app compares against the i-th recorded revision, or "" past the end. |
| Acquire.PathCheck | controller/state.go:256-274 | The change check runs iff the source is plain Git, was synced before and has a non-empty manifest-generate-paths annotation. It is asked about the requested and synced revisions. |
| Acquire.RenderRevision | controller/state.go:248-285 | The renderer gets the revision the change check resolved, when it resolved a non-empty one, and the requested revision otherwise. |
| Acquire.ReposFor | controller/state.go:291-301 | A registry source is offered the chart repositories (or credentials) followed by the registry ones. Any other source gets the chart ones alone. The permitted lists are values and stay unchanged. |
| Acquire.SourceStep | controller/state.go:234-338 | One source succeeds only if the repository lookup and any applicable change check succeeded. Per-source errors carry the one-based source number and the source count. The source may have changes iff the check did not apply or reported changes. |
| Acquire.ParseAllSuccess | controller/state.go:385-395 | Successful decoding yields one object per manifest, in order. |
| Acquire.ParseAllFailure | controller/state.go:385-395 | A failed decoding reports the error of some manifest. |
| Acquire.ParseAllFailurePersists | controller/state.go:388-392 | Decoding stops at the first error, and later manifests do not change it. |
| Acquire.UnmarshalManifests | controller/state.go:385-395 | The loop returns exactly the decoding of all manifests, or the first error. |
| Acquire.AcquireFailurePersists | controller/state.go:230-339 | The first failing source ends acquisition, and later sources do not change the error. |
| Acquire.AcquireFailure | controller/state.go:230-339 | A failed acquisition reports the error of some source's step. |
| Acquire.AcquireSuccessInfos | controller/state.go:338 | A successful acquisition has one manifest response per source, in order. |
| Acquire.AcquireSuccessMayHaveChanges | controller/state.go:226-289 | The revisions may have changed iff some source skipped the change check or was reported changed. |
| Acquire.AcquireSuccessObjs | controller/state.go:337 | The desired objects are the sources' decoded objects concatenated in source order. |
| Acquire.AcquireSource | controller/state.go:234-338 | One iteration of the loop computes exactly the per-source step. |
| Acquire.GetRepoObjs | controller/state.go:130-350 | The source loop computes exactly the specified acquisition over all sources. |
| Acquire.ChartSourceScenario | controller/state.go:229-339 | Taken in CompareAppState's order (sync record seeded from the caller's empty revision list, then the list normalised to the declared "1.2.3" at state.go:588-595), a chart source rendering two manifests acquires those two objects, may have changes (no path check for charts), and records the resolved revision "1.2.3". |

## Left out

- I/O and collaborators: the database and settings calls, the repo server's gRPC clients, the cluster cache, `sync.Reconcile`, the diff algorithm, the GVK parser and the server-side dry-run applier are inputs or not modelled. So are logging, timing statistics and `metav1.Now` timestamps on conditions.
- Concurrency: the concurrent map behind the repo-error record is a plain map field of a class.
- YAML decoding and GnuPG parsing are opaque functions. Their outputs are datatypes.
- `CompareAppState` as a whole: only its rules are modelled. That covers the revision normalisation, grace period, excluded filter, server-side-diff switch, manifest revisions, diff-cache decision, diff-failure fallback, classification loop, verdict, resolved revisions and signature loop. The glue between them is not.
- The local-manifests branch (state.go:618-637) is not modelled: it replaces the repo-server acquisition by decoding caller-supplied manifests, refused when signature verification is on, and its decoding is the same `unmarshalManifests` that `Acquire.UnmarshalManifests` models.
- The early returns on settings and destination-cluster errors (state.go:558-575) are not modelled.
- The live-object permission filter and the shared-resource warnings (state.go:691-722) are not modelled. They depend on project cluster lookups and instance names from outside the core.
- Synthesising the managed namespace through `syncNamespace` (state.go:724-755) is not modelled: that is foreign code.
- The post-delete hook scan, health assessment, source types, `SetConditions` de-duplication and `persistRevisionHistory` are not modelled.
- Request fields that the model's renderer and change check do not take as parameters are not modelled. These include the application namespace, the runtime-state flag, kube and API versions, the tracking method, ref sources and the installation id.
- `ResolveGitRevision` and the construction of the manager beyond its grace period are not modelled.
- Normalize.DeduplicateTargetObjects: returns normalised copies. Go sets the namespace on the input objects in place, so callers holding the same pointers also see the change; that aliasing is not modelled. Its always-nil error result is omitted.
- Normalize.DeduplicateTargetObjects: the input objects are values, and nil entries are `None`.
- Acquire.DefaultRevisionsAsWritten: models the defaulting statements at state.go:231-233 on their own; in GetRepoObjs an error return of an earlier source (state.go:236, 276, 330, 335) ends the loop before the out-of-range write, so the loop as a whole panics only when every earlier source succeeds.
- Acquire.GetRepoObjs: does not write the caller's revisions. Go's defaulting at state.go:231-232 overwrites empty entries of the caller's slice in place even when it does not panic; inside `CompareAppState` that update is not observable, since state.go:950 replaces the recorded revisions.
- Normalize.NormalizeClusterScopeTracking: the tracking callback is a pure function from object to new metadata or error, so a failing call leaves the object's labels and annotations unchanged. Go's `SetAppInstance` may have written a label or annotation before it fails; that partial update is not modelled.
- Classify.CompareResources: takes the reconciled pairs already aligned with their diffs (`Classify.Align`). Pairs with neither side keep the zero values that `make` leaves in the Go slices.
- Resources.StubProvider: has no contract of its own; `Normalize.StubProviderClearsNamespaces` states its effect.
- Kubernetes object identity is reduced to the fields the rules read. The resource key carries group, kind, namespace and name, without a version.

## Findings

| source | as written | input that shows it | evidently intended | confidence | as-written member | corrected member |
|---|---|---|---|---|---|---|
| controller/state.go:230-233 | When there are fewer revisions than sources, the loop assigns `revisions[i]` for each source it reaches, past the end of the slice. That is an index-out-of-range panic, unless an earlier source has already returned an error. | sources = [one source], revisions = [] | With too few revisions, every source renders its declared revision. | not executed; low impact, since `CompareAppState` first replaces a revision list of the wrong length (state.go:588-595, `Acquire.NormalizedRevisionsAgree`) | Acquire.DefaultRevisionsAsWritten, Acquire.RevisionPanicExample | Acquire.RevisionsToRender, Acquire.RenderedRevisionsCoverSources |
