/**
 * Acquisition of the desired state from the repo server, GetRepoObjs in
 * controller/state.go: per declared source, pick the revision to render, run
 * the path-scoped change check when it applies, pick the chart repositories and
 * credentials, render, and decode the manifests. The repo server, the
 * repository lookup and manifest decoding are opaque functions.
 */
module Acquire {
  import opened Wrappers
  import opened Resources
  import opened DiffCache

  // ---------------------------------------------------------------------------
  // Revisions

  /**
   * The revision rendered for each source, as evidently intended: with fewer
   * revisions than sources every source renders its declared revision;
   * otherwise an empty entry falls back to the declared revision. Entries past
   * the last source are kept.
   */
  function RevisionsToRender(revisions: seq<string>, sources: seq<Source>): (rendered: seq<string>)
    ensures |rendered| == if |revisions| < |sources| then |sources| else |revisions|
    ensures |revisions| < |sources| ==> forall i :: 0 <= i < |sources| ==> rendered[i] == sources[i].targetRevision
    ensures |sources| <= |revisions| ==> forall i :: 0 <= i < |sources| ==>
              rendered[i] == (if revisions[i] == "" then sources[i].targetRevision else revisions[i])
    ensures forall i :: |sources| <= i < |revisions| ==> rendered[i] == revisions[i]
  {
    if |revisions| < |sources| then
      seq(|sources|, i requires 0 <= i < |sources| => sources[i].targetRevision)
    else
      seq(|revisions|, i requires 0 <= i < |revisions| =>
        if i < |sources| && revisions[i] == "" then sources[i].targetRevision else revisions[i])
  }

  /** Every source gets a revision, and it is empty only when the source declares none and none was requested. */
  lemma RenderedRevisionsCoverSources(revisions: seq<string>, sources: seq<Source>)
    ensures |RevisionsToRender(revisions, sources)| >= |sources|
    ensures forall i :: 0 <= i < |sources| && RevisionsToRender(revisions, sources)[i] == "" ==>
              sources[i].targetRevision == "" && (i >= |revisions| || |revisions| < |sources| || revisions[i] == "")
  {
  }

  /**
   * The defaulting statements of GetRepoObjs as written, taken alone: they
   * overwrite entries of the caller's revisions in place, and write past the
   * end, which panics in Go, when there are fewer revisions than sources. In
   * GetRepoObjs itself an earlier source's error return can pre-empt that write.
   */
  method DefaultRevisionsAsWritten(revisions: array<string>, sources: seq<Source>) returns (panicked: bool)
    modifies revisions
    ensures panicked <==> revisions.Length < |sources|
    ensures !panicked ==> revisions[..] == RevisionsToRender(old(revisions[..]), sources)
    ensures panicked ==> forall j :: 0 <= j < revisions.Length ==> revisions[j] == sources[j].targetRevision
  {
    ghost var original := revisions[..];
    var i := 0;
    while i < |sources|
      invariant 0 <= i <= |sources|
      invariant i <= revisions.Length
      invariant forall j :: 0 <= j < i ==>
                  revisions[j] == (if revisions.Length < |sources| || original[j] == "" then sources[j].targetRevision else original[j])
      invariant forall j :: i <= j < revisions.Length ==> revisions[j] == original[j]
    {
      if revisions.Length < |sources| || revisions[i] == "" {
        if i >= revisions.Length {
          // index out of range
          return true;
        }
        revisions[i] := sources[i].targetRevision;
      }
      i := i + 1;
    }
    panicked := false;
  }

  /** One source and no revisions: the defaulting loop as written panics. */
  method RevisionPanicExample() returns (panicked: bool)
    ensures panicked
  {
    var revisions := new string[0];
    panicked := DefaultRevisionsAsWritten(revisions, [Source("https://example.com/repo.git", "HEAD", false, false)]);
  }

  /**
   * CompareAppState's normalization before it calls GetRepoObjs: a revision
   * list whose length differs from the sources' is replaced by the declared
   * revisions.
   */
  function RequestedRevisions(revisions: seq<string>, sources: seq<Source>): (requested: seq<string>)
    ensures |requested| == |sources|
    ensures |revisions| == |sources| ==> requested == revisions
    ensures |revisions| != |sources| ==> forall i :: 0 <= i < |sources| ==> requested[i] == sources[i].targetRevision
  {
    if |revisions| != |sources| then seq(|sources|, i requires 0 <= i < |sources| => sources[i].targetRevision)
    else revisions
  }

  /**
   * On CompareAppState's path the as-written defaulting cannot panic, and it
   * agrees with the corrected one.
   */
  lemma NormalizedRevisionsAgree(revisions: seq<string>, sources: seq<Source>)
    ensures !(|RequestedRevisions(revisions, sources)| < |sources|)
    ensures forall i :: 0 <= i < |sources| ==>
              RevisionsToRender(RequestedRevisions(revisions, sources), sources)[i]
              == (if RequestedRevisions(revisions, sources)[i] == "" then sources[i].targetRevision
                  else RequestedRevisions(revisions, sources)[i])
  {
  }

  // ---------------------------------------------------------------------------
  // Per-source decisions

  /** The status revision a source was last synced to. */
  function SyncedRevision(syncRevision: string, syncRevisions: seq<string>, hasMultipleSources: bool, i: nat): (synced: string)
    ensures !hasMultipleSources ==> synced == syncRevision
    ensures hasMultipleSources && i < |syncRevisions| ==> synced == syncRevisions[i]
    ensures hasMultipleSources && i >= |syncRevisions| ==> synced == ""
  {
    if hasMultipleSources then (if i < |syncRevisions| then syncRevisions[i] else "") else syncRevision
  }

  /**
   * The path-scoped change check runs only for plain Git sources that were
   * synced before and carry a non-empty manifest-generate-paths annotation.
   */
  predicate PathCheckApplies(source: Source, syncedRevision: string, manifestGeneratePaths: Option<string>)
  {
    && !source.isHelm
    && !source.isOCI
    && syncedRevision != ""
    && manifestGeneratePaths.Some?
    && manifestGeneratePaths.value != ""
  }

  /**
   * Repositories (or credentials) offered to the renderer: the permitted chart
   * ones, followed for a registry source by the permitted registry ones. The
   * permitted lists themselves are values and never change.
   */
  function ReposFor<T>(source: Source, helm: seq<T>, oci: seq<T>): (offered: seq<T>)
    ensures |helm| <= |offered|
    ensures offered[..|helm|] == helm
    ensures source.isOCI ==> offered[|helm|..] == oci
    ensures !source.isOCI ==> |offered| == |helm|
  {
    if source.isOCI then helm + oci else helm
  }

  // ---------------------------------------------------------------------------
  // Decoding manifests

  /** All manifests decoded in order, or the first decoding error. */
  function ParseAll(parse: string -> Result<Obj, string>, manifests: seq<string>): Result<seq<Obj>, string>
  {
    if manifests == [] then Success([])
    else
      match ParseAll(parse, manifests[..|manifests| - 1])
      case Failure(e) => Failure(e)
      case Success(objs) =>
        match parse(manifests[|manifests| - 1])
        case Failure(e) => Failure(e)
        case Success(o) => Success(objs + [o])
  }

  /** A successful decode yields one object per manifest, each the decoding of its manifest. */
  lemma {:induction false} ParseAllSuccess(parse: string -> Result<Obj, string>, manifests: seq<string>)
    requires ParseAll(parse, manifests).Success?
    ensures |ParseAll(parse, manifests).value| == |manifests|
    ensures forall i :: 0 <= i < |manifests| ==> parse(manifests[i]) == Success(ParseAll(parse, manifests).value[i])
  {
    if manifests != [] {
      var init := manifests[..|manifests| - 1];
      ParseAllSuccess(parse, init);
      forall i | 0 <= i < |init| ensures init[i] == manifests[i] { }
    }
  }

  /** A failed decode reports the error of the first manifest that does not decode. */
  lemma {:induction false} ParseAllFailure(parse: string -> Result<Obj, string>, manifests: seq<string>)
    requires ParseAll(parse, manifests).Failure?
    ensures exists k :: 0 <= k < |manifests| && parse(manifests[k]) == Failure(ParseAll(parse, manifests).error)
                        && forall j :: 0 <= j < k ==> parse(manifests[j]).Success?
  {
    var init := manifests[..|manifests| - 1];
    var last := |manifests| - 1;
    if ParseAll(parse, init).Failure? {
      ParseAllFailure(parse, init);
      var k :| 0 <= k < |init| && parse(init[k]) == Failure(ParseAll(parse, init).error)
               && forall j :: 0 <= j < k ==> parse(init[j]).Success?;
      assert init[k] == manifests[k];
      forall j | 0 <= j < k ensures parse(manifests[j]).Success? {
        assert init[j] == manifests[j];
      }
    } else {
      ParseAllSuccess(parse, init);
      forall j | 0 <= j < last ensures parse(manifests[j]).Success? {
        assert init[j] == manifests[j];
      }
    }
  }

  lemma ParseAllPrefixFailure(parse: string -> Result<Obj, string>, manifests: seq<string>, n: nat)
    requires n < |manifests| && ParseAll(parse, manifests[..n]).Success? && parse(manifests[n]).Failure?
    ensures ParseAll(parse, manifests[..n + 1]) == Failure(parse(manifests[n]).error)
  {
    assert manifests[..n + 1][..n] == manifests[..n];
  }

  lemma {:induction false} ParseAllFailurePersists(parse: string -> Result<Obj, string>, manifests: seq<string>, n: nat, m: nat)
    requires n <= m <= |manifests| && ParseAll(parse, manifests[..n]).Failure?
    ensures ParseAll(parse, manifests[..m]) == ParseAll(parse, manifests[..n])
    decreases m - n
  {
    if m > n {
      ParseAllFailurePersists(parse, manifests, n, m - 1);
      assert manifests[..m][..m - 1] == manifests[..m - 1];
    }
  }

  /** The manifest-decoding loop: stops at the first manifest that does not decode. */
  method UnmarshalManifests(parse: string -> Result<Obj, string>, manifests: seq<string>) returns (r: Result<seq<Obj>, string>)
    ensures r == ParseAll(parse, manifests)
  {
    var targetObjs := [];
    for i := 0 to |manifests|
      invariant ParseAll(parse, manifests[..i]) == Success(targetObjs)
    {
      assert manifests[..i + 1][..i] == manifests[..i];
      var obj := parse(manifests[i]);
      if obj.Failure? {
        ParseAllPrefixFailure(parse, manifests, i);
        ParseAllFailurePersists(parse, manifests, i + 1, |manifests|);
        assert manifests[..|manifests|] == manifests;
        return Failure(obj.error);
      }
      targetObjs := targetObjs + [obj.value];
    }
    assert manifests[..|manifests|] == manifests;
    r := Success(targetObjs);
  }

  // ---------------------------------------------------------------------------
  // GetRepoObjs

  /** The repo server's answer to the path-scoped change check. */
  datatype PathsResult = PathsResult(changes: bool, revision: string)

  /** Errors of GetRepoObjs; per-source errors carry the one-based source number and the source count. */
  datatype RepoObjsError =
    | GetRepositoryFailed(repoURL: string, cause: string)
    | CompareRevisionsFailed(source: nat, total: nat, cause: string)
    | GenerateManifestFailed(source: nat, total: nat, cause: string)
    | UnmarshalFailed(source: nat, total: nat, cause: string)

  /**
   * What GetRepoObjs consults: the repository lookup, the repo server's change
   * check and renderer (given the repository, the source, the revision and,
   * for rendering, the offered repositories and credentials), manifest decoding,
   * the permitted repositories and credentials, the recorded sync revisions and
   * the manifest-generate-paths annotation.
   */
  datatype RepoEnv = RepoEnv(
    getRepository: string -> Result<string, string>,
    updateRevisionForPaths: (string, Source, string, string) -> Result<PathsResult, string>,
    generateManifest: (string, Source, string, seq<string>, seq<string>) -> Result<ManifestResponse, string>,
    parse: string -> Result<Obj, string>,
    helmRepos: seq<string>, helmCredentials: seq<string>,
    ociRepos: seq<string>, ociCredentials: seq<string>,
    syncRevision: string, syncRevisions: seq<string>, hasMultipleSources: bool,
    manifestGeneratePaths: Option<string>)

  /** What one source contributes. */
  datatype SourceOut = SourceOut(objs: seq<Obj>, info: ManifestResponse, mayHaveChanges: bool)

  /** The revision handed to the renderer: the one the change check resolved, when it resolved one. */
  function RenderRevision(requested: string, check: Option<Result<PathsResult, string>>): (revision: string)
    ensures check.Some? && check.value.Success? && check.value.value.revision != "" ==> revision == check.value.value.revision
    ensures !(check.Some? && check.value.Success? && check.value.value.revision != "") ==> revision == requested
  {
    if check.Some? && check.value.Success? && check.value.value.revision != "" then check.value.value.revision else requested
  }

  /** The change check for source i, when it applies. */
  function PathCheck(env: RepoEnv, repo: string, source: Source, i: nat, requested: string): (check: Option<Result<PathsResult, string>>)
    ensures check.Some? <==> PathCheckApplies(source, SyncedRevision(env.syncRevision, env.syncRevisions, env.hasMultipleSources, i), env.manifestGeneratePaths)
    ensures check.Some? ==> check.value == env.updateRevisionForPaths(repo, source, requested, SyncedRevision(env.syncRevision, env.syncRevisions, env.hasMultipleSources, i))
  {
    var synced := SyncedRevision(env.syncRevision, env.syncRevisions, env.hasMultipleSources, i);
    if PathCheckApplies(source, synced, env.manifestGeneratePaths)
    then Some(env.updateRevisionForPaths(repo, source, requested, synced))
    else None
  }

  /** One iteration of the per-source loop. */
  function SourceStep(env: RepoEnv, source: Source, i: nat, total: nat, requested: string): (r: Result<SourceOut, RepoObjsError>)
    ensures r.Failure? && !r.error.GetRepositoryFailed? ==> r.error.source == i + 1 && r.error.total == total
    ensures r.Success? ==> env.getRepository(source.repoURL).Success?
    ensures r.Success? ==>
              var check := PathCheck(env, env.getRepository(source.repoURL).value, source, i, requested);
              && (check.Some? ==> check.value.Success?)
              && (r.value.mayHaveChanges <==> check.None? || check.value.value.changes)
  {
    match env.getRepository(source.repoURL)
    case Failure(e) => Failure(GetRepositoryFailed(source.repoURL, e))
    case Success(repo) =>
      var check := PathCheck(env, repo, source, i, requested);
      if check.Some? && check.value.Failure? then Failure(CompareRevisionsFailed(i + 1, total, check.value.error))
      else
        var revision := RenderRevision(requested, check);
        var mayHaveChanges := check.None? || check.value.value.changes;
        match env.generateManifest(repo, source, revision,
                                   ReposFor(source, env.helmRepos, env.ociRepos),
                                   ReposFor(source, env.helmCredentials, env.ociCredentials))
        case Failure(e) => Failure(GenerateManifestFailed(i + 1, total, e))
        case Success(info) =>
          match ParseAll(env.parse, info.manifests)
          case Failure(e) => Failure(UnmarshalFailed(i + 1, total, e))
          case Success(objs) => Success(SourceOut(objs, info, mayHaveChanges))
  }

  /** The desired objects, manifest responses and change flag. */
  datatype RepoObjs = RepoObjs(targetObjs: seq<Obj>, manifestInfos: seq<ManifestResponse>, revisionsMayHaveChanges: bool)

  /** The outcome after the first n sources: their contributions in order, or the first error. */
  function AcquirePrefix(env: RepoEnv, sources: seq<Source>, revisions: seq<string>, n: nat): Result<RepoObjs, RepoObjsError>
    requires n <= |sources|
  {
    if n == 0 then Success(RepoObjs([], [], false))
    else
      match AcquirePrefix(env, sources, revisions, n - 1)
      case Failure(e) => Failure(e)
      case Success(acc) =>
        match SourceStep(env, sources[n - 1], n - 1, |sources|, RevisionsToRender(revisions, sources)[n - 1])
        case Failure(e) => Failure(e)
        case Success(out) =>
          Success(RepoObjs(acc.targetObjs + out.objs, acc.manifestInfos + [out.info],
                           acc.revisionsMayHaveChanges || out.mayHaveChanges))
  }

  function SourceStepAt(env: RepoEnv, sources: seq<Source>, revisions: seq<string>, i: nat): Result<SourceOut, RepoObjsError>
    requires i < |sources|
  {
    SourceStep(env, sources[i], i, |sources|, RevisionsToRender(revisions, sources)[i])
  }

  lemma {:induction false} AcquireFailurePersists(env: RepoEnv, sources: seq<Source>, revisions: seq<string>, n: nat, m: nat)
    requires n <= m <= |sources| && AcquirePrefix(env, sources, revisions, n).Failure?
    ensures AcquirePrefix(env, sources, revisions, m) == AcquirePrefix(env, sources, revisions, n)
    decreases m - n
  {
    if m > n {
      AcquireFailurePersists(env, sources, revisions, n, m - 1);
    }
  }

  /** A successful acquisition means every source so far succeeded. */
  lemma {:induction false} AcquireSuccessSteps(env: RepoEnv, sources: seq<Source>, revisions: seq<string>, n: nat)
    requires n <= |sources| && AcquirePrefix(env, sources, revisions, n).Success?
    ensures forall i :: 0 <= i < n ==> SourceStepAt(env, sources, revisions, i).Success?
  {
    if n > 0 {
      AcquireSuccessSteps(env, sources, revisions, n - 1);
    }
  }

  /** One manifest response per source, in order. */
  lemma {:induction false} AcquireSuccessInfos(env: RepoEnv, sources: seq<Source>, revisions: seq<string>, n: nat)
    requires n <= |sources| && AcquirePrefix(env, sources, revisions, n).Success?
    ensures forall i :: 0 <= i < n ==> SourceStepAt(env, sources, revisions, i).Success?
    ensures |AcquirePrefix(env, sources, revisions, n).value.manifestInfos| == n
    ensures forall i :: 0 <= i < n ==>
              AcquirePrefix(env, sources, revisions, n).value.manifestInfos[i] == SourceStepAt(env, sources, revisions, i).value.info
  {
    AcquireSuccessSteps(env, sources, revisions, n);
    if n > 0 {
      AcquireSuccessInfos(env, sources, revisions, n - 1);
    }
  }

  /** revisionsMayHaveChanges holds exactly when some source skipped the change check or the check reported changes. */
  lemma {:induction false} AcquireSuccessMayHaveChanges(env: RepoEnv, sources: seq<Source>, revisions: seq<string>, n: nat)
    requires n <= |sources| && AcquirePrefix(env, sources, revisions, n).Success?
    ensures forall i :: 0 <= i < n ==> SourceStepAt(env, sources, revisions, i).Success?
    ensures AcquirePrefix(env, sources, revisions, n).value.revisionsMayHaveChanges <==>
              exists i :: 0 <= i < n && SourceStepAt(env, sources, revisions, i).value.mayHaveChanges
  {
    AcquireSuccessSteps(env, sources, revisions, n);
    if n > 0 {
      AcquireSuccessMayHaveChanges(env, sources, revisions, n - 1);
      if SourceStepAt(env, sources, revisions, n - 1).value.mayHaveChanges {
        assert 0 <= n - 1 < n && SourceStepAt(env, sources, revisions, n - 1).value.mayHaveChanges;
      }
    }
  }

  /** The desired objects are what each source decoded, concatenated in source order. */
  lemma {:induction false} AcquireSuccessObjs(env: RepoEnv, sources: seq<Source>, revisions: seq<string>, n: nat)
    requires n <= |sources| && AcquirePrefix(env, sources, revisions, n).Success?
    ensures forall i :: 0 <= i < n ==> SourceStepAt(env, sources, revisions, i).Success?
    ensures AcquirePrefix(env, sources, revisions, n).value.targetObjs == AllObjs(env, sources, revisions, n)
  {
    AcquireSuccessSteps(env, sources, revisions, n);
    if n > 0 {
      AcquireSuccessObjs(env, sources, revisions, n - 1);
    }
  }

  /** The objects decoded from the first n sources, in source order. */
  function AllObjs(env: RepoEnv, sources: seq<Source>, revisions: seq<string>, n: nat): seq<Obj>
    requires n <= |sources|
    requires forall i :: 0 <= i < n ==> SourceStepAt(env, sources, revisions, i).Success?
  {
    if n == 0 then [] else AllObjs(env, sources, revisions, n - 1) + SourceStepAt(env, sources, revisions, n - 1).value.objs
  }

  /** A failed acquisition reports the error of the first source that fails; no later source is consulted. */
  lemma {:induction false} AcquireFailure(env: RepoEnv, sources: seq<Source>, revisions: seq<string>, n: nat)
    requires n <= |sources| && AcquirePrefix(env, sources, revisions, n).Failure?
    ensures exists k :: 0 <= k < n && SourceStepAt(env, sources, revisions, k) == Failure(AcquirePrefix(env, sources, revisions, n).error)
                        && forall j :: 0 <= j < k ==> SourceStepAt(env, sources, revisions, j).Success?
  {
    if AcquirePrefix(env, sources, revisions, n - 1).Failure? {
      AcquireFailure(env, sources, revisions, n - 1);
    } else {
      AcquireSuccessSteps(env, sources, revisions, n - 1);
      assert SourceStepAt(env, sources, revisions, n - 1) == Failure(AcquirePrefix(env, sources, revisions, n).error);
    }
  }

  /** The body of the per-source loop for source i, rendering the given requested revision. */
  method AcquireSource(env: RepoEnv, source: Source, i: nat, total: nat, requested: string)
    returns (r: Result<SourceOut, RepoObjsError>)
    ensures r == SourceStep(env, source, i, total, requested)
  {
    var revision := requested;
    var repo := env.getRepository(source.repoURL);
    if repo.Failure? {
      return Failure(GetRepositoryFailed(source.repoURL, repo.error));
    }
    var syncedRevision := SyncedRevision(env.syncRevision, env.syncRevisions, env.hasMultipleSources, i);
    var revisionsMayHaveChanges := false;
    if PathCheckApplies(source, syncedRevision, env.manifestGeneratePaths) {
      var updateRevisionResult := env.updateRevisionForPaths(repo.value, source, revision, syncedRevision);
      if updateRevisionResult.Failure? {
        return Failure(CompareRevisionsFailed(i + 1, total, updateRevisionResult.error));
      }
      if updateRevisionResult.value.changes {
        revisionsMayHaveChanges := true;
      }
      if updateRevisionResult.value.revision != "" {
        revision := updateRevisionResult.value.revision;
      }
    } else {
      // the revision cannot be checked, so it may have changed
      revisionsMayHaveChanges := true;
    }
    var repos := ReposFor(source, env.helmRepos, env.ociRepos);
    var helmRepoCreds := ReposFor(source, env.helmCredentials, env.ociCredentials);
    var manifestInfo := env.generateManifest(repo.value, source, revision, repos, helmRepoCreds);
    if manifestInfo.Failure? {
      return Failure(GenerateManifestFailed(i + 1, total, manifestInfo.error));
    }
    var targetObj := UnmarshalManifests(env.parse, manifestInfo.value.manifests);
    if targetObj.Failure? {
      return Failure(UnmarshalFailed(i + 1, total, targetObj.error));
    }
    r := Success(SourceOut(targetObj.value, manifestInfo.value, revisionsMayHaveChanges));
  }

  lemma AcquireStep(env: RepoEnv, sources: seq<Source>, revisions: seq<string>, i: nat, acc: RepoObjs)
    requires i < |sources| && AcquirePrefix(env, sources, revisions, i) == Success(acc)
    ensures SourceStepAt(env, sources, revisions, i).Failure? ==>
              AcquirePrefix(env, sources, revisions, |sources|) == Failure(SourceStepAt(env, sources, revisions, i).error)
    ensures SourceStepAt(env, sources, revisions, i).Success? ==>
              var out := SourceStepAt(env, sources, revisions, i).value;
              AcquirePrefix(env, sources, revisions, i + 1)
              == Success(RepoObjs(acc.targetObjs + out.objs, acc.manifestInfos + [out.info],
                                  acc.revisionsMayHaveChanges || out.mayHaveChanges))
  {
    if SourceStepAt(env, sources, revisions, i).Failure? {
      AcquireFailurePersists(env, sources, revisions, i + 1, |sources|);
    }
  }

  /** The per-source loop of GetRepoObjs, returning at the first error. */
  method GetRepoObjs(env: RepoEnv, sources: seq<Source>, revisions: seq<string>) returns (r: Result<RepoObjs, RepoObjsError>)
    ensures r == AcquirePrefix(env, sources, revisions, |sources|)
  {
    var targetObjs := [];
    var manifestInfos := [];
    var revisionsMayHaveChanges := false;
    for i := 0 to |sources|
      invariant AcquirePrefix(env, sources, revisions, i) == Success(RepoObjs(targetObjs, manifestInfos, revisionsMayHaveChanges))
    {
      var source := sources[i];
      // the corrected defaulting: the caller's revisions are read, never written
      var revision := if |revisions| < |sources| || revisions[i] == "" then source.targetRevision else revisions[i];
      assert revision == RevisionsToRender(revisions, sources)[i];
      var out := AcquireSource(env, source, i, |sources|, revision);
      AcquireStep(env, sources, revisions, i, RepoObjs(targetObjs, manifestInfos, revisionsMayHaveChanges));
      if out.Failure? {
        return Failure(out.error);
      }
      targetObjs := targetObjs + out.value.objs;
      manifestInfos := manifestInfos + [out.value.info];
      revisionsMayHaveChanges := revisionsMayHaveChanges || out.value.mayHaveChanges;
    }
    r := Success(RepoObjs(targetObjs, manifestInfos, revisionsMayHaveChanges));
  }

  /**
   * A single chart source at "1.2.3", never synced and requested with no
   * revisions, taken through CompareAppState's order: the sync record is
   * seeded from the caller's empty list, the list is then normalised to one
   * entry per source, and GetRepoObjs renders it. The rendering yields two
   * manifests that decode: the change check is skipped so changes may exist,
   * both objects are desired, and the recorded revision is the resolved one.
   */
  lemma ChartSourceScenario(env: RepoEnv, chart: Source, info: ManifestResponse, deployment: Obj, service: Obj)
    requires chart.isHelm && chart.targetRevision == "1.2.3"
    requires !env.hasMultipleSources && env.syncRevision == ""
    requires env.getRepository(chart.repoURL).Success?
    requires forall repo, revision, repos, creds :: env.generateManifest(repo, chart, revision, repos, creds) == Success(info)
    requires |info.manifests| == 2 && info.revision == "1.2.3"
    requires env.parse(info.manifests[0]) == Success(deployment) && env.parse(info.manifests[1]) == Success(service)
    ensures AcquirePrefix(env, [chart], RequestedRevisions([], [chart]), 1).Success?
    ensures AcquirePrefix(env, [chart], RequestedRevisions([], [chart]), 1).value.revisionsMayHaveChanges
    ensures AcquirePrefix(env, [chart], RequestedRevisions([], [chart]), 1).value.targetObjs == [deployment, service]
    ensures ResolvedSyncRevisions(InitialSyncRevisions([], false),
                                  [AcquirePrefix(env, [chart], RequestedRevisions([], [chart]), 1).value.manifestInfos[0].revision], false).revision == "1.2.3"
  {
    assert RequestedRevisions([], [chart]) == ["1.2.3"];
    assert RevisionsToRender(RequestedRevisions([], [chart]), [chart]) == RevisionsToRender([], [chart]);
    var first := info.manifests[..1];
    var none: seq<Obj> := [];
    assert first[..|first| - 1] == [] && first[|first| - 1] == info.manifests[0];
    assert ParseAll(env.parse, first[..|first| - 1]) == Success(none);
    assert none + [deployment] == [deployment];
    assert ParseAll(env.parse, first) == Success([deployment]);
    assert info.manifests[..|info.manifests| - 1] == first;
    assert info.manifests[|info.manifests| - 1] == info.manifests[1];
    assert [deployment] + [service] == [deployment, service];
    assert ParseAll(env.parse, info.manifests) == Success([deployment, service]);
  }
}
