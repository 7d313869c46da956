/**
 * Diff configuration decisions of CompareAppState (controller/state.go): the
 * server-side-diff switch, the resolved manifest revisions, and whether a
 * cached diff may be reused.
 */
module DiffCache {
  import opened Resources

  /**
   * Server-side diff is on when the controller flag or the compare-options
   * annotation asks for it, and the "ServerSideDiff=false" option always turns
   * it off. hasCompareOption tells whether the application's compare-options
   * annotation lists an option.
   */
  function ServerSideDiffEnabled(controllerFlag: bool, hasCompareOption: string -> bool): (on: bool)
    ensures on <==> (controllerFlag || hasCompareOption("ServerSideDiff=true")) && !hasCompareOption("ServerSideDiff=false")
  {
    var serverSideDiff := controllerFlag || hasCompareOption("ServerSideDiff=true");
    if hasCompareOption("ServerSideDiff=false") then false else serverSideDiff
  }

  /** The revisions the repo server resolved, one per manifest response, in order. */
  method CollectManifestRevisions(manifestInfos: seq<ManifestResponse>) returns (manifestRevisions: seq<string>)
    ensures |manifestRevisions| == |manifestInfos|
    ensures forall i :: 0 <= i < |manifestInfos| ==> manifestRevisions[i] == manifestInfos[i].revision
  {
    manifestRevisions := [];
    for i := 0 to |manifestInfos|
      invariant |manifestRevisions| == i
      invariant forall j :: 0 <= j < i ==> manifestRevisions[j] == manifestInfos[j].revision
    {
      manifestRevisions := manifestRevisions + [manifestInfos[i].revision];
    }
  }

  /**
   * The guard chain deciding whether the diff may come from the cache.
   * storedRevisions are the revisions in the application status; comparedTo is
   * the snapshot recorded by the last comparison and expected the one that
   * the current spec and sources would produce.
   */
  function UseDiffCache<C(==)>(noCache: bool, refreshRequested: bool, statusExpired: bool,
                               manifestInfos: seq<ManifestResponse>, sources: seq<Source>,
                               storedRevisions: seq<string>, manifestRevisions: seq<string>,
                               serverSideDiff: bool, comparedTo: C, expected: C): (use: bool)
    ensures use <==> && !noCache
                     && !refreshRequested
                     && (!statusExpired || serverSideDiff)
                     && |manifestInfos| == |sources|
                     && storedRevisions == manifestRevisions
                     && comparedTo == expected
  {
    if noCache then false
    else if refreshRequested then false
    else if statusExpired && !serverSideDiff then false
    else if |manifestInfos| != |sources| then false
    else if storedRevisions != manifestRevisions then false
    else if comparedTo != expected then false
    else true
  }

  /**
   * Turning server-side diff on never stops the cache from being used: it only
   * lifts the expiry guard.
   */
  lemma ServerSideDiffOnlyRelaxesExpiry<C>(noCache: bool, refreshRequested: bool, statusExpired: bool,
                                               manifestInfos: seq<ManifestResponse>, sources: seq<Source>,
                                               storedRevisions: seq<string>, manifestRevisions: seq<string>,
                                               comparedTo: C, expected: C)
    ensures UseDiffCache(noCache, refreshRequested, statusExpired, manifestInfos, sources, storedRevisions, manifestRevisions, false, comparedTo, expected)
            ==> UseDiffCache(noCache, refreshRequested, statusExpired, manifestInfos, sources, storedRevisions, manifestRevisions, true, comparedTo, expected)
    ensures !statusExpired ==>
            UseDiffCache(noCache, refreshRequested, statusExpired, manifestInfos, sources, storedRevisions, manifestRevisions, false, comparedTo, expected)
            == UseDiffCache(noCache, refreshRequested, statusExpired, manifestInfos, sources, storedRevisions, manifestRevisions, true, comparedTo, expected)
  {
  }

  /** The part of the sync status that records revisions. */
  datatype SyncRevisions = SyncRevisions(revision: string, revisions: seq<string>)

  /** The revisions recorded before any manifest is generated: the requested ones. */
  function InitialSyncRevisions(revisions: seq<string>, hasMultipleSources: bool): (r: SyncRevisions)
    ensures hasMultipleSources ==> r.revisions == revisions && r.revision == ""
    ensures !hasMultipleSources ==> r.revisions == [] && r.revision == (if |revisions| > 0 then revisions[0] else "")
  {
    if hasMultipleSources then SyncRevisions("", revisions)
    else SyncRevisions(if |revisions| > 0 then revisions[0] else "", [])
  }

  /** After generation the recorded revisions become the resolved manifest revisions. */
  function ResolvedSyncRevisions(initial: SyncRevisions, manifestRevisions: seq<string>, hasMultipleSources: bool): (r: SyncRevisions)
    ensures hasMultipleSources ==> r == initial.(revisions := manifestRevisions)
    ensures !hasMultipleSources && |manifestRevisions| > 0 ==> r == initial.(revision := manifestRevisions[0])
    ensures !hasMultipleSources && manifestRevisions == [] ==> r == initial
  {
    if hasMultipleSources then initial.(revisions := manifestRevisions)
    else if |manifestRevisions| > 0 then initial.(revision := manifestRevisions[0])
    else initial
  }

  /**
   * A single-source comparison whose one response resolved revision rev
   * records rev, whatever was requested.
   */
  lemma SingleSourceRecordsResolvedRevision(revisions: seq<string>, response: ManifestResponse)
    ensures ResolvedSyncRevisions(InitialSyncRevisions(revisions, false), [response.revision], false).revision == response.revision
  {
  }
}
