/**
 * The repo-error grace period of CompareAppState (controller/state.go): a
 * per-application record of when the repo server first failed to produce the
 * desired state, used to hide short outages from the application status. Time
 * is an integer clock; the time since an instant is the difference of clock
 * readings.
 */
module GracePeriod {

  /** What the comparison does after trying to load the desired state. */
  datatype Outcome =
    | RepoErr   // return the dedicated repo error and skip this comparison
    | Degraded  // go on with no desired objects and mark them as failed to load
    | Loaded    // the desired state was loaded

  /** One attempt: the clock reading, whether loading failed, and whether the revision cache was bypassed. */
  datatype Attempt = Attempt(now: int, loadFailed: bool, noRevisionCache: bool)

  datatype StepResult = StepResult(outcome: Outcome, firstSeen: map<string, int>)

  /**
   * The decision for one attempt and the record it leaves. A first failure is
   * recorded and hidden; a later failure is hidden while it lies within the
   * grace period of the first; a level-3 comparison (revision cache bypassed)
   * is never hidden and never recorded; a success forgets the record.
   */
  function Step(firstSeen: map<string, int>, gracePeriod: int, appName: string, a: Attempt): (r: StepResult)
    ensures !a.loadFailed ==> r.outcome == Loaded && r.firstSeen == firstSeen - {appName}
    ensures a.loadFailed && a.noRevisionCache ==> r.outcome == Degraded && r.firstSeen == firstSeen
    ensures a.loadFailed && !a.noRevisionCache && appName !in firstSeen ==>
              r.outcome == RepoErr && r.firstSeen == firstSeen[appName := a.now]
    ensures a.loadFailed && !a.noRevisionCache && appName in firstSeen ==>
              r.firstSeen == firstSeen
              && (r.outcome == RepoErr <==> a.now - firstSeen[appName] <= gracePeriod)
              && (r.outcome != RepoErr ==> r.outcome == Degraded)
    ensures forall other :: other != appName ==>
              (other in r.firstSeen <==> other in firstSeen)
              && (other in firstSeen ==> r.firstSeen[other] == firstSeen[other])
  {
    if a.loadFailed then
      if appName in firstSeen then
        if a.now - firstSeen[appName] <= gracePeriod && !a.noRevisionCache then StepResult(RepoErr, firstSeen)
        else StepResult(Degraded, firstSeen)
      else if !a.noRevisionCache then StepResult(RepoErr, firstSeen[appName := a.now])
      else StepResult(Degraded, firstSeen)
    else StepResult(Loaded, firstSeen - {appName})
  }

  /** The outcomes of a sequence of attempts for one application. */
  function Run(firstSeen: map<string, int>, gracePeriod: int, appName: string, attempts: seq<Attempt>): (outcomes: seq<Outcome>)
    ensures |outcomes| == |attempts|
    decreases |attempts|
  {
    if attempts == [] then []
    else
      var r := Step(firstSeen, gracePeriod, appName, attempts[0]);
      [r.outcome] + Run(r.firstSeen, gracePeriod, appName, attempts[1..])
  }

  predicate AllHiddenCandidates(attempts: seq<Attempt>)
  {
    forall i :: 0 <= i < |attempts| ==> attempts[i].loadFailed && !attempts[i].noRevisionCache
  }

  /** With the first failure recorded at t0, each later failure is hidden exactly while within the grace period of t0. */
  lemma {:induction false} RecordedWindow(firstSeen: map<string, int>, gracePeriod: int, appName: string, attempts: seq<Attempt>)
    requires appName in firstSeen
    requires AllHiddenCandidates(attempts)
    ensures |Run(firstSeen, gracePeriod, appName, attempts)| == |attempts|
    ensures forall i :: 0 <= i < |attempts| ==>
              (Run(firstSeen, gracePeriod, appName, attempts)[i] == RepoErr <==>
               attempts[i].now - firstSeen[appName] <= gracePeriod)
    decreases |attempts|
  {
    if attempts != [] {
      var r := Step(firstSeen, gracePeriod, appName, attempts[0]);
      assert AllHiddenCandidates(attempts[1..]) by {
        forall i | 0 <= i < |attempts[1..]|
          ensures attempts[1..][i].loadFailed && !attempts[1..][i].noRevisionCache
        {
          assert attempts[1..][i] == attempts[i + 1];
        }
      }
      RecordedWindow(r.firstSeen, gracePeriod, appName, attempts[1..]);
      var rest := Run(r.firstSeen, gracePeriod, appName, attempts[1..]);
      assert Run(firstSeen, gracePeriod, appName, attempts) == [r.outcome] + rest;
      forall i | 0 < i < |attempts|
        ensures Run(firstSeen, gracePeriod, appName, attempts)[i] == rest[i - 1]
        ensures attempts[i] == attempts[1..][i - 1]
      {
      }
    }
  }

  /**
   * The suppression window: after a success (no record), a run of failures is
   * hidden at first, and each later one is hidden exactly while it lies within
   * the grace period of the first failure.
   */
  lemma SuppressionWindow(firstSeen: map<string, int>, gracePeriod: int, appName: string, attempts: seq<Attempt>)
    requires appName !in firstSeen
    requires |attempts| > 0 && AllHiddenCandidates(attempts)
    ensures |Run(firstSeen, gracePeriod, appName, attempts)| == |attempts|
    ensures Run(firstSeen, gracePeriod, appName, attempts)[0] == RepoErr
    ensures forall i :: 0 < i < |attempts| ==>
              (Run(firstSeen, gracePeriod, appName, attempts)[i] == RepoErr <==>
               attempts[i].now - attempts[0].now <= gracePeriod)
  {
    var r := Step(firstSeen, gracePeriod, appName, attempts[0]);
    assert AllHiddenCandidates(attempts[1..]) by {
      forall i | 0 <= i < |attempts[1..]|
        ensures attempts[1..][i].loadFailed && !attempts[1..][i].noRevisionCache
      {
        assert attempts[1..][i] == attempts[i + 1];
      }
    }
    RecordedWindow(r.firstSeen, gracePeriod, appName, attempts[1..]);
    var rest := Run(r.firstSeen, gracePeriod, appName, attempts[1..]);
    forall i | 0 < i < |attempts|
      ensures Run(firstSeen, gracePeriod, appName, attempts)[i] == rest[i - 1]
      ensures attempts[i] == attempts[1..][i - 1]
    {
    }
  }

  /** With a nondecreasing clock, once a failure is no longer hidden no later failure is. */
  lemma OnceDegradedStaysDegraded(firstSeen: map<string, int>, gracePeriod: int, appName: string, attempts: seq<Attempt>, i: nat, j: nat)
    requires appName !in firstSeen
    requires |attempts| > 0 && AllHiddenCandidates(attempts)
    requires 0 < i <= j < |attempts| && attempts[i].now <= attempts[j].now
    requires Run(firstSeen, gracePeriod, appName, attempts)[i] != RepoErr
    ensures Run(firstSeen, gracePeriod, appName, attempts)[j] == Degraded
  {
    SuppressionWindow(firstSeen, gracePeriod, appName, attempts);
    DegradedOrHidden(firstSeen, gracePeriod, appName, attempts, j);
  }

  /** A failure that is not hidden degrades the comparison. */
  lemma {:induction false} DegradedOrHidden(firstSeen: map<string, int>, gracePeriod: int, appName: string, attempts: seq<Attempt>, j: nat)
    requires forall i :: 0 <= i < |attempts| ==> attempts[i].loadFailed
    requires j < |attempts|
    ensures |Run(firstSeen, gracePeriod, appName, attempts)| == |attempts|
    ensures Run(firstSeen, gracePeriod, appName, attempts)[j] != Loaded
    decreases |attempts|
  {
    var r := Step(firstSeen, gracePeriod, appName, attempts[0]);
    if j > 0 {
      assert forall i :: 0 <= i < |attempts[1..]| ==> attempts[1..][i].loadFailed by {
        forall i | 0 <= i < |attempts[1..]| ensures attempts[1..][i].loadFailed {
          assert attempts[1..][i] == attempts[i + 1];
        }
      }
      DegradedOrHidden(r.firstSeen, gracePeriod, appName, attempts[1..], j - 1);
    } else if attempts[1..] != [] {
      assert attempts[1..][0] == attempts[1];
      DegradedOrHidden(r.firstSeen, gracePeriod, appName, attempts[1..], 0);
    } else {
      assert Run(r.firstSeen, gracePeriod, appName, attempts[1..]) == [];
    }
  }

  /** The controller's record of first repo failures, keyed by application name. */
  class RepoErrorCache {
    var firstSeen: map<string, int>
    const gracePeriod: int

    constructor (gracePeriod: int)
      ensures this.gracePeriod == gracePeriod
      ensures firstSeen == map[]
    {
      this.gracePeriod := gracePeriod;
      firstSeen := map[];
    }

    /** Consults and updates the record after one attempt to load the desired state. */
    method OnTargetState(appName: string, now: int, loadFailed: bool, noRevisionCache: bool) returns (outcome: Outcome)
      modifies this
      ensures Step(old(firstSeen), gracePeriod, appName, Attempt(now, loadFailed, noRevisionCache))
              == StepResult(outcome, firstSeen)
    {
      if loadFailed {
        if appName in firstSeen {
          if now - firstSeen[appName] <= gracePeriod && !noRevisionCache {
            return RepoErr;
          }
        } else if !noRevisionCache {
          firstSeen := firstSeen[appName := now];
          return RepoErr;
        }
        outcome := Degraded;
      } else {
        firstSeen := firstSeen - {appName};
        outcome := Loaded;
      }
    }
  }
}
