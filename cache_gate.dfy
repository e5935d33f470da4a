/** The existence gate over the catalogue and the decision to regenerate the cache. */
module CacheGate {
  import opened Catalogue

  /** The three coarse preparers; each regenerates a whole group of artifacts. */
  datatype Preparer = PrepareJobActivePopulation | PrepareFacilities | DownloadWorkHomeFlows

  /** The name of the preparer's function, which an exception it raises carries. */
  function PreparerName(p: Preparer): string {
    match p
    case PrepareJobActivePopulation => "prepare_job_active_population"
    case PrepareFacilities => "prepare_facilities"
    case DownloadWorkHomeFlows => "download_work_home_flows"
  }

  /** The order in which the preparers run when the cache is incomplete. */
  const AllPreparers: seq<Preparer> := [PrepareJobActivePopulation, PrepareFacilities, DownloadWorkHomeFlows]

  /** Every one of `paths` exists. */
  predicate AllExist(existing: set<Artifact>, paths: seq<Artifact>) {
    forall i :: 0 <= i < |paths| ==> paths[i] in existing
  }

  /** The paths whose existence a left-to-right short-circuiting `and` chain actually probes. */
  function Probes(existing: set<Artifact>, paths: seq<Artifact>): (probed: seq<Artifact>)
    ensures |probed| <= |paths| && probed == paths[..|probed|]
    ensures forall i :: 0 <= i < |probed| - 1 ==> probed[i] in existing
    ensures paths != [] ==> probed != []
    ensures AllExist(existing, paths) ==> probed == paths
    ensures !AllExist(existing, paths) ==> probed != [] && probed[|probed| - 1] !in existing
  {
    if paths == [] then []
    else [paths[0]] + (if paths[0] in existing then Probes(existing, paths[1..]) else [])
  }

  /** Appending one path to the chain probes it exactly when everything before it existed. */
  lemma {:induction false} ProbesSnoc(existing: set<Artifact>, paths: seq<Artifact>, p: Artifact)
    ensures Probes(existing, paths + [p]) == if AllExist(existing, paths) then paths + [p] else Probes(existing, paths)
  {
    if paths != [] {
      assert (paths + [p])[0] == paths[0];
      assert (paths + [p])[1..] == paths[1..] + [p];
      if paths[0] in existing {
        ProbesSnoc(existing, paths[1..], p);
        assert AllExist(existing, paths) == AllExist(existing, paths[1..]);
      }
    } else {
      assert [] + [p] == [p];
    }
  }

  /** The running conjunction `check_files` over the catalogue, with the `exists()` probes it makes. */
  method CheckFiles(existing: set<Artifact>) returns (checkFiles: bool, probed: seq<Artifact>)
    ensures checkFiles == AllExist(existing, CheckedArtifacts)
    ensures probed == Probes(existing, CheckedArtifacts)
  {
    // The first assignment has no `and`: it is the first path's existence alone.
    checkFiles := CheckedArtifacts[0] in existing;
    probed := [CheckedArtifacts[0]];
    assert CheckedArtifacts[..1] == [CheckedArtifacts[0]];
    var i := 1;
    while i < |CheckedArtifacts|
      invariant 1 <= i <= |CheckedArtifacts|
      invariant checkFiles == AllExist(existing, CheckedArtifacts[..i])
      invariant probed == Probes(existing, CheckedArtifacts[..i])
    {
      assert CheckedArtifacts[..i + 1] == CheckedArtifacts[..i] + [CheckedArtifacts[i]];
      ProbesSnoc(existing, CheckedArtifacts[..i], CheckedArtifacts[i]);
      if checkFiles {
        probed := probed + [CheckedArtifacts[i]];
        checkFiles := CheckedArtifacts[i] in existing;
      }
      i := i + 1;
    }
    assert CheckedArtifacts[..i] == CheckedArtifacts;
  }

  /** The preparers run by one call, in order: none when every checked path exists, else all three. */
  function PreparerCalls(existing: set<Artifact>): seq<Preparer>
  {
    if AllExist(existing, CheckedArtifacts) then [] else AllPreparers
  }

  /** How many times `p` occurs in `calls`. */
  function Occurrences(calls: seq<Preparer>, p: Preparer): nat
  {
    if calls == [] then 0 else (if calls[0] == p then 1 else 0) + Occurrences(calls[1..], p)
  }

  /** Each preparer runs exactly once when something is missing and never when the cache is complete. */
  lemma PreparersRunOnce(existing: set<Artifact>, p: Preparer)
    ensures Occurrences(PreparerCalls(existing), p) == if AllExist(existing, CheckedArtifacts) then 0 else 1
  {
    if !AllExist(existing, CheckedArtifacts) {
      var calls := PreparerCalls(existing);
      assert calls[1..] == [PrepareFacilities, DownloadWorkHomeFlows];
      assert calls[1..][1..] == [DownloadWorkHomeFlows];
    }
  }

  /** One missing path suffices, and the call log does not depend on how many are missing. */
  lemma OneMissingRunsAll(existing: set<Artifact>, i: nat)
    requires i < |CheckedArtifacts| && CheckedArtifacts[i] !in existing
    ensures PreparerCalls(existing) == [PrepareJobActivePopulation, PrepareFacilities, DownloadWorkHomeFlows]
  {
  }
}
