/**
 * The json files `lightLevel-<fileIdentifier>.json` in the working directory,
 * and the choice between replaying the RPU, reading such a file and
 * measuring the clip.
 */
module Cache {
  import opened Wrappers
  import opened Errors
  import opened LightLevels

  const CacheFilePrefix := "lightLevel-"
  const CacheFileSuffix := ".json"

  /** The name of the cache file for an identifier. */
  function CacheFileName(fileIdentifier: string): string
  {
    CacheFilePrefix + fileIdentifier + CacheFileSuffix
  }

  /** Distinct identifiers never share a cache file. */
  lemma CacheFileNameInjective(a: string, b: string)
    requires CacheFileName(a) == CacheFileName(b)
    ensures a == b
  {
    var na, nb := CacheFileName(a), CacheFileName(b);
    assert a == na[|CacheFilePrefix|..|na| - |CacheFileSuffix|];
    assert b == nb[|CacheFilePrefix|..|nb| - |CacheFileSuffix|];
  }

  /** The directory's json files, by name, each holding one untrimmed series. */
  class LightLevelStore {
    var files: map<string, LightLevel>

    constructor (initial: map<string, LightLevel>)
      ensures files == initial
    {
      files := initial;
    }

    /**
     * The three exclusive ways to a series. In L1 mode the RPU is replayed
     * whether or not a cache file exists, and nothing is written. Otherwise
     * an existing cache file is returned as it is, without being checked
     * against the clip. Otherwise every frame is measured in order and
     * exactly that untrimmed series is written under the identifier's name.
     */
    method Acquire(l1: bool, rpu: Option<seq<L1Metadata>>, eotf: Eotf, fileIdentifier: string,
                   n: nat, clip: MeasuredClip, measure: Measure)
      returns (r: Result<LightLevel, PlotError>)
      modifies this
      ensures l1 ==> IsL1Outcome(r, n, rpu, eotf) && files == old(files)
      ensures !l1 && CacheFileName(fileIdentifier) in old(files) ==>
                r == Success(old(files)[CacheFileName(fileIdentifier)]) && files == old(files)
      ensures !l1 && CacheFileName(fileIdentifier) !in old(files) ==>
                r.Success? && IsMeasurement(r.value, n, clip, measure) &&
                files == old(files)[CacheFileName(fileIdentifier) := r.value]
    {
      var name := CacheFileName(fileIdentifier);
      if l1 {
        r := ReplayL1(n, rpu, eotf);
      } else if name in files {
        r := Success(files[name]);
      } else {
        var ll := MeasureFrames(n, clip, measure);
        files := files[name := ll];
        r := Success(ll);
      }
    }
  }

  /**
   * The second of two runs with the same identifier and no L1 replay reads
   * back exactly the series the first one measured and stored, which is the
   * series any fresh measurement of the clip would give.
   */
  method SecondRunReadsCache(store: LightLevelStore, rpu: Option<seq<L1Metadata>>, eotf: Eotf,
                             fileIdentifier: string, n: nat, clip: MeasuredClip, measure: Measure)
    returns (first: Result<LightLevel, PlotError>, second: Result<LightLevel, PlotError>)
    requires CacheFileName(fileIdentifier) !in store.files
    modifies store
    ensures first.Success? && second == first
    ensures IsMeasurement(first.value, n, clip, measure)
    ensures forall ll | IsMeasurement(ll, n, clip, measure) :: second.value == ll
    ensures store.files == old(store.files)[CacheFileName(fileIdentifier) := first.value]
  {
    first := store.Acquire(false, rpu, eotf, fileIdentifier, n, clip, measure);
    second := store.Acquire(false, rpu, eotf, fileIdentifier, n, clip, measure);
    forall ll | IsMeasurement(ll, n, clip, measure)
      ensures second.value == ll
    {
      MeasurementIsUnique(second.value, ll, n, clip, measure);
    }
  }
}
