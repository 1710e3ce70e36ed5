/**
 * The memoising scorer `calculateSuitabilityScoreWithCache`
 * (recommendationService.ts lines 750-791): a closure that owns a `Map` from
 * (crop, sample) to a score, checks it first, and otherwise computes the
 * score, stores it and returns it. The map only ever grows.
 */
module SuitabilityCache {
  import opened Wrappers
  import opened Soil
  import opened CropCatalog
  import opened Scoring

  /** Why scoring threw: `CROP_DATA[crop]` is undefined, so reading its `idealConditions` fails. */
  datatype ScoreError = UnknownCrop(crop: string)

  /** `next` keeps every entry of `prev`, with the same value. */
  ghost predicate Extends(prev: map<(string, SoilData), real>, next: map<(string, SoilData), real>)
  {
    forall key :: key in prev ==> key in next && next[key] == prev[key]
  }

  /** Every score in `entries` is the uncached formula over `data` for its key. */
  ghost predicate Stored(entries: map<(string, SoilData), real>, data: map<string, CropInfo>)
  {
    forall key :: key in entries ==>
      key.0 in data && entries[key] == SuitabilityScore(key.1, data[key.0].idealConditions)
  }

  /** What the scorer answers for `crop` and `s` when `data` is the profile table. */
  function ScoreOutcome(data: map<string, CropInfo>, crop: string, s: SoilData): Result<real, ScoreError>
  {
    if crop in data then Success(SuitabilityScore(s, data[crop].idealConditions)) else Failure(UnknownCrop(crop))
  }

  /**
   * The memo after one request for `crop` and `s`: unchanged on a hit or for a
   * crop without a profile, otherwise with the computed score stored.
   */
  function Memoize(entries: map<(string, SoilData), real>, data: map<string, CropInfo>, crop: string, s: SoilData)
    : map<(string, SoilData), real>
  {
    if (crop, s) in entries || crop !in data then entries
    else entries[(crop, s) := SuitabilityScore(s, data[crop].idealConditions)]
  }

  class ScoreCache {
    /** The profile table the scorer reads. */
    const data: map<string, CropInfo>
    /**
     * The memo. The source keys it by the text `${crop}-${JSON.stringify(soilData)}`;
     * the pair of the two values stands for that text.
     */
    var entries: map<(string, SoilData), real>

    /** Every stored score is the uncached formula for its key, so only known crops are stored. */
    ghost predicate Valid()
      reads this
    {
      Stored(entries, data)
    }

    /** The scorer as created once at module load: an empty memo over `CROP_DATA`. */
    constructor (data: map<string, CropInfo>)
      ensures Valid()
      ensures this.data == data && entries == map[]
    {
      this.data := data;
      entries := map[];
    }

    /**
     * Scores `crop` for `s`. A hit returns the stored value and changes nothing;
     * a miss on a known crop stores exactly the computed score; an unknown crop
     * throws, leaving the memo as it was. Either way the answer is the formula.
     */
    method Score(crop: string, s: SoilData) returns (r: Result<real, ScoreError>)
      requires Valid()
      modifies this
      ensures Valid()
      ensures r == ScoreOutcome(data, crop, s)
      ensures Extends(old(entries), entries)
      ensures (crop, s) in old(entries) ==> entries == old(entries) && r == Success(old(entries)[(crop, s)])
      ensures (crop, s) !in old(entries) && r.Success? ==> entries == old(entries)[(crop, s) := r.value]
      ensures r.Failure? ==> entries == old(entries)
      ensures entries == Memoize(old(entries), data, crop, s)
    {
      var key := (crop, s);
      if key in entries {
        return Success(entries[key]);
      }
      if crop !in data {
        return Failure(UnknownCrop(crop));
      }
      var result := SuitabilityScore(s, data[crop].idealConditions);
      entries := entries[key := result];
      return Success(result);
    }
  }
}
