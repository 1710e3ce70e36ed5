/**
 * The external prediction service and the choice between it and the local
 * ranking (recommendationService.ts lines 794-903). The HTTP exchange itself
 * is a parameter: `response` is `None` when the request fails, the status is
 * not OK or the body has no usable `predictions`, and otherwise the list of
 * predictions. The debounce timer is not modelled; the model starts where
 * the timer fires.
 */
module RecommendAsync {
  import opened Wrappers
  import opened Soil
  import opened Text
  import opened CropCatalog
  import opened SuitabilityCache
  import opened Ranking

  /** One entry of the service's `predictions` array; confidence and suitability are fractions. */
  datatype Prediction = Prediction(crop: string, confidence: real, suitability: real)

  const PlaceholderDescription := "A versatile crop suitable for your conditions."
  const PlaceholderFertilizer := "General purpose fertilizer"

  /** The profile given to a predicted crop the table does not know (lines 823-827). */
  const Placeholder: CropInfo := CropInfo(PlaceholderDescription, NoConditions, [PlaceholderFertilizer], None, None)

  /** The profile a predicted name gets: its table entry, or the placeholder. */
  function ProfileFor(data: map<string, CropInfo>, name: string): CropInfo
  {
    if name in data then data[name] else Placeholder
  }

  /**
   * One prediction as a recommendation (lines 821-838): the name lower-cased,
   * the fractions scaled to percentages, the profile looked up by the
   * lower-cased name.
   */
  function MapPrediction(data: map<string, CropInfo>, p: Prediction): CropRecommendation
  {
    var name := ToLower(p.crop);
    var info := ProfileFor(data, name);
    CropRecommendation(name, p.confidence * 100.0, p.suitability * 100.0,
      info.fertilizers, info.description, info.idealConditions, info.season, info.growthDuration)
  }

  /** `data.predictions.map(...)`: one recommendation per prediction, in the service's order. */
  function MapPredictions(data: map<string, CropInfo>, ps: seq<Prediction>): (r: seq<CropRecommendation>)
    ensures |r| == |ps|
    ensures forall i :: 0 <= i < |r| ==>
      SameUpToCase(r[i].crop, ps[i].crop) && !exists j :: 0 <= j < |r[i].crop| && IsUpperAscii(r[i].crop[j])
  {
    var r := seq(|ps|, i requires 0 <= i < |ps| => MapPrediction(data, ps[i]));
    assert forall i :: 0 <= i < |r| ==> SameUpToCase(r[i].crop, ps[i].crop) by {
      forall i | 0 <= i < |r| ensures SameUpToCase(r[i].crop, ps[i].crop) {
        ToLowerIdempotent(ps[i].crop);
        ToLowerEqualIff(r[i].crop, ps[i].crop);
      }
    }
    r
  }

  /** `fetchExternalRecommendation`: `null` when the exchange fails, else the mapped predictions. */
  function ExternalRecommendations(data: map<string, CropInfo>, response: Option<seq<Prediction>>)
    : (r: Option<seq<CropRecommendation>>)
    ensures r.Some? <==> response.Some?
    ensures r.Some? ==> |r.value| == |response.value|
  {
    match response
    case None => None
    case Some(ps) => Some(MapPredictions(data, ps))
  }

  /** How the promise of `getRecommendationAsync` ends. */
  datatype AsyncOutcome = Resolved(recs: seq<CropRecommendation>) | NeverResolves

  /**
   * Lines 883-903 once the timer fires: the external list when it is there
   * and non-empty; otherwise the local ranking; if that throws, the handler
   * calls it once more, and a second throw escapes the timer callback, so
   * the promise never settles. `noise` and `retryNoise` are the
   * `Math.random()` draws of the two local calls.
   */
  function Outcome(data: map<string, CropInfo>, crops: seq<string>, s: SoilData,
                   response: Option<seq<Prediction>>, noise: seq<real>, retryNoise: seq<real>): AsyncOutcome
    requires |noise| >= TopCount && |retryNoise| >= TopCount
  {
    var external := ExternalRecommendations(data, response);
    if external.Some? && |external.value| > 0 then Resolved(external.value)
    else match Recommend(data, crops, s, noise)
      case Success(recs) => Resolved(recs)
      case Failure(_) =>
        match Recommend(data, crops, s, retryNoise)
        case Success(recs) => Resolved(recs)
        case Failure(_) => NeverResolves
  }

  /**
   * The callback of `getRecommendationAsync`, against the shared score
   * cache: it computes `Outcome`. A usable external list leaves the cache
   * alone; otherwise the local ranking (run once or twice) adds the keys of
   * the ids scored before the first unknown one.
   */
  method RecommendAsync(cache: ScoreCache, crops: seq<string>, s: SoilData,
                        response: Option<seq<Prediction>>, noise: seq<real>, retryNoise: seq<real>)
    returns (o: AsyncOutcome)
    requires cache.Valid() && |noise| >= TopCount && |retryNoise| >= TopCount
    modifies cache
    ensures cache.Valid()
    ensures o == Outcome(cache.data, crops, s, response, noise, retryNoise)
    ensures Extends(old(cache.entries), cache.entries)
    ensures var external := ExternalRecommendations(cache.data, response);
      if external.Some? && |external.value| > 0 then cache.entries == old(cache.entries)
      else cache.entries.Keys == old(cache.entries.Keys) + ScoredKeys(crops, s, KnownPrefix(crops, cache.data))
  {
    var external := ExternalRecommendations(cache.data, response);
    if external.Some? && |external.value| > 0 {
      return Resolved(external.value);
    }
    var local := GetRecommendation(cache, crops, s, noise);
    if local.Success? {
      return Resolved(local.value);
    }
    var retry := GetRecommendation(cache, crops, s, retryNoise);
    if retry.Success? {
      return Resolved(retry.value);
    }
    return NeverResolves;
  }

  /** A predicted crop the table knows carries its table profile; any other gets the placeholder. */
  lemma MapPredictionProfile(data: map<string, CropInfo>, p: Prediction)
    ensures var r := MapPrediction(data, p);
      r.crop == ToLower(p.crop) &&
      r.confidence == 100.0 * p.confidence && r.suitabilityScore == 100.0 * p.suitability &&
      (ToLower(p.crop) in data ==>
        var info := data[ToLower(p.crop)];
        r.fertilizers == info.fertilizers && r.description == info.description &&
        r.idealConditions == info.idealConditions && r.season == info.season &&
        r.growthDuration == info.growthDuration) &&
      (ToLower(p.crop) !in data ==>
        r.description == PlaceholderDescription &&
        r.fertilizers == [PlaceholderFertilizer] && r.idealConditions == NoConditions &&
        r.season.None? && r.growthDuration.None?)
  {
  }

  /** Predictions that differ only in the case of the crop name map to the same recommendation. */
  lemma MapPredictionIgnoresCase(data: map<string, CropInfo>, p: Prediction, q: Prediction)
    requires SameUpToCase(p.crop, q.crop)
    requires p.confidence == q.confidence && p.suitability == q.suitability
    ensures MapPrediction(data, p) == MapPrediction(data, q)
  {
    ToLowerEqualIff(p.crop, q.crop);
  }

  /** The external list is used exactly when the service answered with at least one prediction. */
  lemma OutcomeUsesExternal(data: map<string, CropInfo>, crops: seq<string>, s: SoilData,
                            response: Option<seq<Prediction>>, noise: seq<real>, retryNoise: seq<real>)
    requires |noise| >= TopCount && |retryNoise| >= TopCount
    requires response.Some? && response.value != []
    ensures Outcome(data, crops, s, response, noise, retryNoise) == Resolved(MapPredictions(data, response.value))
  {
  }

  /**
   * Without predictions the promise settles with the local ranking when every
   * listed crop has a profile, and never settles otherwise.
   */
  lemma OutcomeFallsBack(data: map<string, CropInfo>, crops: seq<string>, s: SoilData,
                         response: Option<seq<Prediction>>, noise: seq<real>, retryNoise: seq<real>)
    requires |noise| >= TopCount && |retryNoise| >= TopCount
    requires response.None? || response.value == []
    ensures AllKnown(crops, data) ==>
      Outcome(data, crops, s, response, noise, retryNoise) == Resolved(Recommend(data, crops, s, noise).value)
    ensures !AllKnown(crops, data) ==> Outcome(data, crops, s, response, noise, retryNoise) == NeverResolves
  {
    RecommendFailsIffUnknown(data, crops, s, noise);
    RecommendFailsIffUnknown(data, crops, s, retryNoise);
  }

  /** The promise never settles exactly when there are no predictions and some crop lacks a profile. */
  lemma NeverResolvesIff(data: map<string, CropInfo>, crops: seq<string>, s: SoilData,
                         response: Option<seq<Prediction>>, noise: seq<real>, retryNoise: seq<real>)
    requires |noise| >= TopCount && |retryNoise| >= TopCount
    ensures Outcome(data, crops, s, response, noise, retryNoise) == NeverResolves <==>
      (response.None? || response.value == []) && !AllKnown(crops, data)
  {
    if response.None? || response.value == [] {
      OutcomeFallsBack(data, crops, s, response, noise, retryNoise);
    }
  }

  /** With the shipped crop list, a failed or empty external answer leaves the promise pending forever. */
  lemma ShippedFallbackNeverResolves(s: SoilData, response: Option<seq<Prediction>>,
                                     noise: seq<real>, retryNoise: seq<real>)
    requires |noise| >= TopCount && |retryNoise| >= TopCount
    requires response.None? || response.value == []
    ensures Outcome(CropData, Crops, s, response, noise, retryNoise) == NeverResolves
  {
    ShippedCatalogLacksData();
    NeverResolvesIff(CropData, Crops, s, response, noise, retryNoise);
  }

  /** With the repaired crop list, the fallback settles with the three best local recommendations. */
  lemma RepairedFallbackResolves(s: SoilData, response: Option<seq<Prediction>>,
                                 noise: seq<real>, retryNoise: seq<real>)
    requires |noise| >= TopCount && |retryNoise| >= TopCount
    requires response.None? || response.value == []
    ensures Recommend(CropData, RepairedCrops, s, noise).Success?
    ensures var o := Outcome(CropData, RepairedCrops, s, response, noise, retryNoise);
      o.Resolved? && |o.recs| == TopCount && o.recs == Recommend(CropData, RepairedCrops, s, noise).value
  {
    RepairedCropsAllKnown();
    OutcomeFallsBack(CropData, RepairedCrops, s, response, noise, retryNoise);
    RecommendLength(CropData, RepairedCrops, s, noise);
  }
}
