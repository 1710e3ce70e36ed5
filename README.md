# GrowGenius core, modelled in Dafny

This project models the deterministic core of the GrowGenius crop and plant-disease
advisor. It covers three parts.

- **Crop recommendation service.** This is `src/services/recommendationService.ts`.
  - The weighted relative-deviation suitability score runs over seven soil and climate readings.
  - A memo cache sits in front of the scorer. It is a class that owns a map from (crop, sample) to score.
  - The local ranking scores every catalog id through the cache. It sorts the scores in place, stably and by descending score. It then projects the first three onto catalog metadata with a randomised confidence.
  - The mapping of external predictions into recommendations.
  - The choice between the external list and the local ranking once the debounce timer fires.
- **Disease detection service.** This is `src/services/diseaseDetectionService.ts`.
  - The disease database.
  - The two loops that collect candidate disease ids from keyword groups that match the lower-cased file name.
  - The random pick among the candidates, or among a weighted list of all database ids when there are none.
- **Results card.** This is `src/components/ResultsCard.tsx`.
  - `formatCropName`.
  - The per-field "within 20% of ideal" test and the rows it is shown for.
  - The alternatives list with its fertilizer badges.

Files:

- `wrappers.dfy`: Option and Result.
- `soil.dfy`: the soil sample, the partial ideal vector and the form's slider ranges.
- `text.dfy`: ASCII case mapping and substring search.
- `crop_catalog.dfy`: `CROPS` and `CROP_DATA`.
- `scoring.dfy`: the pure score.
- `score_cache.dfy`: the cache class.
- `score_sort.dfy`: the in-place stable sort on an array, with its functional specification.
- `ranking.dfy`: `getRecommendation`.
- `recommend_async.dfy`: the external mapping and `getRecommendationAsync`.
- `disease_db.dfy` and `disease_detection.dfy`.
- `results_card.dfy`.

Parameters stand in for the outside world:

- Every `Math.random()` draw is a parameter. The ranking takes a sequence `noise` of draws in [0, 1), one per returned entry. The detector takes one draw `rand`.
- The HTTP exchange is the parameter `response`: `None` for a failed request, a non-OK status or an unusable body, otherwise the parsed predictions.

In one place the code's comment promises more than its statement does, and the model follows the statement. The catch block of the timer callback (`recommendationService.ts` lines 896-899) is commented "Always provide a result even if errors occur". Its statement, `resolve(getRecommendation(soilData))` at line 899, calls `getRecommendation` on the shipped `CROPS` a second time, which throws again, so the promise never settles. See "## Findings".

Only the local confidence is capped (`Math.min(99, ...)`, line 862). The external one (`prediction.confidence * 100`, line 831) is passed on unchanged.

## Model

| member | source | states |
|---|---|---|
| Scoring.Denominator | src/services/recommendationService.ts:764-770 | the divisor is never zero, and it is 1 when the ideal value is absent or 0 |
| Scoring.Deviation | src/services/recommendationService.ts:764-770 | a field's relative deviation is non-negative, and it is zero exactly when the reading equals the target (the ideal, or 0 when the ideal is absent) |
| Scoring.Weight | src/services/recommendationService.ts:773-781 | every field weight is positive |
| Scoring.SuitabilityScore | src/services/recommendationService.ts:784 | the clamped score lies in [0, 100] |
| Scoring.ZeroIdealUsesRawReading | src/services/recommendationService.ts:764-770 | with an absent or zero ideal, the deviation is the absolute reading (target 0, denominator 1) |
| Scoring.TotalDeviationZeroIffOnTarget | src/services/recommendationService.ts:764-781 | the weighted total is zero exactly when every field is on its target |
| Scoring.ScoreIsHundredIffOnTarget | src/services/recommendationService.ts:764-784 | the score is 100 exactly when all seven fields are on target |
| Scoring.ExactSampleScoresHundred | src/services/recommendationService.ts:764-784 | a sample equal to a complete ideal vector scores exactly 100 |
| Scoring.RiceSampleScoresHundred | src/services/recommendationService.ts:73-79 | rice's own ideal vector, taken as the sample, scores 100 against rice |
| Scoring.TotalDeviationOneField | src/services/recommendationService.ts:773-781 | changing one field changes the total by that field's weight times the change in its deviation |
| Scoring.MovingAwayNeverRaisesScore | src/services/recommendationService.ts:764-784 | with the other fields fixed, moving one field no closer to its target never raises the score |
| SuitabilityCache.ScoreCache.constructor | src/services/recommendationService.ts:750-751 | the scorer starts with an empty memo over the given profile table |
| SuitabilityCache.ScoreCache.Score | src/services/recommendationService.ts:753-790 | the answer is the uncached formula, and an unknown crop fails; a hit changes nothing; a miss stores exactly the computed score; entries are never removed or overwritten; every entry stays equal to the formula |
| ScoreSort.InsertMultiset | src/services/recommendationService.ts:857 | one insertion step adds exactly the inserted entry |
| ScoreSort.InsertSorted | src/services/recommendationService.ts:857 | inserting into a descending list keeps it descending |
| ScoreSort.InsertStable | src/services/recommendationService.ts:857 | the inserted entry goes after every entry of equal score |
| ScoreSort.SortDescPermutes | src/services/recommendationService.ts:857 | the sorted list is a permutation of the input |
| ScoreSort.SortDescSorted | src/services/recommendationService.ts:857 | the sorted list is non-increasing by score |
| ScoreSort.SortDescStable | src/services/recommendationService.ts:857 | entries with equal scores keep their input order |
| ScoreSort.SortDescKeepsFirstBest | src/services/recommendationService.ts:857 | when the first entry has the highest score, it stays first |
| ScoreSort.ShiftLower | src/services/recommendationService.ts:857 | the inner loop moves the entries that score below the inserted one up by one slot, and leaves the rest of the array as it was |
| ScoreSort.InsertInPlace | src/services/recommendationService.ts:857 | the array's prefix becomes the sorted insertion of its next entry |
| ScoreSort.SortByScore | src/services/recommendationService.ts:857 | the array ends as the stable descending sort of its old contents |
| Ranking.FirstUnknown | src/services/recommendationService.ts:761 | the first catalog id without a profile is found exactly when some id lacks one, and it is such an id |
| Ranking.RecommendFailsIffUnknown | src/services/recommendationService.ts:851-869 | the local ranking fails exactly when some catalog id has no profile, and it names such an id |
| Ranking.RecommendLength | src/services/recommendationService.ts:860 | with every id known, the result has min(3, number of ids) entries |
| Ranking.RecommendIsPrefixOfRanked | src/services/recommendationService.ts:857-860 | the result's crops and scores are the first entries of the sorted score list |
| Ranking.RecommendSorted | src/services/recommendationService.ts:857-860 | the result is non-increasing by suitability score |
| Ranking.RecommendFromCatalog | src/services/recommendationService.ts:860-869 | each entry is a catalog crop with its formula score and its capped confidence; fertilizers, description, ideal conditions, season and growth duration are copied from its profile |
| Ranking.RecommendFirstIsBest | src/services/recommendationService.ts:851-860 | the first entry scores at least as high as every catalog crop |
| Ranking.RecommendTiesInCatalogOrder | src/services/recommendationService.ts:857 | among the returned entries, equal scores appear in catalog order |
| Ranking.RecommendIdsFromCatalog | src/services/recommendationService.ts:851-860 | the returned ids are drawn from the catalog with multiplicity; with at most three ids, all of them are returned |
| Ranking.DuplicateRankedTwice | src/services/recommendationService.ts:849-870 | for any catalog listing an id at two positions, where that id outscores every other id, the ranking succeeds and puts the id first and second; repeated ids are not merged (as for `pearl_millet` at lines 36 and 63) |
| Ranking.TwoBestInFront | src/services/recommendationService.ts:857 | in a descending list holding an entry twice, where every other crop scores lower, the first two places go to that crop |
| Ranking.RecommendIgnoresNoiseForRanking | src/services/recommendationService.ts:857-862 | the random draws change only the confidence, never the chosen crops or their scores |
| Ranking.ConfidenceBounds | src/services/recommendationService.ts:862 | the confidence is at most 99, at least 0.9 times the score, and below 0.9 times the score plus 10 |
| Ranking.FirstUnknownAfterKnown | src/services/recommendationService.ts:761 | after a prefix of known ids, the first id without a profile is the next one that lacks it |
| Ranking.ShippedRankingNeverCompletes | src/services/recommendationService.ts:761 | over the shipped `CROPS`, the local ranking fails on `pigeon_pea` |
| Ranking.FirstBestRankedFirst | src/services/recommendationService.ts:857-860 | a best-scoring crop at the head of the catalog is ranked first |
| Ranking.RepairedRankingPutsRiceFirst | src/services/recommendationService.ts:851-869 | over the repaired catalog, rice's own ideal vector ranks rice first with score 100 |
| Ranking.ScoreAll | src/services/recommendationService.ts:851-855 | scoring the catalog through the cache gives each crop its formula score in catalog order, or stops at the first crop without a profile, which it names; the memo ends as the request-by-request memoisation of the ids before that crop, so its key set gains exactly their (crop, sample) keys; old entries keep their values and every entry stays the formula's |
| Ranking.ScoreInto | src/services/recommendationService.ts:852-855 | one step of the map: it succeeds exactly when the id has a profile; the memo advances by one request; on success the slot holds the id with its formula score and no other slot changes; on failure the memo is unchanged |
| Ranking.ScoredUpTo | src/services/recommendationService.ts:851-855 | after the first `i` ids were scored and id `i` (if any) has no profile: `i` is the known prefix, the memo holds only formula scores and gained exactly those ids' keys, the first unknown id is id `i`, and with all ids scored the list equals `Scores` |
| Ranking.KnownPrefix | src/services/recommendationService.ts:761 | the length of the longest prefix of ids that all have a profile: every id before it is known and the id at it is not |
| Ranking.MemoAfterKeys | src/services/recommendationService.ts:757-788 | requesting known ids one after another adds exactly their (crop, sample) keys to the memo |
| Ranking.MemoAfterStored | src/services/recommendationService.ts:757-788 | a run of memoised requests keeps every stored score equal to the formula and never drops or changes an entry |
| Ranking.GetRecommendation | src/services/recommendationService.ts:849-870 | the imperative ranking (cache, in-place sort, top-3 projection) equals the functional `Recommend`; the cache keeps its entries and every entry stays the formula's; its key set gains exactly the keys of the ids scored before the first id without a profile (all ids when every id is known) |
| RecommendAsync.MapPredictions | src/services/recommendationService.ts:821-839 | there is one recommendation per prediction, in order, with the crop name lower-cased |
| RecommendAsync.ExternalRecommendations | src/services/recommendationService.ts:794-847 | a list comes back exactly when the exchange succeeded, and it has one entry per prediction |
| RecommendAsync.MapPredictionProfile | src/services/recommendationService.ts:822-838 | the name is lower-cased and the fractions are scaled by 100; a known crop carries its profile; an unknown one gets exactly the placeholder description "A versatile crop suitable for your conditions.", the single fertilizer `General purpose fertilizer`, no ideal conditions, and no season or growth duration |
| RecommendAsync.MapPredictionIgnoresCase | src/services/recommendationService.ts:822-824 | predictions whose names differ only in letter case map to the same recommendation |
| RecommendAsync.RecommendAsync | src/services/recommendationService.ts:883-903 | the timer callback settles as `Outcome` says; a non-empty external list leaves the cache exactly as it was; otherwise the cache keeps its entries and its key set gains exactly the keys of the ids scored before the first id without a profile |
| RecommendAsync.OutcomeUsesExternal | src/services/recommendationService.ts:888-890 | a non-empty external list is used as it is |
| RecommendAsync.OutcomeFallsBack | src/services/recommendationService.ts:891-899 | without predictions, the promise settles with the local ranking when every crop is known, and it never settles otherwise |
| RecommendAsync.NeverResolvesIff | src/services/recommendationService.ts:883-903 | the promise never settles exactly when there are no predictions and some catalog id lacks a profile |
| RecommendAsync.ShippedFallbackNeverResolves | src/services/recommendationService.ts:891-899 | with the shipped `CROPS`, a failed or empty external answer leaves the promise pending forever |
| RecommendAsync.RepairedFallbackResolves | src/services/recommendationService.ts:891-899 | with the repaired catalog, the fallback settles with three local recommendations |
| CropCatalog.ShippedCatalogLacksData | src/services/recommendationService.ts:26-63 | the shipped list has 99 ids; `pigeon_pea` (index 92) and `black_gram` (index 94) have no profile, so not every id is known |
| CropCatalog.ShippedCatalogRepeatsPearlMillet | src/services/recommendationService.ts:36-63 | `pearl_millet` is listed at index 28 and again at index 90, so index 28 is not its only place |
| CropCatalog.RepairedCropsAllKnown | src/services/recommendationService.ts:26-67 | the list without the two missing ids and the second `pearl_millet` has 96 ids, each with a profile |
| CropCatalog.RepairedCropsPearlMilletOnce | src/services/recommendationService.ts:36-63 | in the repaired list `pearl_millet` sits at index 28 and at no other index |
| CropCatalog.RepairedCropsMendsCatalog | src/services/recommendationService.ts:26-67 | the repaired list has 96 ids, each with a profile, and `pearl_millet` occurs once, at index 28 |
| CropCatalog.RiceProfile | src/services/recommendationService.ts:73-79 | rice comes first and has the ideal vector (80, 40, 40, 25, 80, 6.5, 200) |
| Soil.With | src/services/recommendationService.ts:764-770 | setting one field changes that field and no other |
| Soil.DefaultSampleInFormRange | src/context/RecommendationContext.tsx:16-24 | the default sample lies within every slider range of the form |
| DiseaseDatabase.DiseaseIdsDistinct | src/services/diseaseDetectionService.ts:15-298 | the database declares 16 distinct ids |
| DiseaseDatabase.DatabaseKeysAreIds | src/services/diseaseDetectionService.ts:15-298 | the keys of the database are exactly the declared ids |
| DiseaseDatabase.DatabaseKeys | src/services/diseaseDetectionService.ts:15-298 | every declared id is a key, and there are 16 keys |
| DiseaseDatabase.ConfidenceRange | src/services/diseaseDetectionService.ts:18-284 | every entry's confidence lies in [88, 98] |
| DiseaseDetection.PickIndex | src/services/diseaseDetectionService.ts:356-374 | `Math.floor(rand * n)` with rand in [0, 1) is a valid index |
| DiseaseDetection.CollectMembers | src/services/diseaseDetectionService.ts:342-353 | an id is collected exactly when some matching group lists it |
| DiseaseDetection.PlantKeywordsKnown | src/services/diseaseDetectionService.ts:316-327 | every disease of the plant keyword table is a database key |
| DiseaseDetection.DiseaseKeywordsKnown | src/services/diseaseDetectionService.ts:330-339 | every disease of the disease keyword table is a database key |
| DiseaseDetection.CandidatesKnown | src/services/diseaseDetectionService.ts:342-353 | every candidate is a database key |
| DiseaseDetection.WeightedKnown | src/services/diseaseDetectionService.ts:361-371 | the weighted list has 26 entries, each a database key |
| DiseaseDetection.WeightedCounts | src/services/diseaseDetectionService.ts:361-371 | `healthy` appears 4 times and `powdery_mildew` 3 times in the weighted list |
| DiseaseDetection.SelectKnown | src/services/diseaseDetectionService.ts:356-376 | the selected id is always a database key |
| DiseaseDetection.SelectSource | src/services/diseaseDetectionService.ts:357-374 | with candidates, the pick is one of them; without any, it comes from the weighted list |
| DiseaseDetection.DetectCaseInsensitive | src/services/diseaseDetectionService.ts:308 | file names that differ only in letter case give the same result |
| DiseaseDetection.DetectConfidence | src/services/diseaseDetectionService.ts:376 | the returned entry's confidence lies in [88, 98] |
| DiseaseDetection.SubstringMatching | src/services/diseaseDetectionService.ts:342-353 | matching is by substring: a name with "leaf spot" also contains "spot", and "tomatoes" matches the tomato group |
| DiseaseDetection.RepeatsKept | src/services/diseaseDetectionService.ts:342-353 | a name matching both "tomato" and "blight" lists `tomato_late_blight` at least twice |
| DiseaseDetection.DetectDisease | src/services/diseaseDetectionService.ts:308-376 | the two loops and the selection return the entry `Detect` specifies, with its confidence in [88, 98] |
| ResultsCard.Split | src/components/ResultsCard.tsx:26 | splitting yields at least one piece |
| ResultsCard.SplitPiecesLackSep | src/components/ResultsCard.tsx:26 | no piece contains the separator |
| ResultsCard.JoinSplit | src/components/ResultsCard.tsx:26-28 | joining the pieces with the separator gives back the text |
| ResultsCard.SplitJoin | src/components/ResultsCard.tsx:26-28 | splitting a join of separator-free words gives back the words |
| ResultsCard.FormatCropNameCharwise | src/components/ResultsCard.tsx:24-29 | the output has the input's length; each `_` becomes a space; the first character of each segment is upper-cased; every other character is unchanged; no `_` remains |
| ResultsCard.FormatCropNameWords | src/components/ResultsCard.tsx:24-29 | for a name without spaces, the output's space-separated words are the capitalised `_`-separated segments, one per segment |
| ResultsCard.FormatTwoWords | src/components/ResultsCard.tsx:24-29 | two segments joined by `_` display as the two capitalised words joined by a space |
| ResultsCard.PearlMilletDisplay | src/components/ResultsCard.tsx:24-29 | `pearl_millet` displays as `Pearl Millet` |
| ResultsCard.PercentDiff | src/components/ResultsCard.tsx:97-98 | the percentage is non-negative for a positive ideal, and 0 for an exact match or a zero ideal |
| ResultsCard.IsCloseIff | src/components/ResultsCard.tsx:97-99 | for a positive ideal, a reading is close exactly when it is within a fifth of the ideal |
| ResultsCard.RowsForFaithful | src/components/ResultsCard.tsx:95-99 | every row is a listed field present in the ideal vector, with its current reading and closeness; every such field gets a row |
| ResultsCard.IdealRowsFaithful | src/components/ResultsCard.tsx:95-99 | the rows are exactly the fields of the ideal vector, each with its reading and closeness |
| ResultsCard.IdealRowsCount | src/components/ResultsCard.tsx:95 | an empty ideal vector gives no rows; a complete one gives seven |
| ResultsCard.Alternatives | src/components/ResultsCard.tsx:156 | the alternatives are every recommendation after the first, in order |
| ResultsCard.AlternativesScoreNoMore | src/components/ResultsCard.tsx:156 | no alternative scores above the top recommendation |
| ResultsCard.FertilizerBadges | src/components/ResultsCard.tsx:188-197 | at most the first two fertilizers are shown; a "+k more" badge appears exactly when there are more than two; shown plus k is the full count |
| Text.ToLowerEqualIff | src/services/diseaseDetectionService.ts:308 | two strings lower-case to the same text exactly when they differ only in letter case |
| Text.ContainsIff | src/services/diseaseDetectionService.ts:343-350 | `includes` holds exactly when the word occurs at some index |

## Left out

- The HTTP `fetch`, response parsing and `console` logging of `fetchExternalRecommendation`, and the `console.log` (line 893) and `console.error` (line 897) of `getRecommendationAsync`. The outcome of the exchange is the input `response`; logging has no effect on the result.
- The debounce timer and the module-level `timeoutId` of `getRecommendationAsync`. When a second call clears a pending timer, the first promise never settles. That is not modelled. The model starts where the timer fires.
- The two-second `setTimeout` of `detectDiseaseAsync`, and the image file's type and size, which the code reads but never uses.
- `Math.random()`: each draw is a parameter in [0, 1).
- IEEE-754 arithmetic. Scores, deviations and percentages are exact reals, so rounding and `NaN` from non-numeric inputs are not captured.
- The cache key text `${crop}-${JSON.stringify(soilData)}`: the model keys the memo by the pair (crop, sample), so equal readings always hit. In the source the text also depends on the order of the sample's properties and on any extra properties it carries, so equal readings can give different keys and miss the cache; the score returned is the same either way, but the model's memo may hold fewer entries than the source's.
- `toLowerCase` / `toUpperCase` cover the ASCII letters only.
- Property lookups through the object prototype chain (for example, a crop named `constructor`) are not modelled. A name is known exactly when it is a key of `CROP_DATA`.
- `Math.round` of the displayed percentages, and all React rendering, styling, icons and animations.
- CropCatalog.RepairedCropsMendsCatalog: shows that the repaired list has a profile for every id and lists `pearl_millet` only once. It does not prove that all 96 ids are pairwise distinct. That would mean comparing about 4,500 pairs of string literals, which is beyond the solver's budget.
- No bound is stated on an external recommendation's confidence or score. The code scales the service's fractions by 100 and checks nothing, and the model does not assume the service keeps them in [0, 1].

## Findings

| source | as written | input that shows it | evidently intended | confidence | as-written member | corrected member |
|---|---|---|---|---|---|---|
| src/services/recommendationService.ts:63,761 | `CROPS` lists `pigeon_pea` and `black_gram`, which have no `CROP_DATA` entry, so scoring `pigeon_pea` dereferences `undefined` and `getRecommendation` throws | any soil sample | every listed crop has a profile, so the local ranking returns three recommendations | not executed | Ranking.ShippedRankingNeverCompletes | Ranking.RepairedRankingPutsRiceFirst |
| src/services/recommendationService.ts:891-899 | after an empty or failed external answer, the fallback calls `getRecommendation`, which throws; the catch block calls it again and it throws again inside the timer callback, so `resolve` is never reached | a failed request, with any soil sample | the fallback always settles with the local top three | not executed | RecommendAsync.ShippedFallbackNeverResolves | RecommendAsync.RepairedFallbackResolves |
| src/services/recommendationService.ts:26-67 | the shipped list has 99 ids: two without profiles, and `pearl_millet` twice | the list itself | `pearl_millet` listed once and every id has a profile | not executed | CropCatalog.ShippedCatalogLacksData | CropCatalog.RepairedCropsMendsCatalog |
