/**
 * The local ranking `getRecommendation` (recommendationService.ts lines
 * 849-870): score every catalog id with the cached scorer, sort the scores in
 * place by descending score, keep the first three and attach each one's
 * profile. `Recommend` is the specification; `GetRecommendation` computes it
 * with the cache and the in-place sort.
 */
module Ranking {
  import opened Wrappers
  import opened Soil
  import opened CropCatalog
  import opened Scoring
  import opened SuitabilityCache
  import opened ScoreSort

  /** `CropRecommendation`: one ranked crop with its profile attached. */
  datatype CropRecommendation = CropRecommendation(
    crop: string,
    confidence: real,
    suitabilityScore: real,
    fertilizers: seq<string>,
    description: string,
    idealConditions: PartialSoil,
    season: Option<string>,
    growthDuration: Option<string>)

  function MinNat(a: nat, b: nat): nat
  {
    if a <= b then a else b
  }

  /** How many entries `scores.slice(0, 3)` keeps. */
  const TopCount: nat := 3

  /**
   * The first id of `ids` without a profile: the id at which `CROPS.map`
   * throws, the earlier ones having been scored.
   */
  function FirstUnknown(ids: seq<string>, data: map<string, CropInfo>): (r: Option<string>)
    ensures r.None? <==> AllKnown(ids, data)
    ensures r.Some? ==> r.value in ids && r.value !in data
  {
    if ids == [] then None
    else if ids[0] !in data then Some(ids[0])
    else
      var r := FirstUnknown(ids[1..], data);
      assert r.None? ==> forall i :: 1 <= i < |ids| ==> ids[i] == ids[1..][i - 1];
      r
  }

  /**
   * How many leading ids of `ids` have a profile: the ids `CROPS.map` scores
   * before it throws, or all of them.
   */
  function KnownPrefix(ids: seq<string>, data: map<string, CropInfo>): (n: nat)
    ensures n <= |ids|
    ensures forall k :: 0 <= k < n ==> ids[k] in data
    ensures n < |ids| ==> ids[n] !in data
  {
    if ids == [] || ids[0] !in data then 0
    else
      var n := 1 + KnownPrefix(ids[1..], data);
      assert forall k :: 1 <= k < n ==> ids[k] == ids[1..][k - 1];
      n
  }

  /** The known prefix ends at the first id without a profile, or at the end. */
  lemma KnownPrefixIs(ids: seq<string>, data: map<string, CropInfo>, n: nat)
    requires n <= |ids| && forall k :: 0 <= k < n ==> ids[k] in data
    requires n < |ids| ==> ids[n] !in data
    ensures KnownPrefix(ids, data) == n
  {
  }

  /** The cache keys for the first `n` ids of `crops` and the sample `s`. */
  function ScoredKeys(crops: seq<string>, s: SoilData, n: nat): set<(string, SoilData)>
    requires n <= |crops|
  {
    if n == 0 then {} else ScoredKeys(crops, s, n - 1) + {(crops[n - 1], s)}
  }

  /** A key is in `ScoredKeys` exactly when it pairs one of the first `n` ids with `s`. */
  lemma {:induction false} ScoredKeysMembers(crops: seq<string>, s: SoilData, n: nat)
    requires n <= |crops|
    ensures forall key :: key in ScoredKeys(crops, s, n) <==> key.1 == s && exists k :: 0 <= k < n && crops[k] == key.0
  {
    if n > 0 {
      ScoredKeysMembers(crops, s, n - 1);
    }
  }

  /** The memo after asking, in order, for the first `n` ids of `ids` and the sample `s`. */
  function MemoAfter(entries: map<(string, SoilData), real>, data: map<string, CropInfo>, ids: seq<string>, s: SoilData, n: nat)
    : map<(string, SoilData), real>
    requires n <= |ids|
  {
    if n == 0 then entries
    else Memoize(MemoAfter(entries, data, ids, s, n - 1), data, ids[n - 1], s)
  }

  /** Asking for the first `n` ids, all of them known, adds exactly their keys to the memo. */
  lemma {:induction false} MemoAfterKeys(entries: map<(string, SoilData), real>, data: map<string, CropInfo>,
                                         crops: seq<string>, s: SoilData, n: nat)
    requires n <= |crops| && forall k :: 0 <= k < n ==> crops[k] in data
    ensures MemoAfter(entries, data, crops, s, n).Keys == entries.Keys + ScoredKeys(crops, s, n)
  {
    if n > 0 {
      MemoAfterKeys(entries, data, crops, s, n - 1);
    }
  }

  /** The `scores` array before sorting: each id with its uncached score, in catalog order. */
  function Scores(data: map<string, CropInfo>, crops: seq<string>, s: SoilData): seq<CropScore>
    requires AllKnown(crops, data)
  {
    seq(|crops|, i requires 0 <= i < |crops| =>
      CropScore(crops[i], SuitabilityScore(s, data[crops[i]].idealConditions)))
  }

  /** The `scores` array after `sort`. */
  function Ranked(data: map<string, CropInfo>, crops: seq<string>, s: SoilData): seq<CropScore>
    requires AllKnown(crops, data)
  {
    SortDesc(Scores(data, crops, s))
  }

  /**
   * `Math.min(99, suitabilityScore * 0.9 + Math.random() * 10)`, with `rand`
   * standing for the value `Math.random()` returned.
   */
  function Confidence(score: real, rand: real): real
  {
    var c := score * 0.9 + rand * 10.0;
    if c <= 99.0 then c else 99.0
  }

  /** The record built for one ranked entry: its score, a confidence and its `CROP_DATA` profile. */
  function Project(data: map<string, CropInfo>, e: CropScore, rand: real): CropRecommendation
    requires e.crop in data
  {
    var info := data[e.crop];
    CropRecommendation(e.crop, Confidence(e.suitabilityScore, rand), e.suitabilityScore,
      info.fertilizers, info.description, info.idealConditions, info.season, info.growthDuration)
  }

  /** `slice(0, 3).map(...)`: `noise[i]` is the random draw for the `i`-th kept entry. */
  function Top(data: map<string, CropInfo>, ranked: seq<CropScore>, noise: seq<real>): seq<CropRecommendation>
    requires forall i :: 0 <= i < |ranked| ==> ranked[i].crop in data
    requires |noise| >= TopCount
  {
    seq(MinNat(TopCount, |ranked|), i requires 0 <= i < MinNat(TopCount, |ranked|) =>
      Project(data, ranked[i], noise[i]))
  }

  /** The ids of a sequence of scores, in order. */
  function CropIds(xs: seq<CropScore>): seq<string>
  {
    seq(|xs|, i requires 0 <= i < |xs| => xs[i].crop)
  }

  /** Each recommendation reduced to the `{ crop, suitabilityScore }` pair it was built from. */
  function AsScores(recs: seq<CropRecommendation>): seq<CropScore>
  {
    seq(|recs|, i requires 0 <= i < |recs| => CropScore(recs[i].crop, recs[i].suitabilityScore))
  }

  /** Sorting keeps every id's profile available. */
  lemma RankedKnown(data: map<string, CropInfo>, crops: seq<string>, s: SoilData)
    requires AllKnown(crops, data)
    ensures |Ranked(data, crops, s)| == |crops|
    ensures forall i :: 0 <= i < |Ranked(data, crops, s)| ==> Ranked(data, crops, s)[i].crop in data
  {
    var xs := Scores(data, crops, s);
    var ranked := Ranked(data, crops, s);
    SortDescPermutes(xs);
    forall i | 0 <= i < |ranked| ensures ranked[i].crop in data {
      assert ranked[i] in multiset(xs);
      var k :| 0 <= k < |xs| && xs[k] == ranked[i];
    }
  }

  /**
   * What `getRecommendation` returns for the catalog `crops` over the profile
   * table `data`: the throw of the first unknown id, or the top entries of the
   * sorted scores with their profiles attached.
   */
  function Recommend(data: map<string, CropInfo>, crops: seq<string>, s: SoilData, noise: seq<real>)
    : Result<seq<CropRecommendation>, ScoreError>
    requires |noise| >= TopCount
  {
    match FirstUnknown(crops, data)
    case Some(c) => Failure(UnknownCrop(c))
    case None =>
      RankedKnown(data, crops, s);
      Success(Top(data, Ranked(data, crops, s), noise))
  }

  /** The ranking throws exactly when some catalog id lacks a profile, naming the first such id. */
  lemma RecommendFailsIffUnknown(data: map<string, CropInfo>, crops: seq<string>, s: SoilData, noise: seq<real>)
    requires |noise| >= TopCount
    ensures Recommend(data, crops, s, noise).Failure? <==> !AllKnown(crops, data)
    ensures Recommend(data, crops, s, noise).Failure? ==>
      Recommend(data, crops, s, noise).error.crop in crops &&
      Recommend(data, crops, s, noise).error.crop !in data
  {
  }

  /** When `ids[i]` is the first id without a profile, `FirstUnknown` names it. */
  lemma {:induction false} FirstUnknownAt(ids: seq<string>, data: map<string, CropInfo>, i: nat)
    requires i < |ids| && ids[i] !in data
    requires forall k :: 0 <= k < i ==> ids[k] in data
    ensures FirstUnknown(ids, data) == Some(ids[i])
  {
    if i > 0 {
      FirstUnknownAt(ids[1..], data, i - 1);
    }
  }

  /** The successful result is `Top` of the ranked scores; the lemmas below start from this. */
  lemma RecommendUnfold(data: map<string, CropInfo>, crops: seq<string>, s: SoilData, noise: seq<real>)
    requires |noise| >= TopCount && AllKnown(crops, data)
    ensures Recommend(data, crops, s, noise).Success?
    ensures |Ranked(data, crops, s)| == |crops|
    ensures forall i :: 0 <= i < |Ranked(data, crops, s)| ==> Ranked(data, crops, s)[i].crop in data
    ensures Recommend(data, crops, s, noise).value == Top(data, Ranked(data, crops, s), noise)
  {
    RankedKnown(data, crops, s);
  }

  /** A successful ranking has `min(3, |CROPS|)` entries. */
  lemma RecommendLength(data: map<string, CropInfo>, crops: seq<string>, s: SoilData, noise: seq<real>)
    requires |noise| >= TopCount && AllKnown(crops, data)
    ensures Recommend(data, crops, s, noise).Success?
    ensures |Recommend(data, crops, s, noise).value| == MinNat(TopCount, |crops|)
  {
    RecommendUnfold(data, crops, s, noise);
  }

  /** The kept entries are the first ones of the sorted scores, and only their confidence is random. */
  lemma RecommendIsPrefixOfRanked(data: map<string, CropInfo>, crops: seq<string>, s: SoilData, noise: seq<real>)
    requires |noise| >= TopCount && AllKnown(crops, data)
    ensures Recommend(data, crops, s, noise).Success?
    ensures |Ranked(data, crops, s)| == |crops|
    ensures AsScores(Recommend(data, crops, s, noise).value)
         == Ranked(data, crops, s)[..MinNat(TopCount, |crops|)]
  {
    RecommendUnfold(data, crops, s, noise);
    var r := Recommend(data, crops, s, noise).value;
    var ranked := Ranked(data, crops, s);
    assert forall i :: 0 <= i < |r| ==> AsScores(r)[i] == ranked[i];
  }

  /** The successful ranking is non-increasing in score. */
  lemma RecommendSorted(data: map<string, CropInfo>, crops: seq<string>, s: SoilData, noise: seq<real>)
    requires |noise| >= TopCount && AllKnown(crops, data)
    ensures Recommend(data, crops, s, noise).Success?
    ensures var r := Recommend(data, crops, s, noise).value;
      forall i, j :: 0 <= i < j < |r| ==> r[i].suitabilityScore >= r[j].suitabilityScore
  {
    RecommendUnfold(data, crops, s, noise);
    SortDescSorted(Scores(data, crops, s));
  }

  /**
   * Every returned entry is a catalog id with its own score and with
   * fertilizers, description, ideal conditions, season and growth duration
   * copied from its profile; its confidence is `Confidence` of its score.
   */
  lemma RecommendFromCatalog(data: map<string, CropInfo>, crops: seq<string>, s: SoilData, noise: seq<real>)
    requires |noise| >= TopCount && AllKnown(crops, data)
    ensures Recommend(data, crops, s, noise).Success?
    ensures var r := Recommend(data, crops, s, noise).value;
      forall i :: 0 <= i < |r| ==>
        r[i].crop in crops && r[i].crop in data &&
        r[i].suitabilityScore == SuitabilityScore(s, data[r[i].crop].idealConditions) &&
        r[i].confidence == Confidence(r[i].suitabilityScore, noise[i]) &&
        r[i].fertilizers == data[r[i].crop].fertilizers &&
        r[i].description == data[r[i].crop].description &&
        r[i].idealConditions == data[r[i].crop].idealConditions &&
        r[i].season == data[r[i].crop].season &&
        r[i].growthDuration == data[r[i].crop].growthDuration
  {
    RecommendUnfold(data, crops, s, noise);
    var xs := Scores(data, crops, s);
    var ranked := Ranked(data, crops, s);
    var r := Recommend(data, crops, s, noise).value;
    SortDescPermutes(xs);
    forall i | 0 <= i < |r|
      ensures r[i].crop in crops
      ensures r[i].suitabilityScore == SuitabilityScore(s, data[r[i].crop].idealConditions)
    {
      assert r[i] == Project(data, ranked[i], noise[i]);
      assert ranked[i] in multiset(xs);
      var k :| 0 <= k < |xs| && xs[k] == ranked[i];
      assert crops[k] == r[i].crop;
    }
  }

  /** The first returned entry scores at least as much as every catalog id. */
  lemma RecommendFirstIsBest(data: map<string, CropInfo>, crops: seq<string>, s: SoilData, noise: seq<real>)
    requires |noise| >= TopCount && AllKnown(crops, data) && crops != []
    ensures Recommend(data, crops, s, noise).Success?
    ensures var r := Recommend(data, crops, s, noise).value;
      r != [] && forall j :: 0 <= j < |crops| ==>
        SuitabilityScore(s, data[crops[j]].idealConditions) <= r[0].suitabilityScore
  {
    RecommendUnfold(data, crops, s, noise);
    var xs := Scores(data, crops, s);
    var ranked := Ranked(data, crops, s);
    var r := Recommend(data, crops, s, noise).value;
    SortDescPermutes(xs);
    SortDescSorted(xs);
    assert r[0] == Project(data, ranked[0], noise[0]);
    forall j | 0 <= j < |crops|
      ensures SuitabilityScore(s, data[crops[j]].idealConditions) <= r[0].suitabilityScore
    {
      assert xs[j] in multiset(ranked);
      var k :| 0 <= k < |ranked| && ranked[k] == xs[j];
      if k > 0 {
        assert ranked[0].suitabilityScore >= ranked[k].suitabilityScore;
      }
    }
  }

  /**
   * Ties keep catalog order: for any score `v`, the returned entries scoring
   * `v` are the first few catalog entries scoring `v`, in catalog order.
   */
  lemma RecommendTiesInCatalogOrder(data: map<string, CropInfo>, crops: seq<string>, s: SoilData, noise: seq<real>, v: real)
    requires |noise| >= TopCount && AllKnown(crops, data)
    ensures Recommend(data, crops, s, noise).Success?
    ensures WithScore(AsScores(Recommend(data, crops, s, noise).value), v) <= WithScore(Scores(data, crops, s), v)
  {
    RecommendIsPrefixOfRanked(data, crops, s, noise);
    var xs := Scores(data, crops, s);
    var ranked := Ranked(data, crops, s);
    var m := MinNat(TopCount, |crops|);
    SortDescPermutes(xs);
    SortDescStable(xs, v);
    assert ranked == ranked[..m] + ranked[m..];
    WithScoreAppend(ranked[..m], ranked[m..], v);
  }

  /** Inserting adds `x`'s id to the multiset of ids. */
  lemma {:induction false} InsertCropIds(x: CropScore, xs: seq<CropScore>)
    ensures multiset(CropIds(Insert(x, xs))) == multiset(CropIds(xs)) + multiset{x.crop}
  {
    if xs != [] {
      assert CropIds(xs) == [xs[0].crop] + CropIds(xs[1..]);
      if xs[0].suitabilityScore >= x.suitabilityScore {
        InsertCropIds(x, xs[1..]);
        assert CropIds(Insert(x, xs)) == [xs[0].crop] + CropIds(Insert(x, xs[1..]));
      } else {
        assert CropIds(Insert(x, xs)) == [x.crop] + CropIds(xs);
      }
    }
  }

  /** Sorting keeps the multiset of ids. */
  lemma {:induction false} SortDescCropIds(xs: seq<CropScore>)
    ensures multiset(CropIds(SortDesc(xs))) == multiset(CropIds(xs))
  {
    if xs != [] {
      var init, last := xs[..|xs| - 1], xs[|xs| - 1];
      SortDescCropIds(init);
      InsertCropIds(last, SortDesc(init));
      assert CropIds(xs) == CropIds(init) + [last.crop];
    }
  }

  /**
   * The returned ids are drawn from the catalog with multiplicity: an id listed
   * twice may be returned twice, and with at most three ids every listed
   * occurrence is returned.
   */
  lemma RecommendIdsFromCatalog(data: map<string, CropInfo>, crops: seq<string>, s: SoilData, noise: seq<real>)
    requires |noise| >= TopCount && AllKnown(crops, data)
    ensures Recommend(data, crops, s, noise).Success?
    ensures multiset(CropIds(AsScores(Recommend(data, crops, s, noise).value))) <= multiset(crops)
    ensures |crops| <= TopCount ==>
      multiset(CropIds(AsScores(Recommend(data, crops, s, noise).value))) == multiset(crops)
  {
    RecommendIsPrefixOfRanked(data, crops, s, noise);
    var ranked := Ranked(data, crops, s);
    var m := MinNat(TopCount, |crops|);
    RankedIds(data, crops, s);
    CropIdsAppend(ranked[..m], ranked[m..]);
    assert ranked == ranked[..m] + ranked[m..];
    if |crops| <= TopCount {
      assert ranked[..m] == ranked;
    }
  }

  /** The ids of a concatenation are the concatenation of the ids. */
  lemma CropIdsAppend(a: seq<CropScore>, b: seq<CropScore>)
    ensures CropIds(a + b) == CropIds(a) + CropIds(b)
  {
  }

  /** The ranked entries carry the catalog's ids, each as often as listed. */
  lemma RankedIds(data: map<string, CropInfo>, crops: seq<string>, s: SoilData)
    requires AllKnown(crops, data)
    ensures multiset(CropIds(Ranked(data, crops, s))) == multiset(crops)
  {
    var xs := Scores(data, crops, s);
    SortDescCropIds(xs);
    assert CropIds(xs) == crops;
  }

  /**
   * In a non-increasing sequence where every entry not for `c` scores below
   * `v`, two copies of `CropScore(c, v)` put `c` in the first two places.
   */
  lemma TwoBestInFront(ys: seq<CropScore>, c: string, v: real)
    requires SortedDesc(ys)
    requires forall p :: 0 <= p < |ys| && ys[p].crop != c ==> ys[p].suitabilityScore < v
    requires multiset(ys)[CropScore(c, v)] >= 2
    ensures |ys| >= 2 && ys[0].crop == c && ys[1].crop == c
  {
    var e := CropScore(c, v);
    var p :| 0 <= p < |ys| && ys[p] == e;
    assert ys[0].suitabilityScore >= v;
    assert ys == [ys[0]] + ys[1..];
    assert multiset(ys[1..])[e] >= 1;
    var q :| 0 <= q < |ys[1..]| && ys[1..][q] == e;
    assert ys[1].suitabilityScore >= ys[q + 1].suitabilityScore;
  }

  /**
   * An id listed twice that outscores every other id comes back in the first
   * two places, as `pearl_millet` would in `CROPS` were it the best match: the
   * ranking does not merge repeated ids.
   */
  lemma DuplicateRankedTwice(data: map<string, CropInfo>, crops: seq<string>, s: SoilData, noise: seq<real>, i: nat, j: nat)
    requires |noise| >= TopCount && AllKnown(crops, data)
    requires i < j < |crops| && crops[i] == crops[j]
    requires forall k :: 0 <= k < |crops| && crops[k] != crops[i] ==>
      SuitabilityScore(s, data[crops[k]].idealConditions) < SuitabilityScore(s, data[crops[i]].idealConditions)
    ensures Recommend(data, crops, s, noise).Success?
    ensures var r := Recommend(data, crops, s, noise).value;
      |r| >= 2 && r[0].crop == crops[i] && r[1].crop == crops[i]
  {
    RecommendIsPrefixOfRanked(data, crops, s, noise);
    var xs := Scores(data, crops, s);
    var ranked := Ranked(data, crops, s);
    var r := Recommend(data, crops, s, noise).value;
    var v := xs[i].suitabilityScore;
    RepeatedCountsTwice(xs, i, j);
    SortDescPermutes(xs);
    SortDescSorted(xs);
    OthersRankedBelow(data, crops, s, crops[i], v);
    TwoBestInFront(ranked, crops[i], v);
    assert AsScores(r)[0] == ranked[0] && AsScores(r)[1] == ranked[1];
  }

  /** An entry found at two positions is counted at least twice. */
  lemma RepeatedCountsTwice(xs: seq<CropScore>, i: nat, j: nat)
    requires i < j < |xs| && xs[i] == xs[j]
    ensures multiset(xs)[xs[i]] >= 2
  {
    assert xs == xs[..j] + xs[j..];
    assert xs[..j][i] == xs[i] && xs[j..][0] == xs[i];
  }

  /** If every id other than `c` scores below `v`, so does every ranked entry for another id. */
  lemma OthersRankedBelow(data: map<string, CropInfo>, crops: seq<string>, s: SoilData, c: string, v: real)
    requires AllKnown(crops, data)
    requires forall k :: 0 <= k < |crops| && crops[k] != c ==> SuitabilityScore(s, data[crops[k]].idealConditions) < v
    ensures forall p :: 0 <= p < |Ranked(data, crops, s)| && Ranked(data, crops, s)[p].crop != c ==>
      Ranked(data, crops, s)[p].suitabilityScore < v
  {
    var xs := Scores(data, crops, s);
    var ranked := Ranked(data, crops, s);
    SortDescPermutes(xs);
    forall p | 0 <= p < |ranked| && ranked[p].crop != c
      ensures ranked[p].suitabilityScore < v
    {
      assert ranked[p] in multiset(xs);
      var k :| 0 <= k < |xs| && xs[k] == ranked[p];
    }
  }

  /** The random draws change only the confidences: ids, scores and order do not depend on them. */
  lemma RecommendIgnoresNoiseForRanking(data: map<string, CropInfo>, crops: seq<string>, s: SoilData, noise1: seq<real>, noise2: seq<real>)
    requires |noise1| >= TopCount && |noise2| >= TopCount && AllKnown(crops, data)
    ensures Recommend(data, crops, s, noise1).Success? && Recommend(data, crops, s, noise2).Success?
    ensures AsScores(Recommend(data, crops, s, noise1).value) == AsScores(Recommend(data, crops, s, noise2).value)
  {
    RecommendIsPrefixOfRanked(data, crops, s, noise1);
    RecommendIsPrefixOfRanked(data, crops, s, noise2);
  }

  /** The confidence never exceeds 99, and with a draw in [0, 1) it is at least 0.9 times the score. */
  lemma ConfidenceBounds(score: real, rand: real)
    requires 0.0 <= score <= 100.0 && 0.0 <= rand < 1.0
    ensures score * 0.9 <= Confidence(score, rand) <= 99.0
    ensures Confidence(score, rand) < score * 0.9 + 10.0
  {
  }

  /** After a prefix of known ids, an unknown id is the one the ranking throws at. */
  lemma FirstUnknownAfterKnown(ids: seq<string>, data: map<string, CropInfo>, known: seq<string>, rest: seq<string>)
    requires ids == known + rest && AllKnown(known, data)
    requires rest != [] && rest[0] !in data
    ensures FirstUnknown(ids, data) == Some(rest[0])
  {
    assert ids[|known|] == rest[0];
    assert forall k :: 0 <= k < |known| ==> ids[k] == known[k];
    FirstUnknownAt(ids, data, |known|);
  }

  /** Over the shipped tables the ranking always throws, at `'pigeon_pea'`, whatever the sample. */
  lemma ShippedRankingNeverCompletes(s: SoilData, noise: seq<real>)
    requires |noise| >= TopCount
    ensures Recommend(CropData, Crops, s, noise) == Failure(UnknownCrop("pigeon_pea"))
  {
    UnknownIdsLackData();
    ShippedKnownPrefix();
    FirstUnknownAfterKnown(Crops, CropData, LeadingGroups + CropsOther[..2], CropsOther[2..]);
  }

  /**
   * A catalog whose first id scores at least as much as every other id gets
   * that id back first: the sort is stable, so no later id of equal score
   * overtakes it.
   */
  lemma FirstBestRankedFirst(data: map<string, CropInfo>, crops: seq<string>, s: SoilData, noise: seq<real>)
    requires |noise| >= TopCount && AllKnown(crops, data) && crops != []
    requires forall j :: 0 <= j < |crops| ==>
      SuitabilityScore(s, data[crops[j]].idealConditions) <= SuitabilityScore(s, data[crops[0]].idealConditions)
    ensures Recommend(data, crops, s, noise).Success?
    ensures var r := Recommend(data, crops, s, noise).value;
      r != [] && r[0].crop == crops[0] &&
      r[0].suitabilityScore == SuitabilityScore(s, data[crops[0]].idealConditions)
  {
    var xs := Scores(data, crops, s);
    RecommendIsPrefixOfRanked(data, crops, s, noise);
    var r := Recommend(data, crops, s, noise).value;
    SortDescKeepsFirstBest(xs);
    assert AsScores(r)[0] == Ranked(data, crops, s)[0];
  }

  /** With the repaired catalog, rice's own ideal vector ranks rice first, scoring 100. */
  lemma RepairedRankingPutsRiceFirst(noise: seq<real>)
    requires |noise| >= TopCount
    ensures Recommend(CropData, RepairedCrops, RiceSample, noise).Success?
    ensures var r := Recommend(CropData, RepairedCrops, RiceSample, noise).value;
      r != [] && r[0].crop == "rice" && r[0].suitabilityScore == 100.0
  {
    RepairedCropsAllKnown();
    RiceSampleScoresHundred();
    RiceProfile();
    FirstBestRankedFirst(CropData, RepairedCrops, RiceSample, noise);
  }

  /**
   * `CROPS.map(...)` in `getRecommendation`: scores the crops in order through
   * the cache and stops at the first crop without a profile, which the
   * scorer reports by throwing. The cache gains the key of every id scored.
   */
  method ScoreAll(cache: ScoreCache, crops: seq<string>, s: SoilData)
    returns (scores: array<CropScore>, missing: Option<string>)
    requires cache.Valid()
    modifies cache
    ensures fresh(scores)
    ensures cache.Valid() && Extends(old(cache.entries), cache.entries)
    ensures cache.entries == MemoAfter(old(cache.entries), cache.data, crops, s, KnownPrefix(crops, cache.data))
    ensures cache.entries.Keys == old(cache.entries.Keys) + ScoredKeys(crops, s, KnownPrefix(crops, cache.data))
    ensures missing == FirstUnknown(crops, cache.data)
    ensures missing.None? ==> scores[..] == Scores(cache.data, crops, s)
  {
    scores := new CropScore[|crops|];
    var data := cache.data;
    ghost var memo0 := cache.entries;
    var i := 0;
    while i < |crops|
      invariant 0 <= i <= |crops|
      invariant cache.entries == MemoAfter(memo0, data, crops, s, i)
      invariant forall k :: 0 <= k < i ==> crops[k] in data
      invariant forall k :: 0 <= k < i ==>
        scores[k] == CropScore(crops[k], SuitabilityScore(s, data[crops[k]].idealConditions))
    {
      var ok := ScoreInto(cache, crops, s, scores, i, memo0);
      if !ok {
        ScoredUpTo(data, crops, s, scores[..], i, memo0);
        return scores, Some(crops[i]);
      }
      i := i + 1;
    }
    ScoredUpTo(data, crops, s, scores[..], i, memo0);
    missing := None;
  }

  /** Memoising a run of requests keeps every stored score the formula's and drops none. */
  lemma {:induction false} MemoAfterStored(entries: map<(string, SoilData), real>, data: map<string, CropInfo>,
                                           crops: seq<string>, s: SoilData, n: nat)
    requires n <= |crops| && Stored(entries, data)
    ensures Stored(MemoAfter(entries, data, crops, s, n), data)
    ensures Extends(entries, MemoAfter(entries, data, crops, s, n))
  {
    if n > 0 {
      MemoAfterStored(entries, data, crops, s, n - 1);
    }
  }

  /**
   * Where `CROPS.map` stands after scoring the first `i` ids, `crops[i]` (if
   * any) having no profile: `i` is the known prefix, the memo holds only
   * formula scores and gained exactly the keys of those ids, and the scores
   * are the formula's when every id was scored.
   */
  lemma ScoredUpTo(data: map<string, CropInfo>, crops: seq<string>, s: SoilData, scores: seq<CropScore>, i: nat,
                   memo0: map<(string, SoilData), real>)
    requires Stored(memo0, data) && i <= |crops| == |scores|
    requires forall k :: 0 <= k < i ==> crops[k] in data
    requires forall k :: 0 <= k < i ==>
      scores[k] == CropScore(crops[k], SuitabilityScore(s, data[crops[k]].idealConditions))
    requires i < |crops| ==> crops[i] !in data
    ensures var memo := MemoAfter(memo0, data, crops, s, i);
      Stored(memo, data) && Extends(memo0, memo) && memo.Keys == memo0.Keys + ScoredKeys(crops, s, i)
    ensures KnownPrefix(crops, data) == i
    ensures i < |crops| ==> FirstUnknown(crops, data) == Some(crops[i])
    ensures i == |crops| ==> FirstUnknown(crops, data) == None && scores == Scores(data, crops, s)
  {
    MemoAfterStored(memo0, data, crops, s, i);
    KnownPrefixIs(crops, data, i);
    MemoAfterKeys(memo0, data, crops, s, i);
    if i < |crops| {
      FirstUnknownAt(crops, data, i);
    }
  }

  /**
   * One step of `CROPS.map`: asks the cache for `crops[i]` and stores the
   * score in `scores[i]`, or reports that the scorer threw. `memo0` is the
   * memo before the first step.
   */
  method ScoreInto(cache: ScoreCache, crops: seq<string>, s: SoilData, scores: array<CropScore>, i: nat,
                   ghost memo0: map<(string, SoilData), real>)
    returns (ok: bool)
    requires Stored(memo0, cache.data) && i < |crops| == scores.Length
    requires cache.entries == MemoAfter(memo0, cache.data, crops, s, i)
    modifies cache, scores
    ensures ok <==> crops[i] in cache.data
    ensures cache.entries == MemoAfter(memo0, cache.data, crops, s, i + 1)
    ensures !ok ==> cache.entries == old(cache.entries)
    ensures forall k :: 0 <= k < scores.Length && k != i ==> scores[k] == old(scores[k])
    ensures ok ==> scores[i] == CropScore(crops[i], SuitabilityScore(s, cache.data[crops[i]].idealConditions))
  {
    MemoAfterStored(memo0, cache.data, crops, s, i);
    var score := cache.Score(crops[i], s);
    if score.Failure? {
      return false;
    }
    scores[i] := CropScore(crops[i], score.value);
    return true;
  }

  /**
   * `getRecommendation` with the scorer `cache`: fills a fresh `scores` array
   * through the cache in catalog order, stopping at the first id that throws,
   * sorts it in place and keeps the top entries. The result is `Recommend`
   * over the cache's table, and the cache gains exactly the keys of the ids
   * scored before the first unknown one (of every id when all are known).
   */
  method GetRecommendation(cache: ScoreCache, crops: seq<string>, s: SoilData, noise: seq<real>)
    returns (r: Result<seq<CropRecommendation>, ScoreError>)
    requires cache.Valid() && |noise| >= TopCount
    modifies cache
    ensures cache.Valid()
    ensures r == Recommend(cache.data, crops, s, noise)
    ensures Extends(old(cache.entries), cache.entries)
    ensures cache.entries.Keys == old(cache.entries.Keys) + ScoredKeys(crops, s, KnownPrefix(crops, cache.data))
  {
    var scores, missing := ScoreAll(cache, crops, s);
    if missing.Some? {
      return Failure(UnknownCrop(missing.value));
    }
    SortByScore(scores);
    RankedKnown(cache.data, crops, s);
    return Success(Top(cache.data, scores[..], noise));
  }
}
