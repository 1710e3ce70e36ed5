/**
 * The mock detector `detectDiseaseAsync` (diseaseDetectionService.ts lines
 * 300-378): lower-case the image's file name, collect candidate disease ids
 * from the keyword groups whose words occur in it (plant groups first, then
 * disease groups), pick one candidate at random, or else one of a weighted
 * list of all database ids, and answer that id's database entry.
 *
 * `Math.random()` is the parameter `rand`, a value in [0, 1); the 2-second
 * `setTimeout` and the file's type and size, which the code reads but never
 * uses, are not modelled.
 */
module DiseaseDetection {
  import opened Text
  import opened DiseaseDatabase

  /** One entry of `plantKeywords` or `diseaseKeywords`. */
  datatype KeywordGroup = KeywordGroup(words: seq<string>, diseases: seq<string>)

  /** `plantKeywords` (lines 316-327). */
  const PlantKeywords: seq<KeywordGroup> := [
    KeywordGroup(["tomato", "tomatoes"], ["tomato_late_blight", "tomato_early_blight", "tomato_septoria_leaf_spot"]),
    KeywordGroup(["potato", "potatoes"], ["potato_late_blight"]),
    KeywordGroup(["cucumber", "cucumbers"], ["cucumber_downy_mildew", "powdery_mildew"]),
    KeywordGroup(["rice"], ["rice_blast"]),
    KeywordGroup(["wheat"], ["wheat_leaf_rust"]),
    KeywordGroup(["apple", "apples"], ["apple_scab"]),
    KeywordGroup(["grape", "grapes", "vine"], ["grape_downy_mildew"]),
    KeywordGroup(["cotton"], ["cotton_boll_rot"]),
    KeywordGroup(["citrus", "orange", "lemon"], ["citrus_greening"]),
    KeywordGroup(["healthy", "normal", "good"], ["healthy"])
  ]

  /** `diseaseKeywords` (lines 330-339). */
  const DiseaseKeywords: seq<KeywordGroup> := [
    KeywordGroup(["blight"], ["tomato_late_blight", "tomato_early_blight", "potato_late_blight"]),
    KeywordGroup(["mildew", "downy"], ["cucumber_downy_mildew", "grape_downy_mildew", "powdery_mildew"]),
    KeywordGroup(["spot", "leaf spot"], ["tomato_septoria_leaf_spot", "bacterial_spot"]),
    KeywordGroup(["rust"], ["wheat_leaf_rust", "rust"]),
    KeywordGroup(["scab"], ["apple_scab"]),
    KeywordGroup(["rot"], ["cotton_boll_rot"]),
    KeywordGroup(["greening"], ["citrus_greening"]),
    KeywordGroup(["mosaic", "virus"], ["mosaic_virus"])
  ]

  /** `group.words.some(word => fileName.includes(word))`. */
  predicate Matches(fileName: string, group: KeywordGroup)
  {
    exists i :: 0 <= i < |group.words| && Contains(fileName, group.words[i])
  }

  /**
   * What one loop over `groups` appends to `potentialMatches`: the disease
   * lists of the matching groups, in table order, repeats kept.
   */
  function Collect(groups: seq<KeywordGroup>, fileName: string): seq<string>
  {
    if groups == [] then []
    else
      var last := groups[|groups| - 1];
      Collect(groups[..|groups| - 1], fileName) + (if Matches(fileName, last) then last.diseases else [])
  }

  /** `potentialMatches` after both loops, for the lower-cased `fileName`. */
  function Candidates(fileName: string): seq<string>
  {
    Collect(PlantKeywords, fileName) + Collect(DiseaseKeywords, fileName)
  }

  /** The extra copies appended to `Object.keys(plantDiseaseDatabase)` (lines 364-370). */
  const WeightExtras: seq<string> := [
    "powdery_mildew", "powdery_mildew",
    "tomato_early_blight", "tomato_early_blight",
    "rust", "rust",
    "bacterial_spot",
    "healthy", "healthy", "healthy"
  ]

  /** `weightedDiseases`: every database id once, then the extras. */
  const Weighted: seq<string> := DiseaseIds + WeightExtras

  /** `Math.floor(rand * n)` for a draw `rand` in [0, 1): an index into a list of `n` entries. */
  function PickIndex(rand: real, n: nat): (k: nat)
    requires 0.0 <= rand < 1.0 && n > 0
    ensures k < n
  {
    var x := rand * n as real;
    assert 0.0 <= x < n as real;
    x.Floor
  }

  /** `selectedDisease` for the lower-cased `fileName` and the draw `rand`. */
  function Select(fileName: string, rand: real): string
    requires 0.0 <= rand < 1.0
  {
    var c := Candidates(fileName);
    if |c| > 0 then c[PickIndex(rand, |c|)]
    else
      assert |Weighted| == 26;
      Weighted[PickIndex(rand, |Weighted|)]
  }

  /** The entry `detectDiseaseAsync` resolves with for a file named `imageName`. */
  function Detect(imageName: string, rand: real): DiseaseInfo
    requires 0.0 <= rand < 1.0
  {
    var id := Select(ToLower(imageName), rand);
    SelectKnown(ToLower(imageName), rand);
    Database[id]
  }

  /** An id is listed by a group of `groups` that matches `fileName`. */
  predicate ListedByMatch(groups: seq<KeywordGroup>, fileName: string, id: string)
  {
    exists g :: 0 <= g < |groups| && Matches(fileName, groups[g]) && id in groups[g].diseases
  }

  /** `Collect` holds exactly the ids listed by the matching groups. */
  lemma {:induction false} CollectMembers(groups: seq<KeywordGroup>, fileName: string, id: string)
    ensures id in Collect(groups, fileName) <==> ListedByMatch(groups, fileName, id)
  {
    if groups != [] {
      var init, last := groups[..|groups| - 1], groups[|groups| - 1];
      CollectMembers(init, fileName, id);
      if ListedByMatch(init, fileName, id) {
        var g :| 0 <= g < |init| && Matches(fileName, init[g]) && id in init[g].diseases;
        assert groups[g] == init[g];
      }
      if ListedByMatch(groups, fileName, id) {
        var g :| 0 <= g < |groups| && Matches(fileName, groups[g]) && id in groups[g].diseases;
        if g < |init| {
          assert init[g] == groups[g];
        }
      }
    }
  }

  /** Every id the plant groups list is a database key. */
  lemma PlantKeywordsKnown()
    ensures forall g, k :: 0 <= g < |PlantKeywords| && 0 <= k < |PlantKeywords[g].diseases| ==>
      PlantKeywords[g].diseases[k] in Database
  {
  }

  /** Every id the disease groups list is a database key. */
  lemma DiseaseKeywordsKnown()
    ensures forall g, k :: 0 <= g < |DiseaseKeywords| && 0 <= k < |DiseaseKeywords[g].diseases| ==>
      DiseaseKeywords[g].diseases[k] in Database
  {
  }

  /** Every candidate is a database key. */
  lemma CandidatesKnown(fileName: string)
    ensures forall i :: 0 <= i < |Candidates(fileName)| ==> Candidates(fileName)[i] in Database
  {
    PlantKeywordsKnown();
    DiseaseKeywordsKnown();
    var c := Candidates(fileName);
    forall i | 0 <= i < |c| ensures c[i] in Database {
      var id := c[i];
      CollectMembers(PlantKeywords, fileName, id);
      CollectMembers(DiseaseKeywords, fileName, id);
      if id in Collect(PlantKeywords, fileName) {
        var g :| 0 <= g < |PlantKeywords| && Matches(fileName, PlantKeywords[g]) && id in PlantKeywords[g].diseases;
      } else {
        var g :| 0 <= g < |DiseaseKeywords| && Matches(fileName, DiseaseKeywords[g]) && id in DiseaseKeywords[g].diseases;
      }
    }
  }

  /** The weighted list has 26 entries, all database keys. */
  lemma WeightedKnown()
    ensures |Weighted| == 26
    ensures forall i :: 0 <= i < |Weighted| ==> Weighted[i] in Database
  {
    DatabaseKeys();
    DatabaseKeysAreIds();
    forall i | 16 <= i < 26 ensures Weighted[i] in Database {
      assert Weighted[i] == WeightExtras[i - 16];
    }
  }

  /** The extra copies: three more of `'healthy'`, two more of `'powdery_mildew'`. */
  lemma ExtrasCounts()
    ensures multiset(WeightExtras)["healthy"] == 3
    ensures multiset(WeightExtras)["powdery_mildew"] == 2
  {
    var e := WeightExtras;
    assert e == e[..7] + e[7..];
    assert e[7..] == ["healthy", "healthy", "healthy"];
    assert "healthy" !in e[..7];
    assert e[..7] == e[..2] + e[2..7];
    assert e[..2] == ["powdery_mildew", "powdery_mildew"];
    assert "powdery_mildew" !in e[2..7];
  }

  /** `'healthy'` appears four times in the weighted list and `'powdery_mildew'` three times. */
  lemma WeightedCounts()
    ensures multiset(Weighted)["healthy"] == 4
    ensures multiset(Weighted)["powdery_mildew"] == 3
  {
    HealthyListedOnce();
    PowderyMildewListedOnce();
    ExtrasCounts();
    AppendCount(DiseaseIds, WeightExtras, "healthy");
    AppendCount(DiseaseIds, WeightExtras, "powdery_mildew");
  }

  lemma AppendCount(a: seq<string>, b: seq<string>, x: string)
    ensures multiset(a + b)[x] == multiset(a)[x] + multiset(b)[x]
  {
  }

  /** The selected id is always a database key, so the answer is a defined entry. */
  lemma SelectKnown(fileName: string, rand: real)
    requires 0.0 <= rand < 1.0
    ensures Select(fileName, rand) in Database
  {
    CandidatesKnown(fileName);
    WeightedKnown();
  }

  /** With candidates the choice is one of them; without, it is an entry of the weighted list. */
  lemma SelectSource(fileName: string, rand: real)
    requires 0.0 <= rand < 1.0
    ensures |Candidates(fileName)| > 0 ==> Select(fileName, rand) in Candidates(fileName)
    ensures |Candidates(fileName)| == 0 ==> Select(fileName, rand) in Weighted
  {
  }

  /** Matching ignores case: names that differ only in letter case get the same answer. */
  lemma DetectCaseInsensitive(a: string, b: string, rand: real)
    requires 0.0 <= rand < 1.0 && SameUpToCase(a, b)
    ensures Detect(a, rand) == Detect(b, rand)
  {
    ToLowerEqualIff(a, b);
  }

  /** Every answer's confidence lies between 88 and 98. */
  lemma DetectConfidence(imageName: string, rand: real)
    requires 0.0 <= rand < 1.0
    ensures 88 <= Detect(imageName, rand).confidence <= 98
  {
    SelectKnown(ToLower(imageName), rand);
    ConfidenceRange();
  }

  /**
   * Matching is by substring: a name containing `leaf spot` matches the spot
   * group through its word `spot` as well, and one containing `tomatoes`
   * contains `tomato`.
   */
  lemma SubstringMatching(fileName: string)
    ensures Contains(fileName, "leaf spot") ==> Contains(fileName, "spot") && Matches(fileName, DiseaseKeywords[2])
    ensures Contains(fileName, "tomatoes") ==> Contains(fileName, "tomato") && Matches(fileName, PlantKeywords[0])
  {
    if Contains(fileName, "leaf spot") {
      ContainsSlice("leaf spot", 5, 9);
      assert "leaf spot"[5..9] == "spot";
      ContainsTransitive(fileName, "leaf spot", "spot");
      assert DiseaseKeywords[2].words[0] == "spot";
    }
    if Contains(fileName, "tomatoes") {
      ContainsSlice("tomatoes", 0, 6);
      assert "tomatoes"[0..6] == "tomato";
      ContainsTransitive(fileName, "tomatoes", "tomato");
      assert PlantKeywords[0].words[0] == "tomato";
    }
  }

  /** Repeats are kept: a name naming both tomato and blight lists tomato late blight twice. */
  lemma RepeatsKept(fileName: string)
    requires Contains(fileName, "tomato") && Contains(fileName, "blight")
    ensures multiset(Candidates(fileName))["tomato_late_blight"] >= 2
  {
    var id := "tomato_late_blight";
    assert PlantKeywords[0].words[0] == "tomato" && id in PlantKeywords[0].diseases;
    assert DiseaseKeywords[0].words[0] == "blight" && id in DiseaseKeywords[0].diseases;
    assert Matches(fileName, PlantKeywords[0]);
    assert Matches(fileName, DiseaseKeywords[0]);
    CollectMembers(PlantKeywords, fileName, id);
    CollectMembers(DiseaseKeywords, fileName, id);
    assert multiset(Collect(PlantKeywords, fileName))[id] >= 1;
    assert multiset(Collect(DiseaseKeywords, fileName))[id] >= 1;
  }

  /**
   * `detectDiseaseAsync` without its timer: the two loops build
   * `potentialMatches`, then one id is selected and its entry returned.
   */
  method DetectDisease(imageName: string, rand: real) returns (result: DiseaseInfo)
    requires 0.0 <= rand < 1.0
    ensures result == Detect(imageName, rand)
    ensures 88 <= result.confidence <= 98
  {
    var fileName := ToLower(imageName);
    var potentialMatches: seq<string> := [];
    for i := 0 to |PlantKeywords|
      invariant potentialMatches == Collect(PlantKeywords[..i], fileName)
    {
      var plant := PlantKeywords[i];
      assert PlantKeywords[..i + 1][..i] == PlantKeywords[..i];
      if Matches(fileName, plant) {
        potentialMatches := potentialMatches + plant.diseases;
      }
    }
    assert PlantKeywords[..|PlantKeywords|] == PlantKeywords;
    for i := 0 to |DiseaseKeywords|
      invariant potentialMatches == Collect(PlantKeywords, fileName) + Collect(DiseaseKeywords[..i], fileName)
    {
      var disease := DiseaseKeywords[i];
      assert DiseaseKeywords[..i + 1][..i] == DiseaseKeywords[..i];
      if Matches(fileName, disease) {
        potentialMatches := potentialMatches + disease.diseases;
      }
    }
    assert DiseaseKeywords[..|DiseaseKeywords|] == DiseaseKeywords;
    var selectedDisease: string;
    if |potentialMatches| > 0 {
      selectedDisease := potentialMatches[PickIndex(rand, |potentialMatches|)];
    } else {
      var diseases := DiseaseIds;
      var weightedDiseases := diseases + WeightExtras;
      selectedDisease := weightedDiseases[PickIndex(rand, |weightedDiseases|)];
    }
    SelectKnown(fileName, rand);
    DetectConfidence(imageName, rand);
    result := Database[selectedDisease];
  }
}
