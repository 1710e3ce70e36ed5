/**
 * The mock disease database `plantDiseaseDatabase` of the detection service
 * (diseaseDetectionService.ts lines 4-298): sixteen entries keyed by disease
 * id, in declaration order.
 */
module DiseaseDatabase {
  import opened Wrappers

  /** `DiseaseDetectionResult`; every confidence in the table is a whole number. */
  datatype DiseaseInfo = DiseaseInfo(
    diseaseName: string,
    confidence: int,
    description: string,
    remedies: seq<string>,
    preventiveMeasures: seq<string>,
    plantType: Option<string>)

  /** `Object.keys(plantDiseaseDatabase)`: the ids in declaration order. */
  const DiseaseIds: seq<string> := [
    "tomato_late_blight",
    "tomato_early_blight",
    "tomato_septoria_leaf_spot",
    "potato_late_blight",
    "cucumber_downy_mildew",
    "rice_blast",
    "wheat_leaf_rust",
    "apple_scab",
    "grape_downy_mildew",
    "cotton_boll_rot",
    "citrus_greening",
    "powdery_mildew",
    "bacterial_spot",
    "rust",
    "mosaic_virus",
    "healthy"
  ]

  /** The entry `tomato_late_blight` (lines 16-33). */
  const TomatoLateBlight: DiseaseInfo := DiseaseInfo(
    "Tomato Late Blight",
    95,
    "A devastating fungal disease (Phytophthora infestans) causing dark, water-soaked spots on leaves, stems, and fruits. In humid conditions, white fungal growth appears on leaf undersides.",
    [
      "Apply copper-based fungicides immediately upon detection",
      "Remove and destroy all infected plant material",
      "Increase plant spacing to improve air circulation",
      "Water at soil level, avoiding leaf wetting"
    ],
    [
      "Plant certified disease-free seeds and resistant varieties",
      "Rotate crops (avoid planting tomatoes in the same location for 3-4 years)",
      "Keep foliage dry with proper spacing and morning watering",
      "Apply preventative fungicides during humid weather"
    ],
    Some("Tomato"))

  /** The entry `tomato_early_blight` (lines 34-51). */
  const TomatoEarlyBlight: DiseaseInfo := DiseaseInfo(
    "Tomato Early Blight",
    93,
    "Caused by Alternaria solani fungus, characterized by concentric dark rings forming target-like patterns on lower, older leaves first. Spreads upward as the season progresses.",
    [
      "Remove infected leaves immediately",
      "Apply recommended fungicides (chlorothalonil or copper-based)",
      "Ensure proper plant nutrition with balanced fertilizers",
      "Mulch around plants to prevent soil-splash"
    ],
    [
      "Rotate crops annually",
      "Space plants adequately for good air circulation",
      "Stake or cage plants to keep foliage off the ground",
      "Apply mulch to prevent spore splash from soil"
    ],
    Some("Tomato"))

  /** The entry `tomato_septoria_leaf_spot` (lines 52-69). */
  const TomatoSeptoriaLeafSpot: DiseaseInfo := DiseaseInfo(
    "Tomato Septoria Leaf Spot",
    91,
    "Caused by Septoria lycopersici fungus, creating small circular spots with dark borders and light centers, primarily on lower leaves first. Severe cases lead to complete defoliation.",
    [
      "Remove and destroy infected leaves",
      "Apply fungicides containing chlorothalonil, copper, or mancozeb",
      "Improve air circulation by pruning lower branches",
      "Water at the base to keep foliage dry"
    ],
    [
      "Practice crop rotation (3-year cycle)",
      "Control weeds which can harbor the disease",
      "Apply mulch to prevent splash from soil to leaves",
      "Clean tools and stakes between seasons"
    ],
    Some("Tomato"))

  /** The entry `potato_late_blight` (lines 70-87). */
  const PotatoLateBlight: DiseaseInfo := DiseaseInfo(
    "Potato Late Blight",
    94,
    "Caused by Phytophthora infestans, resulting in dark, water-soaked patches on leaves that quickly turn necrotic. Can spread to tubers causing rot with reddish-brown granular tissue.",
    [
      "Apply copper-based or specialty fungicides",
      "Remove infected plants and destroy (do not compost)",
      "Harvest potatoes early if disease is detected in your area",
      "Store harvested tubers in cool, dry conditions"
    ],
    [
      "Plant certified disease-free seed potatoes",
      "Choose resistant varieties when available",
      "Hill potatoes well to protect tubers",
      "Destroy volunteer potatoes that may harbor disease"
    ],
    Some("Potato"))

  /** The entry `cucumber_downy_mildew` (lines 88-105). */
  const CucumberDownyMildew: DiseaseInfo := DiseaseInfo(
    "Cucumber Downy Mildew",
    93,
    "Caused by Pseudoperonospora cubensis, creating angular yellow spots on upper leaf surfaces with grayish-purple fuzzy growth on undersides in humid conditions.",
    [
      "Apply fungicides containing chlorothalonil, mancozeb, or copper",
      "Remove heavily infected leaves",
      "Improve air circulation by proper spacing",
      "Water at the base of plants in early morning"
    ],
    [
      "Plant resistant varieties",
      "Orient rows with prevailing winds",
      "Avoid overhead irrigation",
      "Apply preventative fungicides during periods of high humidity"
    ],
    Some("Cucumber"))

  /** The entry `rice_blast` (lines 106-123). */
  const RiceBlast: DiseaseInfo := DiseaseInfo(
    "Rice Blast",
    96,
    "Caused by Magnaporthe oryzae fungus, producing diamond-shaped lesions on leaves and stems. Can infect all parts of the rice plant at any growth stage.",
    [
      "Apply recommended fungicides (tricyclazole or azoxystrobin)",
      "Maintain balanced fertilization (avoid excess nitrogen)",
      "Drain fields periodically to reduce humidity",
      "Remove and destroy severely infected plants"
    ],
    [
      "Plant resistant varieties",
      "Use certified disease-free seeds",
      "Practice balanced fertilization",
      "Adjust planting dates to avoid peak disease periods"
    ],
    Some("Rice"))

  /** The entry `wheat_leaf_rust` (lines 124-141). */
  const WheatLeafRust: DiseaseInfo := DiseaseInfo(
    "Wheat Leaf Rust",
    92,
    "Caused by Puccinia triticina, showing small, round to oval orange-brown pustules primarily on upper leaf surfaces. Severe infections cause leaf yellowing and premature leaf death.",
    [
      "Apply triazole or strobilurin fungicides",
      "Monitor fields regularly for early detection",
      "Ensure balanced nutrition",
      "Harvest early if infection is severe"
    ],
    [
      "Plant resistant varieties",
      "Rotate crops - avoid wheat following wheat",
      "Eliminate volunteer wheat plants",
      "Plant after the 'fly-free' date in your region"
    ],
    Some("Wheat"))

  /** The entry `apple_scab` (lines 142-159). */
  const AppleScab: DiseaseInfo := DiseaseInfo(
    "Apple Scab",
    90,
    "Caused by Venturia inaequalis fungus, creating olive-green to black velvety spots on leaves and fruits that later become corky. Severe infections cause premature leaf drop and unmarketable fruit.",
    [
      "Apply protective fungicides like captan or myclobutanil",
      "Remove fallen leaves in autumn to reduce overwintering spores",
      "Prune trees to improve air circulation and light penetration",
      "Thin fruit clusters to reduce humidity"
    ],
    [
      "Plant resistant varieties when possible",
      "Apply fungicides from bud break until early summer",
      "Improve orchard sanitation by removing leaf litter",
      "Ensure proper tree spacing for ventilation"
    ],
    Some("Apple"))

  /** The entry `grape_downy_mildew` (lines 160-177). */
  const GrapeDownyMildew: DiseaseInfo := DiseaseInfo(
    "Grape Downy Mildew",
    89,
    "Caused by Plasmopara viticola, showing yellow, oily spots on upper leaf surfaces with white, downy fungal growth on the undersides. Can rapidly defoliate vines and damage fruit.",
    [
      "Apply copper or specialized fungicides",
      "Remove affected leaves and fruit",
      "Improve air circulation through canopy management",
      "Use fans in humid areas to reduce leaf wetness"
    ],
    [
      "Train vines for maximum airflow",
      "Orient rows to maximize sun exposure and airflow",
      "Apply preventative fungicides before rain events",
      "Remove basal leaves around fruit zones"
    ],
    Some("Grape"))

  /** The entry `cotton_boll_rot` (lines 178-195). */
  const CottonBollRot: DiseaseInfo := DiseaseInfo(
    "Cotton Boll Rot",
    88,
    "Various fungi causing discoloration and decay of cotton bolls. Often enters through insect damage or during prolonged wet periods.",
    [
      "Apply recommended fungicides",
      "Control insect pests to prevent entry points",
      "Remove and destroy infected bolls",
      "Improve field drainage"
    ],
    [
      "Manage plant density to improve airflow",
      "Control insects effectively",
      "Time irrigation to allow foliage to dry before evening",
      "Avoid excessive nitrogen fertilization"
    ],
    Some("Cotton"))

  /** The entry `citrus_greening` (lines 196-213). */
  const CitrusGreening: DiseaseInfo := DiseaseInfo(
    "Citrus Greening (HLB)",
    97,
    "Caused by Candidatus Liberibacter bacteria spread by psyllids. Symptoms include blotchy mottling of leaves, lopsided bitter fruit, yellow shoots, and gradual tree decline.",
    [
      "There is no cure once infected - management focuses on slowing disease progression",
      "Control Asian citrus psyllid with approved insecticides",
      "Enhance tree health with optimal nutrition and irrigation",
      "Prune symptomatic branches if early in infection"
    ],
    [
      "Plant certified disease-free trees",
      "Monitor and control psyllid populations",
      "Create psyllid barriers with trap crops or physical barriers",
      "Consider screenhouse production in high-risk areas"
    ],
    Some("Citrus"))

  /** The entry `powdery_mildew` (lines 214-230). */
  const PowderyMildew: DiseaseInfo := DiseaseInfo(
    "Powdery Mildew",
    94,
    "A common fungal disease that appears as white powdery spots on leaves, stems, and sometimes fruit. Can affect many plant species from vegetables to ornamentals.",
    [
      "Apply neem oil, potassium bicarbonate, or sulfur-based fungicides",
      "Remove heavily infected parts",
      "Increase air circulation by proper spacing and pruning",
      "Use milk spray (1:10 milk to water) as an organic treatment"
    ],
    [
      "Plant resistant varieties",
      "Avoid overcrowding plants",
      "Water at the base of plants, not on foliage",
      "Rotate susceptible crops"
    ],
    None)

  /** The entry `bacterial_spot` (lines 231-247). */
  const BacterialSpot: DiseaseInfo := DiseaseInfo(
    "Bacterial Spot",
    91,
    "A bacterial infection causing small, dark, water-soaked spots on leaves, stems, and fruit. Common in peppers and tomatoes.",
    [
      "Apply copper-based bactericides early in disease development",
      "Remove infected plant parts",
      "Avoid working with wet plants to prevent spread",
      "Improve air circulation around plants"
    ],
    [
      "Use certified disease-free seeds",
      "Practice crop rotation (3-4 years)",
      "Sanitize garden tools regularly",
      "Use drip irrigation instead of overhead watering"
    ],
    None)

  /** The entry `rust` (lines 248-264). */
  const Rust: DiseaseInfo := DiseaseInfo(
    "Rust",
    93,
    "A fungal disease causing orange, yellow, or reddish-brown pustules on the underside of leaves. Can affect many plants including beans, roses, and grains.",
    [
      "Apply fungicides containing sulfur or tebuconazole",
      "Remove and destroy infected plant material",
      "Improve air circulation by proper spacing and pruning",
      "Avoid wetting foliage during irrigation"
    ],
    [
      "Plant resistant varieties",
      "Space plants properly",
      "Apply preventative fungicides during humid weather",
      "Remove alternate host plants if applicable"
    ],
    None)

  /** The entry `mosaic_virus` (lines 265-281). */
  const MosaicVirus: DiseaseInfo := DiseaseInfo(
    "Mosaic Virus",
    89,
    "A viral disease causing mottled patterns of yellow, light green, and dark green on leaves. Can stunt growth and reduce yields. Affects many plants including cucurbits, tomatoes, and tobacco.",
    [
      "Remove and destroy infected plants immediately",
      "Control insect vectors like aphids",
      "No chemical cure available - focus on prevention",
      "Disinfect tools between handling plants"
    ],
    [
      "Use virus-free seeds and transplants",
      "Control weeds that may harbor the virus",
      "Wash hands and tools after handling infected plants",
      "Use reflective mulches to repel aphids"
    ],
    None)

  /** The entry `healthy` (lines 282-297). */
  const Healthy: DiseaseInfo := DiseaseInfo(
    "Healthy Plant",
    98,
    "This plant appears healthy with no visible signs of disease. It shows good color, vigor, and normal growth patterns.",
    [
      "Continue regular maintenance",
      "Monitor for any changes in appearance",
      "Follow normal watering and fertilization schedules"
    ],
    [
      "Maintain proper watering schedule",
      "Ensure adequate nutrition",
      "Regular monitoring for early disease detection",
      "Practice good sanitation in the garden"
    ],
    None)

  /** `plantDiseaseDatabase`. */
  const Database: map<string, DiseaseInfo> := map[
    "tomato_late_blight" := TomatoLateBlight,
    "tomato_early_blight" := TomatoEarlyBlight,
    "tomato_septoria_leaf_spot" := TomatoSeptoriaLeafSpot,
    "potato_late_blight" := PotatoLateBlight,
    "cucumber_downy_mildew" := CucumberDownyMildew,
    "rice_blast" := RiceBlast,
    "wheat_leaf_rust" := WheatLeafRust,
    "apple_scab" := AppleScab,
    "grape_downy_mildew" := GrapeDownyMildew,
    "cotton_boll_rot" := CottonBollRot,
    "citrus_greening" := CitrusGreening,
    "powdery_mildew" := PowderyMildew,
    "bacterial_spot" := BacterialSpot,
    "rust" := Rust,
    "mosaic_virus" := MosaicVirus,
    "healthy" := Healthy
  ]

  /** The table declares sixteen distinct ids. */
  lemma DiseaseIdsDistinct()
    ensures |DiseaseIds| == 16
    ensures forall i, j :: 0 <= i < j < |DiseaseIds| ==> DiseaseIds[i] != DiseaseIds[j]
  {
  }

  /** The keys of the table are exactly the declared ids. */
  lemma DatabaseKeysAreIds()
    ensures forall id :: id in Database <==> id in DiseaseIds
  {
  }

  /** The declared ids are exactly the keys: sixteen of them. */
  lemma DatabaseKeys()
    ensures forall i :: 0 <= i < |DiseaseIds| ==> DiseaseIds[i] in Database
    ensures |Database| == 16
  {
    DiseaseIdsDistinct();
    DatabaseKeysAreIds();
    KeysCard(Database, DiseaseIds);
  }
  /** A map keyed by exactly the ids of a repeat-free sequence has one key per id. */
  lemma KeysCard(m: map<string, DiseaseInfo>, ids: seq<string>)
    requires forall k :: k in m <==> k in ids
    requires forall i, j :: 0 <= i < j < |ids| ==> ids[i] != ids[j]
    ensures |m| == |ids|
  {
    DistinctCard(ids);
    assert m.Keys == set i | 0 <= i < |ids| :: ids[i];
  }

  /** A sequence without repeats has as many distinct elements as entries. */
  lemma {:induction false} DistinctCard(xs: seq<string>)
    requires forall i, j :: 0 <= i < j < |xs| ==> xs[i] != xs[j]
    ensures |set i | 0 <= i < |xs| :: xs[i]| == |xs|
  {
    if xs != [] {
      var init := xs[..|xs| - 1];
      DistinctCard(init);
      var s := set i | 0 <= i < |init| :: init[i];
      assert (set i | 0 <= i < |xs| :: xs[i]) == s + {xs[|xs| - 1]};
      assert xs[|xs| - 1] !in s;
    }
  }

  /** Every entry's confidence lies between 88 and 98. */
  lemma ConfidenceRange()
    ensures forall id :: id in Database ==> 88 <= Database[id].confidence <= 98
  {
    DatabaseKeysAreIds();
  }

  /** An entry found at `i` and nowhere else occurs once. */
  lemma CountSingle(xs: seq<string>, x: string, i: nat)
    requires i < |xs| && xs[i] == x && x !in xs[..i] && x !in xs[i + 1..]
    ensures multiset(xs)[x] == 1
  {
    assert xs == xs[..i] + [x] + xs[i + 1..];
  }

  /** `Object.keys` lists `'healthy'` once. */
  lemma HealthyListedOnce()
    ensures multiset(DiseaseIds)["healthy"] == 1
  {
    var ids := DiseaseIds;
    assert "healthy" !in ids[..15];
    CountSingle(ids, "healthy", 15);
  }

  /** `Object.keys` lists `'powdery_mildew'` once. */
  lemma PowderyMildewListedOnce()
    ensures multiset(DiseaseIds)["powdery_mildew"] == 1
  {
    var ids := DiseaseIds;
    assert "powdery_mildew" !in ids[..11] && "powdery_mildew" !in ids[12..];
    CountSingle(ids, "powdery_mildew", 11);
  }
}
