/**
 * The crop tables of the recommendation service: the list `CROPS` that the
 * local ranking iterates over, and the profile table `CROP_DATA` keyed by crop
 * id (recommendationService.ts lines 26-748).
 *
 * Long literals are split into parts of at most a few dozen entries so that
 * each membership question about them stays small: `CROP_DATA` is the map from
 * the ids it declares to their profiles, with the profiles given by a `match`.
 */
module CropCatalog {
  import opened Wrappers
  import opened Soil

  /** One `CROP_DATA` entry. */
  datatype CropInfo = CropInfo(
    description: string,
    idealConditions: PartialSoil,
    fertilizers: seq<string>,
    season: Option<string>,
    growthDuration: Option<string>)

  /** `CROPS`, group "Original crops" (lines 28-33). */
  const CropsOriginal: seq<string> := [
    "rice", "maize", "chickpea", "kidneybeans", "pigeonpeas", "mothbeans",
    "mungbean", "blackgram", "lentil", "pomegranate", "banana", "mango",
    "grapes", "watermelon", "muskmelon", "apple", "orange", "papaya",
    "coconut", "cotton", "jute", "coffee"
  ]

  /** `CROPS`, group "Previously added Indian crops" (lines 35-41). */
  const CropsIndian: seq<string> := [
    "wheat", "sugarcane", "turmeric", "ginger", "mustard", "sorghum",
    "pearl_millet", "finger_millet", "groundnut", "sesame", "cumin", "coriander",
    "fenugreek", "clove", "cardamom", "chilli", "garlic", "onion",
    "potato", "tomato", "okra", "eggplant", "cauliflower", "cabbage",
    "spinach", "guava", "litchi", "jackfruit", "sapota"
  ]

  /** `CROPS`, group "Additional spices" (lines 43-46). */
  const CropsSpices: seq<string> := [
    "black_pepper", "cinnamon", "saffron", "asafoetida", "fennel", "ajwain",
    "star_anise", "nutmeg", "mace", "bay_leaf", "tamarind", "curry_leaf"
  ]

  /** `CROPS`, group "Kharif crops (monsoon season)" (lines 48-50). */
  const CropsKharif: seq<string> := [
    "paddy", "arhar_dal", "urad_dal", "sesamum", "bajra", "jowar",
    "ragi", "castor", "indigo"
  ]

  /** `CROPS`, group "Rabi crops (winter season)" (lines 52-54). */
  const CropsRabi: seq<string> := [
    "barley", "gram", "masoor", "mustard_oil", "rapeseed", "safflower",
    "sunflower", "isabgol"
  ]

  /** `CROPS`, group "Zaid crops (summer season)" (lines 56-57). */
  const CropsZaid: seq<string> := [
    "cucumber", "watermelon_zaid", "bitter_gourd", "pumpkin", "muskmelon_zaid", "ridge_gourd",
    "bottle_gourd"
  ]

  /** `CROPS`, group "Cash crops" (lines 59-60). */
  const CropsCash: seq<string> := [
    "tea", "rubber", "mulberry"
  ]

  /** `CROPS`, group "Other important Indian crops" (lines 62-64). */
  const CropsOther: seq<string> := [
    "pearl_millet", "soybean", "pigeon_pea", "green_gram", "black_gram", "horse_gram",
    "cluster_bean", "amaranthus", "quinoa"
  ]

  /** `CROPS`: the ids the local ranking scores, in source order. */
  const Crops: seq<string> := LeadingGroups + CropsOther

  /** Every group of `CROPS` but the last, in source order. */
  const LeadingGroups: seq<string> :=
    CropsOriginal + CropsIndian + CropsSpices + CropsKharif +
    CropsRabi + CropsZaid + CropsCash

  /** The ids `CROP_DATA` declares, entries 1 to 12. */
  const CropDataIdsPart0: seq<string> := [
    "rice", "maize", "chickpea", "kidneybeans", "pigeonpeas", "mothbeans",
    "mungbean", "blackgram", "lentil", "pomegranate", "banana", "mango"
  ]

  /** The ids `CROP_DATA` declares, entries 13 to 24. */
  const CropDataIdsPart1: seq<string> := [
    "grapes", "watermelon", "muskmelon", "apple", "orange", "papaya",
    "coconut", "cotton", "jute", "coffee", "wheat", "sugarcane"
  ]

  /** The ids `CROP_DATA` declares, entries 25 to 36. */
  const CropDataIdsPart2: seq<string> := [
    "turmeric", "ginger", "mustard", "sorghum", "pearl_millet", "finger_millet",
    "groundnut", "sesame", "cumin", "coriander", "fenugreek", "clove"
  ]

  /** The ids `CROP_DATA` declares, entries 37 to 48. */
  const CropDataIdsPart3: seq<string> := [
    "cardamom", "chilli", "garlic", "onion", "potato", "tomato",
    "okra", "eggplant", "cauliflower", "cabbage", "spinach", "guava"
  ]

  /** The ids `CROP_DATA` declares, entries 49 to 60. */
  const CropDataIdsPart4: seq<string> := [
    "litchi", "jackfruit", "sapota", "black_pepper", "cinnamon", "saffron",
    "asafoetida", "fennel", "ajwain", "star_anise", "nutmeg", "mace"
  ]

  /** The ids `CROP_DATA` declares, entries 61 to 72. */
  const CropDataIdsPart5: seq<string> := [
    "bay_leaf", "tamarind", "curry_leaf", "paddy", "arhar_dal", "urad_dal",
    "sesamum", "bajra", "jowar", "ragi", "castor", "indigo"
  ]

  /** The ids `CROP_DATA` declares, entries 73 to 84. */
  const CropDataIdsPart6: seq<string> := [
    "barley", "gram", "masoor", "mustard_oil", "rapeseed", "safflower",
    "sunflower", "isabgol", "cucumber", "watermelon_zaid", "bitter_gourd", "pumpkin"
  ]

  /** The ids `CROP_DATA` declares, entries 85 to 96. */
  const CropDataIdsPart7: seq<string> := [
    "muskmelon_zaid", "ridge_gourd", "bottle_gourd", "tea", "rubber", "mulberry",
    "soybean", "green_gram", "horse_gram", "cluster_bean", "amaranthus", "quinoa"
  ]

  /** The ids `CROP_DATA` declares, in declaration order. */
  const CropDataIds: seq<string> :=
    CropDataIdsPart0 + CropDataIdsPart1 + CropDataIdsPart2 + CropDataIdsPart3 +
    CropDataIdsPart4 + CropDataIdsPart5 + CropDataIdsPart6 + CropDataIdsPart7

  /**
   * The profile `CROP_DATA` gives an id it declares. `CropData` only asks this of
   * the ids in `CropDataIds`; the last case is never reached from there.
   */
  function Profile(id: string): CropInfo
  {
    match id
    case "rice" => CropInfo(
      "A staple grain that thrives in wet conditions with high temperatures.",
      AllFields(80.0, 40.0, 40.0, 25.0, 80.0, 6.5, 200.0),
      ["Urea", "NPK 20-20-20", "Ammonium Sulfate"],
      Some("Kharif"), Some("90-150 days"))
    case "maize" => CropInfo(
      "A versatile crop used for food, feed, and industrial products.",
      AllFields(60.0, 60.0, 30.0, 24.0, 65.0, 6.5, 90.0),
      ["NPK 15-15-15", "Urea", "DAP"],
      Some("Kharif/Rabi"), Some("80-110 days"))
    case "chickpea" => CropInfo(
      "A protein-rich legume that improves soil fertility.",
      AllFields(20.0, 50.0, 20.0, 21.0, 50.0, 7.0, 60.0),
      ["SSP", "Rock Phosphate", "NPK 10-20-10"],
      Some("Rabi"), Some("95-120 days"))
    case "kidneybeans" => CropInfo(
      "Popular legume that fixes nitrogen in the soil.",
      AllFields(30.0, 60.0, 40.0, 20.0, 60.0, 6.0, 75.0),
      ["NPK 5-10-10", "DAP", "Micronutrient Mix"],
      Some("Kharif"), Some("90-120 days"))
    case "pigeonpeas" => CropInfo(
      "Drought-resistant legume with multiple harvests.",
      AllFields(20.0, 60.0, 20.0, 25.0, 60.0, 6.5, 65.0),
      ["SSP", "Rock Phosphate", "Potash"],
      Some("Kharif"), Some("150-180 days"))
    case "mothbeans" => CropInfo(
      "Heat and drought tolerant legume for arid regions.",
      AllFields(15.0, 40.0, 30.0, 27.0, 35.0, 7.5, 40.0),
      ["Compost", "Bone Meal", "Low NPK"],
      Some("Kharif"), Some("75-90 days"))
    case "mungbean" => CropInfo(
      "Fast-growing pulse crop with high protein content.",
      AllFields(20.0, 40.0, 20.0, 28.0, 70.0, 7.0, 60.0),
      ["DAP", "SSP", "Organic Matter"],
      Some("Kharif/Zaid"), Some("60-70 days"))
    case "blackgram" => CropInfo(
      "High-protein legume that improves soil fertility.",
      AllFields(20.0, 60.0, 40.0, 25.0, 60.0, 6.5, 80.0),
      ["NPK 10-26-26", "Micronutrient Mix", "SSP"],
      Some("Kharif"), Some("70-90 days"))
    case "lentil" => CropInfo(
      "Nutritious legume that thrives in cooler temperatures.",
      AllFields(20.0, 50.0, 20.0, 18.0, 55.0, 6.0, 60.0),
      ["DAP", "MOP", "Rhizobium Culture"],
      Some("Rabi"), Some("100-120 days"))
    case "pomegranate" => CropInfo(
      "Drought-tolerant fruit with medicinal properties.",
      AllFields(40.0, 60.0, 80.0, 25.0, 45.0, 7.0, 50.0),
      ["NPK 4-8-12", "Calcium Nitrate", "Micronutrient Mix"],
      Some("Perennial"), Some("5-7 months (fruiting)"))
    case "banana" => CropInfo(
      "Tropical fruit that requires consistent moisture.",
      AllFields(100.0, 75.0, 100.0, 27.0, 75.0, 6.5, 100.0),
      ["NPK 13-5-20", "Urea", "Potash"],
      Some("Perennial"), Some("10-12 months"))
    case "mango" => CropInfo(
      "Tropical fruit tree that thrives in warm climates.",
      AllFields(50.0, 50.0, 80.0, 26.0, 60.0, 6.0, 75.0),
      ["NPK 10-10-10", "Ammonium Sulfate", "MOP"],
      Some("Perennial"), Some("4-5 years for first harvest"))
    case "grapes" => CropInfo(
      "Perennial vine that produces berries for many uses.",
      AllFields(20.0, 40.0, 80.0, 22.0, 50.0, 6.0, 65.0),
      ["NPK 12-12-17", "Calcium Nitrate", "Magnesium Sulfate"],
      Some("Perennial"), Some("2-3 years for first harvest"))
    case "watermelon" => CropInfo(
      "Heat-loving fruit with high water content.",
      AllFields(40.0, 60.0, 70.0, 27.0, 60.0, 6.5, 50.0),
      ["NPK 5-10-15", "Calcium Nitrate", "Boron"],
      Some("Kharif/Zaid"), Some("80-110 days"))
    case "muskmelon" => CropInfo(
      "Sweet summer fruit that prefers well-drained soil.",
      AllFields(40.0, 60.0, 50.0, 26.0, 60.0, 6.5, 45.0),
      ["NPK 6-12-12", "Calcium Nitrate", "Micronutrient Mix"],
      Some("Zaid"), Some("70-90 days"))
    case "apple" => CropInfo(
      "Temperate fruit that requires winter chilling.",
      AllFields(30.0, 40.0, 60.0, 18.0, 65.0, 6.0, 80.0),
      ["NPK 12-6-6", "Calcium Nitrate", "Boron"],
      Some("Perennial"), Some("3-5 years for first harvest"))
    case "orange" => CropInfo(
      "Citrus fruit that thrives in subtropical climates.",
      AllFields(40.0, 30.0, 50.0, 23.0, 60.0, 6.0, 70.0),
      ["NPK 15-5-15", "Magnesium Sulfate", "Zinc Sulfate"],
      Some("Perennial"), Some("2-3 years for first harvest"))
    case "papaya" => CropInfo(
      "Fast-growing tropical fruit with medicinal properties.",
      AllFields(50.0, 50.0, 50.0, 28.0, 70.0, 6.5, 100.0),
      ["NPK 14-14-14", "Urea", "Calcium Ammonium Nitrate"],
      Some("Perennial"), Some("8-10 months for first harvest"))
    case "coconut" => CropInfo(
      "Tropical palm with multiple uses for all parts.",
      AllFields(30.0, 30.0, 80.0, 27.0, 80.0, 6.0, 150.0),
      ["NPK 12-4-16", "Urea", "MOP"],
      Some("Perennial"), Some("6-8 years for first harvest"))
    case "cotton" => CropInfo(
      "Fiber crop that thrives in warm, humid conditions.",
      AllFields(60.0, 30.0, 30.0, 25.0, 60.0, 6.5, 70.0),
      ["NPK 20-10-10", "Urea", "DAP"],
      Some("Kharif"), Some("150-180 days"))
    case "jute" => CropInfo(
      "Natural fiber crop used for rope and fabric.",
      AllFields(50.0, 20.0, 30.0, 30.0, 85.0, 7.0, 150.0),
      ["NPK 10-5-5", "Urea", "MOP"],
      Some("Kharif"), Some("100-120 days"))
    case "coffee" => CropInfo(
      "Tropical evergreen shrub grown for its seeds.",
      AllFields(40.0, 30.0, 50.0, 22.0, 75.0, 5.5, 150.0),
      ["NPK 12-12-17", "Ammonium Sulfate", "Dolomite"],
      Some("Perennial"), Some("3-4 years for first harvest"))
    case "wheat" => CropInfo(
      "A staple cereal grain in India, particularly in northern regions.",
      AllFields(60.0, 30.0, 30.0, 20.0, 60.0, 6.5, 75.0),
      ["Urea", "DAP", "MOP"],
      Some("Rabi"), Some("110-130 days"))
    case "sugarcane" => CropInfo(
      "A major cash crop used for sugar production and jaggery.",
      AllFields(100.0, 50.0, 50.0, 27.0, 80.0, 6.5, 150.0),
      ["Urea", "SSP", "MOP"],
      Some("Perennial"), Some("10-12 months"))
    case "turmeric" => CropInfo(
      "A traditional spice and medicinal crop with vibrant color.",
      AllFields(30.0, 40.0, 120.0, 25.0, 80.0, 6.5, 150.0),
      ["FYM", "Neem Cake", "NPK 5-10-30"],
      Some("Kharif"), Some("8-9 months"))
    case "ginger" => CropInfo(
      "A spice crop grown for its aromatic rhizome widely used in cooking.",
      AllFields(40.0, 30.0, 60.0, 25.0, 80.0, 6.0, 150.0),
      ["Compost", "NPK 10-10-20", "Neem Cake"],
      Some("Kharif"), Some("8-10 months"))
    case "mustard" => CropInfo(
      "An important oilseed crop grown throughout northern India.",
      AllFields(60.0, 40.0, 40.0, 20.0, 60.0, 6.5, 60.0),
      ["Urea", "SSP", "MOP"],
      Some("Rabi"), Some("100-130 days"))
    case "sorghum" => CropInfo(
      "A drought-resistant grain crop also known as jowar.",
      AllFields(50.0, 40.0, 30.0, 27.0, 60.0, 6.5, 70.0),
      ["Urea", "SSP", "MOP"],
      Some("Kharif/Rabi"), Some("100-120 days"))
    case "pearl_millet" => CropInfo(
      "A highly drought-resistant crop (bajra) common in arid regions.",
      AllFields(40.0, 20.0, 20.0, 28.0, 50.0, 7.0, 50.0),
      ["Urea", "DAP", "Compost"],
      Some("Kharif"), Some("90-110 days"))
    case "finger_millet" => CropInfo(
      "A nutritious grain (ragi) suitable for dry regions.",
      AllFields(30.0, 20.0, 20.0, 27.0, 60.0, 6.5, 80.0),
      ["FYM", "Compost", "Low NPK"],
      Some("Kharif"), Some("90-120 days"))
    case "groundnut" => CropInfo(
      "An important oilseed and food crop also known as peanut.",
      AllFields(20.0, 40.0, 30.0, 25.0, 65.0, 6.5, 90.0),
      ["Gypsum", "SSP", "NPK 20-40-0"],
      Some("Kharif"), Some("100-130 days"))
    case "sesame" => CropInfo(
      "An ancient oilseed crop (til) with high oil content.",
      AllFields(30.0, 30.0, 30.0, 27.0, 60.0, 6.5, 70.0),
      ["NPK 10-10-10", "Urea", "SSP"],
      Some("Kharif"), Some("80-95 days"))
    case "cumin" => CropInfo(
      "A popular spice crop grown mainly in Gujarat and Rajasthan.",
      AllFields(20.0, 30.0, 20.0, 25.0, 50.0, 7.0, 40.0),
      ["NPK 10-15-10", "Compost", "Micronutrients"],
      Some("Rabi"), Some("100-120 days"))
    case "coriander" => CropInfo(
      "A versatile herb used for both leaves and seeds in Indian cuisine.",
      AllFields(20.0, 30.0, 20.0, 23.0, 60.0, 6.5, 60.0),
      ["Compost", "Low NPK", "Vermicompost"],
      Some("Rabi"), Some("90-120 days"))
    case "fenugreek" => CropInfo(
      "A dual-purpose crop used as vegetable and spice (methi).",
      AllFields(25.0, 30.0, 20.0, 22.0, 60.0, 6.5, 50.0),
      ["Compost", "NPK 5-10-5", "Vermicompost"],
      Some("Rabi"), Some("90-120 days"))
    case "clove" => CropInfo(
      "A high-value aromatic spice grown in southern India.",
      AllFields(30.0, 30.0, 60.0, 25.0, 70.0, 6.0, 200.0),
      ["Compost", "NPK 10-10-20", "Potash"],
      Some("Perennial"), Some("6-8 years for first harvest"))
    case "cardamom" => CropInfo(
      "A high-value spice known as the \"Queen of Spices\".",
      AllFields(30.0, 30.0, 60.0, 22.0, 80.0, 6.0, 250.0),
      ["Compost", "NPK 10-10-20", "Organic Matter"],
      Some("Perennial"), Some("3-4 years for first harvest"))
    case "chilli" => CropInfo(
      "A popular spice crop grown throughout India.",
      AllFields(50.0, 50.0, 50.0, 25.0, 70.0, 6.5, 75.0),
      ["NPK 15-15-15", "Calcium Nitrate", "Micronutrients"],
      Some("Kharif/Rabi"), Some("120-150 days"))
    case "garlic" => CropInfo(
      "An important condiment crop with medicinal properties.",
      AllFields(60.0, 40.0, 40.0, 18.0, 60.0, 6.5, 60.0),
      ["NPK 10-10-10", "Compost", "Sulfur"],
      Some("Rabi"), Some("130-160 days"))
    case "onion" => CropInfo(
      "A fundamental ingredient in Indian cooking.",
      AllFields(50.0, 40.0, 60.0, 20.0, 65.0, 6.5, 65.0),
      ["NPK 10-10-20", "Compost", "MOP"],
      Some("Rabi/Kharif"), Some("100-130 days"))
    case "potato" => CropInfo(
      "A widely grown tuber crop across northern and eastern India.",
      AllFields(60.0, 60.0, 100.0, 18.0, 75.0, 6.0, 75.0),
      ["NPK 10-20-20", "Urea", "MOP"],
      Some("Rabi"), Some("90-120 days"))
    case "tomato" => CropInfo(
      "A versatile vegetable crop grown throughout India.",
      AllFields(50.0, 50.0, 70.0, 24.0, 60.0, 6.5, 70.0),
      ["NPK 10-20-20", "Calcium Nitrate", "Micronutrients"],
      Some("Rabi/Kharif"), Some("90-120 days"))
    case "okra" => CropInfo(
      "A popular vegetable (ladies finger) grown in warm regions.",
      AllFields(40.0, 40.0, 40.0, 27.0, 70.0, 6.5, 80.0),
      ["NPK 10-10-10", "Compost", "Micronutrients"],
      Some("Kharif/Zaid"), Some("45-65 days"))
    case "eggplant" => CropInfo(
      "A widely consumed vegetable (brinjal) in Indian cuisine.",
      AllFields(50.0, 40.0, 30.0, 26.0, 70.0, 6.0, 75.0),
      ["NPK 10-10-10", "Urea", "Micronutrients"],
      Some("Kharif/Rabi"), Some("100-130 days"))
    case "cauliflower" => CropInfo(
      "A popular cole crop grown during winter in northern India.",
      AllFields(60.0, 50.0, 50.0, 18.0, 75.0, 6.5, 60.0),
      ["NPK 15-15-15", "Urea", "Boron"],
      Some("Rabi"), Some("90-120 days"))
    case "cabbage" => CropInfo(
      "A leafy vegetable grown primarily in winter months.",
      AllFields(60.0, 40.0, 40.0, 17.0, 70.0, 6.5, 60.0),
      ["NPK 15-15-15", "Urea", "Boron"],
      Some("Rabi"), Some("90-120 days"))
    case "spinach" => CropInfo(
      "A nutritious leafy vegetable grown throughout India.",
      AllFields(50.0, 30.0, 20.0, 20.0, 70.0, 6.5, 50.0),
      ["Compost", "Low NPK", "Vermicompost"],
      Some("Rabi"), Some("30-45 days"))
    case "guava" => CropInfo(
      "A popular tropical fruit rich in vitamin C.",
      AllFields(40.0, 40.0, 40.0, 26.0, 70.0, 6.5, 100.0),
      ["NPK 10-10-10", "FYM", "Micronutrients"],
      Some("Perennial"), Some("2-3 years for first harvest"))
    case "litchi" => CropInfo(
      "A delicious subtropical fruit grown in eastern India.",
      AllFields(50.0, 40.0, 60.0, 25.0, 75.0, 6.0, 120.0),
      ["NPK 10-10-20", "FYM", "Zinc Sulfate"],
      Some("Perennial"), Some("3-5 years for first harvest"))
    case "jackfruit" => CropInfo(
      "The largest tree-borne fruit, popular in southern India.",
      AllFields(40.0, 40.0, 60.0, 28.0, 80.0, 6.5, 150.0),
      ["FYM", "Low NPK", "Potash"],
      Some("Perennial"), Some("3-5 years for first harvest"))
    case "sapota" => CropInfo(
      "A tropical fruit (chikoo) popular in western India.",
      AllFields(40.0, 40.0, 40.0, 28.0, 75.0, 6.5, 125.0),
      ["NPK 10-10-10", "FYM", "Micronutrients"],
      Some("Perennial"), Some("4-5 years for first harvest"))
    case "black_pepper" => CropInfo(
      "Known as \"black gold\", a high-value spice crop grown in Kerala and other southern states.",
      AllFields(30.0, 30.0, 50.0, 25.0, 80.0, 5.5, 250.0),
      ["NPK 10-10-20", "Organic Manure", "Micronutrients"],
      Some("Perennial"), Some("3-4 years for first harvest"))
    case "cinnamon" => CropInfo(
      "Aromatic spice obtained from the inner bark of trees, primarily grown in southern India.",
      AllFields(20.0, 20.0, 40.0, 27.0, 80.0, 5.5, 200.0),
      ["Compost", "NPK 5-10-10", "Neem Cake"],
      Some("Perennial"), Some("3-5 years for first harvest"))
    case "saffron" => CropInfo(
      "The world's most expensive spice by weight, grown in Kashmir valley.",
      AllFields(15.0, 20.0, 30.0, 12.0, 60.0, 6.8, 40.0),
      ["Well-rotted Manure", "NPK 10-10-20", "Bone Meal"],
      Some("Rabi"), Some("3-4 months (annual flowering)"))
    case "asafoetida" => CropInfo(
      "A resinous gum with pungent taste used in Indian cuisine, grown in cold arid regions.",
      AllFields(20.0, 20.0, 30.0, 15.0, 40.0, 7.0, 50.0),
      ["Compost", "Bone Meal", "Low NPK"],
      Some("Perennial"), Some("4-5 years for first harvest"))
    case "fennel" => CropInfo(
      "Aromatic herb with medicinal properties, extensively grown in Gujarat and Rajasthan.",
      AllFields(30.0, 40.0, 20.0, 18.0, 60.0, 6.5, 70.0),
      ["NPK 20-20-20", "Vermicompost", "Neem Cake"],
      Some("Rabi"), Some("100-130 days"))
    case "ajwain" => CropInfo(
      "Aromatic spice with digestive properties, primarily grown in Gujarat and Rajasthan.",
      AllFields(25.0, 40.0, 20.0, 20.0, 50.0, 7.0, 60.0),
      ["Organic Manure", "SSP", "Low NPK"],
      Some("Rabi"), Some("120-150 days"))
    case "star_anise" => CropInfo(
      "Star-shaped spice with sweet licorice flavor, grown in northeastern states.",
      AllFields(20.0, 30.0, 40.0, 25.0, 75.0, 6.0, 180.0),
      ["NPK 10-10-10", "Compost", "Micronutrients"],
      Some("Perennial"), Some("5-6 years for first harvest"))
    case "nutmeg" => CropInfo(
      "Aromatic spice from the seed of Myristica fragrans, grown in Kerala and Tamil Nadu.",
      AllFields(30.0, 30.0, 50.0, 27.0, 80.0, 6.0, 250.0),
      ["NPK 10-5-20", "Organic Matter", "Micronutrients"],
      Some("Perennial"), Some("7-9 years for first harvest"))
    case "mace" => CropInfo(
      "Spice from the red aril surrounding the nutmeg seed, grown alongside nutmeg.",
      AllFields(30.0, 30.0, 50.0, 27.0, 80.0, 6.0, 250.0),
      ["NPK 10-5-20", "Organic Matter", "Micronutrients"],
      Some("Perennial"), Some("7-9 years for first harvest"))
    case "bay_leaf" => CropInfo(
      "Aromatic leaf used in cooking, grown in the subtropical Himalayan regions.",
      AllFields(20.0, 20.0, 30.0, 20.0, 70.0, 6.5, 150.0),
      ["Compost", "Low NPK", "Organic Matter"],
      Some("Perennial"), Some("3-4 years for full growth"))
    case "tamarind" => CropInfo(
      "Sour fruit used in cooking and medicinal preparations, grown in southern India.",
      AllFields(20.0, 20.0, 40.0, 30.0, 70.0, 6.5, 100.0),
      ["FYM", "NPK 10-10-10", "Micronutrients"],
      Some("Perennial"), Some("5-7 years for first harvest"))
    case "curry_leaf" => CropInfo(
      "Aromatic herb used in South Indian cuisine, grown throughout India.",
      AllFields(25.0, 25.0, 30.0, 28.0, 65.0, 6.5, 150.0),
      ["Compost", "NPK 10-10-10", "Neem Cake"],
      Some("Perennial"), Some("1-2 years for regular harvesting"))
    case "paddy" => CropInfo(
      "Major cereal crop of the Kharif season, extensively grown during monsoons.",
      AllFields(80.0, 40.0, 30.0, 25.0, 85.0, 6.0, 200.0),
      ["Urea", "DAP", "MOP"],
      Some("Kharif"), Some("90-150 days"))
    case "arhar_dal" => CropInfo(
      "Also known as toor/pigeon pea, a major pulse crop of the Kharif season.",
      AllFields(20.0, 60.0, 20.0, 25.0, 60.0, 6.5, 65.0),
      ["SSP", "DAP", "Micronutrients"],
      Some("Kharif"), Some("150-180 days"))
    case "urad_dal" => CropInfo(
      "Quick-growing Kharif pulse with soil-enriching properties.",
      AllFields(20.0, 40.0, 30.0, 30.0, 70.0, 6.0, 75.0),
      ["SSP", "Rhizobium Culture", "FYM"],
      Some("Kharif"), Some("70-90 days"))
    case "sesamum" => CropInfo(
      "Ancient oilseed crop grown for its nutritious seeds.",
      AllFields(30.0, 30.0, 30.0, 27.0, 60.0, 6.5, 70.0),
      ["DAP", "MOP", "Gypsum"],
      Some("Kharif"), Some("80-95 days"))
    case "bajra" => CropInfo(
      "Drought-resistant millet widely grown in arid and semi-arid regions.",
      AllFields(40.0, 20.0, 20.0, 28.0, 50.0, 7.0, 50.0),
      ["Urea", "SSP", "MOP"],
      Some("Kharif"), Some("90-110 days"))
    case "jowar" => CropInfo(
      "Drought-tolerant grain used for food, fodder, and industrial purposes.",
      AllFields(50.0, 40.0, 30.0, 27.0, 60.0, 6.5, 70.0),
      ["Urea", "SSP", "MOP"],
      Some("Kharif/Rabi"), Some("100-120 days"))
    case "ragi" => CropInfo(
      "Nutritious millet (finger millet) with excellent drought tolerance.",
      AllFields(30.0, 20.0, 20.0, 27.0, 60.0, 6.5, 80.0),
      ["FYM", "Compost", "Low NPK"],
      Some("Kharif"), Some("90-120 days"))
    case "castor" => CropInfo(
      "Industrial oil crop used in pharmaceuticals and lubricants.",
      AllFields(40.0, 40.0, 20.0, 25.0, 60.0, 6.5, 65.0),
      ["NPK 20-20-10", "Ammonium Sulfate", "SSP"],
      Some("Kharif"), Some("140-180 days"))
    case "indigo" => CropInfo(
      "Traditional natural dye crop with medicinal properties.",
      AllFields(30.0, 40.0, 20.0, 25.0, 70.0, 7.0, 75.0),
      ["Compost", "FYM", "Low NPK"],
      Some("Kharif"), Some("120-150 days"))
    case "barley" => CropInfo(
      "Cold-tolerant cereal crop used for food, feed, and malting.",
      AllFields(60.0, 30.0, 30.0, 15.0, 60.0, 7.0, 40.0),
      ["Urea", "DAP", "MOP"],
      Some("Rabi"), Some("110-130 days"))
    case "gram" => CropInfo(
      "Important pulse crop (Bengal gram) grown during the Rabi season.",
      AllFields(20.0, 50.0, 20.0, 21.0, 50.0, 7.0, 60.0),
      ["SSP", "Rock Phosphate", "Rhizobium Culture"],
      Some("Rabi"), Some("95-120 days"))
    case "masoor" => CropInfo(
      "Nutritious lentil variety cultivated in northern plains.",
      AllFields(20.0, 50.0, 20.0, 18.0, 55.0, 6.0, 60.0),
      ["DAP", "MOP", "Rhizobium Culture"],
      Some("Rabi"), Some("100-120 days"))
    case "mustard_oil" => CropInfo(
      "Major oilseed crop in the Rabi season across North India.",
      AllFields(60.0, 40.0, 40.0, 20.0, 60.0, 6.5, 60.0),
      ["Urea", "SSP", "MOP"],
      Some("Rabi"), Some("100-130 days"))
    case "rapeseed" => CropInfo(
      "Winter oilseed crop used for cooking oil and industrial purposes.",
      AllFields(60.0, 40.0, 40.0, 18.0, 60.0, 6.5, 60.0),
      ["Urea", "SSP", "MOP"],
      Some("Rabi"), Some("100-130 days"))
    case "safflower" => CropInfo(
      "Drought-tolerant oilseed crop grown in central and peninsular India.",
      AllFields(40.0, 40.0, 20.0, 20.0, 50.0, 7.0, 50.0),
      ["NPK 20-40-20", "Ammonium Sulfate", "SSP"],
      Some("Rabi"), Some("120-150 days"))
    case "sunflower" => CropInfo(
      "Important oilseed crop that can be grown in both Rabi and Kharif seasons.",
      AllFields(60.0, 80.0, 40.0, 23.0, 60.0, 6.5, 70.0),
      ["NPK 20-40-20", "Boron", "Sulfur"],
      Some("Rabi/Kharif"), Some("90-110 days"))
    case "isabgol" => CropInfo(
      "Medicinal crop grown for its seed husk used as dietary fiber.",
      AllFields(30.0, 40.0, 20.0, 20.0, 50.0, 7.5, 40.0),
      ["NPK 15-10-10", "FYM", "Compost"],
      Some("Rabi"), Some("120-130 days"))
    case "cucumber" => CropInfo(
      "Quick-growing summer vegetable that requires warm conditions.",
      AllFields(50.0, 50.0, 60.0, 28.0, 60.0, 6.5, 40.0),
      ["NPK 10-26-26", "Urea", "Micronutrients"],
      Some("Zaid"), Some("45-60 days"))
    case "watermelon_zaid" => CropInfo(
      "Heat-tolerant fruit crop grown during the summer season.",
      AllFields(40.0, 60.0, 70.0, 32.0, 60.0, 6.5, 50.0),
      ["NPK 5-10-15", "Calcium Nitrate", "Potash"],
      Some("Zaid"), Some("80-110 days"))
    case "bitter_gourd" => CropInfo(
      "Summer vegetable with unique bitter flavor and medicinal properties.",
      AllFields(50.0, 40.0, 60.0, 30.0, 70.0, 6.5, 60.0),
      ["NPK 10-10-10", "Organic Manure", "Micronutrients"],
      Some("Zaid"), Some("60-80 days"))
    case "pumpkin" => CropInfo(
      "Warm-season vegetable crop grown during summer months.",
      AllFields(40.0, 60.0, 40.0, 28.0, 60.0, 6.5, 50.0),
      ["NPK 10-10-10", "FYM", "Compost"],
      Some("Zaid"), Some("85-120 days"))
    case "muskmelon_zaid" => CropInfo(
      "Sweet summer fruit that requires warm conditions and adequate irrigation.",
      AllFields(40.0, 60.0, 50.0, 30.0, 60.0, 6.5, 45.0),
      ["NPK 6-12-12", "Calcium Nitrate", "Micronutrients"],
      Some("Zaid"), Some("70-90 days"))
    case "ridge_gourd" => CropInfo(
      "Fast-growing summer vegetable grown for its immature fruits.",
      AllFields(50.0, 40.0, 60.0, 28.0, 70.0, 6.5, 60.0),
      ["NPK 10-10-10", "Urea", "FYM"],
      Some("Zaid"), Some("50-70 days"))
    case "bottle_gourd" => CropInfo(
      "Commonly grown summer vegetable with high water content.",
      AllFields(50.0, 50.0, 50.0, 28.0, 70.0, 6.5, 60.0),
      ["NPK 10-10-10", "Urea", "FYM"],
      Some("Zaid"), Some("65-80 days"))
    case "tea" => CropInfo(
      "Major plantation crop grown in northeastern states and southern highlands.",
      AllFields(50.0, 40.0, 40.0, 20.0, 80.0, 5.5, 200.0),
      ["NPK 10-5-10", "Ammonium Sulfate", "Organic Matter"],
      Some("Perennial"), Some("3-5 years for first harvest"))
    case "rubber" => CropInfo(
      "Commercial plantation crop grown in Kerala and other southern states.",
      AllFields(40.0, 30.0, 40.0, 27.0, 80.0, 6.0, 250.0),
      ["NPK 10-10-10", "Magnesium Sulfate", "Organic Matter"],
      Some("Perennial"), Some("7-10 years for tapping"))
    case "mulberry" => CropInfo(
      "Cultivated for silkworm rearing, important for the sericulture industry.",
      AllFields(60.0, 40.0, 40.0, 25.0, 75.0, 6.5, 100.0),
      ["NPK 20-20-20", "FYM", "Urea"],
      Some("Perennial"), Some("6-8 months for first harvest"))
    case "soybean" => CropInfo(
      "Major oilseed and protein crop grown in central India.",
      AllFields(30.0, 60.0, 40.0, 25.0, 70.0, 6.5, 80.0),
      ["DAP", "SSP", "Rhizobium Culture"],
      Some("Kharif"), Some("90-120 days"))
    case "green_gram" => CropInfo(
      "Quick-growing pulse crop with high protein content.",
      AllFields(20.0, 40.0, 20.0, 28.0, 70.0, 7.0, 60.0),
      ["DAP", "SSP", "Rhizobium Culture"],
      Some("Kharif/Zaid"), Some("60-70 days"))
    case "horse_gram" => CropInfo(
      "Drought-resistant legume grown in rain-fed conditions.",
      AllFields(20.0, 40.0, 20.0, 25.0, 60.0, 6.8, 50.0),
      ["Rock Phosphate", "FYM", "Low NPK"],
      Some("Kharif"), Some("120-140 days"))
    case "cluster_bean" => CropInfo(
      "Drought-tolerant legume used as vegetable and industrial gum (guar).",
      AllFields(20.0, 40.0, 20.0, 30.0, 60.0, 7.0, 50.0),
      ["FYM", "DAP", "SSP"],
      Some("Kharif"), Some("90-120 days"))
    case "amaranthus" => CropInfo(
      "Ancient grain and leafy vegetable with high nutritional value.",
      AllFields(60.0, 40.0, 40.0, 25.0, 60.0, 6.5, 60.0),
      ["NPK 15-15-15", "Compost", "Vermicompost"],
      Some("Kharif/Zaid"), Some("30-45 days (leafy), 90-120 days (grain)"))
    case "quinoa" => CropInfo(
      "New crop to India with high nutritional value, grown in highlands.",
      AllFields(40.0, 40.0, 20.0, 20.0, 50.0, 7.0, 40.0),
      ["NPK 10-20-10", "Compost", "FYM"],
      Some("Rabi"), Some("90-120 days"))
    case _ => CropInfo("", NoConditions, [], None, None)
  }

  /** `CROP_DATA`: the profile of every id it declares, and nothing else. */
  const CropData: map<string, CropInfo> := map id | id in CropDataIds :: Profile(id)
  /** Every id of `ids` has an entry in `data`: what the local ranking asks of its catalog. */
  predicate AllKnown(ids: seq<string>, data: map<string, CropInfo>)
  {
    forall i :: 0 <= i < |ids| ==> ids[i] in data
  }

  lemma UnknownIdsNotInPart0()
    ensures "pigeon_pea" !in CropDataIdsPart0 && "black_gram" !in CropDataIdsPart0
  {
  }

  lemma UnknownIdsNotInPart1()
    ensures "pigeon_pea" !in CropDataIdsPart1 && "black_gram" !in CropDataIdsPart1
  {
  }

  lemma UnknownIdsNotInPart2()
    ensures "pigeon_pea" !in CropDataIdsPart2 && "black_gram" !in CropDataIdsPart2
  {
  }

  lemma UnknownIdsNotInPart3()
    ensures "pigeon_pea" !in CropDataIdsPart3 && "black_gram" !in CropDataIdsPart3
  {
  }

  lemma UnknownIdsNotInPart4()
    ensures "pigeon_pea" !in CropDataIdsPart4 && "black_gram" !in CropDataIdsPart4
  {
  }

  lemma UnknownIdsNotInPart5()
    ensures "pigeon_pea" !in CropDataIdsPart5 && "black_gram" !in CropDataIdsPart5
  {
  }

  lemma UnknownIdsNotInPart6()
    ensures "pigeon_pea" !in CropDataIdsPart6 && "black_gram" !in CropDataIdsPart6
  {
  }

  lemma UnknownIdsNotInPart7()
    ensures "pigeon_pea" !in CropDataIdsPart7 && "black_gram" !in CropDataIdsPart7
  {
  }

  /** Neither `pigeon_pea` nor `black_gram` has a profile. */
  lemma UnknownIdsLackData()
    ensures "pigeon_pea" !in CropData && "black_gram" !in CropData
  {
    UnknownIdsNotInPart0();
    UnknownIdsNotInPart1();
    UnknownIdsNotInPart2();
    UnknownIdsNotInPart3();
    UnknownIdsNotInPart4();
    UnknownIdsNotInPart5();
    UnknownIdsNotInPart6();
    UnknownIdsNotInPart7();
  }

  /** The two ids of the last group before `pigeon_pea` have profiles. */
  lemma CropsOtherHeadKnown()
    ensures AllKnown(CropsOther[..2], CropData)
  {
  }

  /** The shipped list up to `pigeon_pea`: every id in it has a profile. */
  lemma ShippedKnownPrefix()
    ensures Crops == (LeadingGroups + CropsOther[..2]) + CropsOther[2..]
    ensures AllKnown(LeadingGroups + CropsOther[..2], CropData)
    ensures CropsOther[2..][0] == "pigeon_pea"
  {
    LeadingGroupsKnown();
    CropsOtherHeadKnown();
    AllKnownAppend(LeadingGroups, CropsOther[..2], CropData);
    CropsSplitAtPigeonPea();
  }

  /** The shipped list cut just before `pigeon_pea`. */
  lemma CropsSplitAtPigeonPea()
    ensures Crops == (LeadingGroups + CropsOther[..2]) + CropsOther[2..]
    ensures CropsOther[2..][0] == "pigeon_pea"
  {
    assert CropsOther == CropsOther[..2] + CropsOther[2..];
  }

  /**
   * `CROPS` names `pigeon_pea` and `black_gram`, and `CROP_DATA` declares neither,
   * so the shipped tables break what the local ranking asks of its catalog.
   */
  lemma ShippedCatalogLacksData()
    ensures |Crops| == 99
    ensures Crops[92] == "pigeon_pea" && "pigeon_pea" !in CropData
    ensures Crops[94] == "black_gram" && "black_gram" !in CropData
    ensures !AllKnown(Crops, CropData)
  {
    UnknownIdsLackData();
    LeadingGroupsKnown();
    assert Crops[92] == CropsOther[2];
    assert Crops[94] == CropsOther[4];
  }

  /** `CROPS` lists `pearl_millet` twice. */
  lemma ShippedCatalogRepeatsPearlMillet()
    ensures Crops[28] == "pearl_millet" && Crops[90] == "pearl_millet"
    ensures !OccursOnlyAt(Crops, "pearl_millet", 28)
  {
  }

  /**
   * `CROPS` without the two ids that lack a profile and without its second
   * `pearl_millet`: the catalog the local ranking evidently means to score.
   */
  const RepairedCrops: seq<string> := LeadingGroups + KeptOther

  /** The last group without its repeated `pearl_millet` and the two ids that have no profile. */
  const KeptOther: seq<string> := [CropsOther[1], CropsOther[3]] + CropsOther[5..]

  lemma CropsOriginalKnown()
    ensures AllKnown(CropsOriginal, CropData)
  {
  }

  lemma CropsIndianKnown()
    ensures AllKnown(CropsIndian, CropData)
  {
  }

  lemma CropsSpicesKnown()
    ensures AllKnown(CropsSpices, CropData)
  {
  }

  lemma CropsKharifKnown()
    ensures AllKnown(CropsKharif, CropData)
  {
  }

  lemma CropsRabiKnown()
    ensures AllKnown(CropsRabi, CropData)
  {
  }

  lemma CropsZaidKnown()
    ensures AllKnown(CropsZaid, CropData)
  {
  }

  lemma CropsCashKnown()
    ensures AllKnown(CropsCash, CropData)
  {
  }

  lemma CropsOtherKeptKnown()
    ensures AllKnown(KeptOther, CropData)
  {
  }

  lemma AllKnownAppend(a: seq<string>, b: seq<string>, data: map<string, CropInfo>)
    requires AllKnown(a, data) && AllKnown(b, data)
    ensures AllKnown(a + b, data)
  {
  }

  /** Every id of the leading groups has a profile. */
  lemma LeadingGroupsKnown()
    ensures |LeadingGroups| == 90
    ensures AllKnown(LeadingGroups, CropData)
  {
    CropsOriginalKnown();
    CropsIndianKnown();
    CropsSpicesKnown();
    CropsKharifKnown();
    CropsRabiKnown();
    CropsZaidKnown();
    CropsCashKnown();
    var p1 := CropsOriginal + CropsIndian;
    AllKnownAppend(CropsOriginal, CropsIndian, CropData);
    var p2 := p1 + CropsSpices;
    AllKnownAppend(p1, CropsSpices, CropData);
    var p3 := p2 + CropsKharif;
    AllKnownAppend(p2, CropsKharif, CropData);
    var p4 := p3 + CropsRabi;
    AllKnownAppend(p3, CropsRabi, CropData);
    var p5 := p4 + CropsZaid;
    AllKnownAppend(p4, CropsZaid, CropData);
    AllKnownAppend(p5, CropsCash, CropData);
  }

  /** Every id of the repaired catalog has a profile, and it still holds 96 ids. */
  lemma RepairedCropsAllKnown()
    ensures |RepairedCrops| == 96
    ensures AllKnown(RepairedCrops, CropData)
  {
    LeadingGroupsKnown();
    CropsOtherKeptKnown();
    AllKnownAppend(LeadingGroups, KeptOther, CropData);
  }

  /** `x` occurs in `ids` at position `k` and nowhere else, if at all. */
  predicate OccursOnlyAt(ids: seq<string>, x: string, k: int)
  {
    forall i :: 0 <= i < |ids| && ids[i] == x ==> i == k
  }

  /** In its group, `pearl_millet` is the seventh id and appears nowhere else. */
  lemma PearlMilletOnceInIndian()
    ensures CropsIndian[6] == "pearl_millet"
    ensures OccursOnlyAt(CropsIndian, "pearl_millet", 6)
  {
  }

  /** The original, spice and kharif groups never name `pearl_millet`. */
  lemma PearlMilletAbsentEarly()
    ensures "pearl_millet" !in CropsOriginal && "pearl_millet" !in CropsSpices
    ensures "pearl_millet" !in CropsKharif
  {
  }

  /** Nor do the later groups of the repaired catalog. */
  lemma PearlMilletAbsentLate()
    ensures "pearl_millet" !in CropsRabi && "pearl_millet" !in CropsZaid
    ensures "pearl_millet" !in CropsCash && "pearl_millet" !in KeptOther
  {
  }

  /** Putting ids that avoid `x` in front shifts its only position by their count. */
  lemma OccursOnlyAtPrepend(a: seq<string>, m: seq<string>, x: string, k: int)
    requires x !in a && OccursOnlyAt(m, x, k)
    ensures OccursOnlyAt(a + m, x, |a| + k)
  {
  }

  /** Appending ids that avoid `x` keeps its only position. */
  lemma OccursOnlyAtAppend(s: seq<string>, t: seq<string>, x: string, k: int)
    requires OccursOnlyAt(s, x, k) && x !in t
    ensures OccursOnlyAt(s + t, x, k)
  {
  }

  /** The repaired catalog lists `pearl_millet` once, at the position it first has in `CROPS`. */
  lemma RepairedCropsPearlMilletOnce()
    ensures RepairedCrops[28] == "pearl_millet" && Crops[28] == "pearl_millet"
    ensures OccursOnlyAt(RepairedCrops, "pearl_millet", 28)
  {
    var x := "pearl_millet";
    PearlMilletOnceInIndian();
    PearlMilletAbsentEarly();
    PearlMilletAbsentLate();
    OccursOnlyAtPrepend(CropsOriginal, CropsIndian, x, 6);
    var p1 := CropsOriginal + CropsIndian;
    OccursOnlyAtAppend(p1, CropsSpices, x, 28);
    var p2 := p1 + CropsSpices;
    OccursOnlyAtAppend(p2, CropsKharif, x, 28);
    var p3 := p2 + CropsKharif;
    OccursOnlyAtAppend(p3, CropsRabi, x, 28);
    var p4 := p3 + CropsRabi;
    OccursOnlyAtAppend(p4, CropsZaid, x, 28);
    var p5 := p4 + CropsZaid;
    OccursOnlyAtAppend(p5, CropsCash, x, 28);
    OccursOnlyAtAppend(LeadingGroups, KeptOther, x, 28);
  }

  /**
   * The repaired catalog mends both defects of `CROPS`: every id has a profile,
   * and `pearl_millet`, which `CROPS` lists twice, is listed once.
   */
  lemma RepairedCropsMendsCatalog()
    ensures |RepairedCrops| == 96 && AllKnown(RepairedCrops, CropData)
    ensures RepairedCrops[28] == "pearl_millet" && OccursOnlyAt(RepairedCrops, "pearl_millet", 28)
  {
    RepairedCropsAllKnown();
    RepairedCropsPearlMilletOnce();
  }

  /** Rice comes first in both catalogs, with the profile at line 76. */
  lemma RiceProfile()
    ensures Crops[0] == "rice" && RepairedCrops[0] == "rice" && "rice" in CropData
    ensures CropData["rice"].idealConditions == AllFields(80.0, 40.0, 40.0, 25.0, 80.0, 6.5, 200.0)
  {
  }
}