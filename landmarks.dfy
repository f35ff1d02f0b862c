/**
 * The fixed catalog of nine landmarks, three per region, each with its
 * hidden conditions in discovery order. A multiplier record is written
 * `Multiplier(health, stamina, money)`; `None` is an absent axis.
 */
module Landmarks {
  import opened ExhibitTypes
  import Personas

  // Rizal Park, Manila (src/data/landmarks.ts:6)

  const RpDistance := HiddenCondition("rp-distance", Distance, "Long Walking Distance",
    -5, -25, 0, map[
      "elderly" := Multiplier(Some(1.3), Some(1.5), None),
      "parent" := Multiplier(None, Some(1.3), None),
      "limited-stamina" := Multiplier(Some(1.2), Some(1.8), None)])

  const RpShade := HiddenCondition("rp-shade", Shade, "Open Monument Grounds",
    -10, -15, -50, map[
      "elderly" := Multiplier(Some(1.5), Some(1.3), None),
      "parent" := Multiplier(Some(1.2), None, None)])

  const RpCrowd := HiddenCondition("rp-crowd", Crowd, "Weekend & Holiday Crowds",
    -5, -10, -30, map[
      "elderly" := Multiplier(Some(1.2), Some(1.4), None),
      "parent" := Multiplier(None, Some(1.6), None)])

  const RpVendors := HiddenCondition("rp-vendors", Vendors, "Aggressive Street Vendors",
    0, -5, -80, map[
      "parent" := Multiplier(None, None, Some(1.5)),
      "elderly" := Multiplier(None, None, Some(1.3))])

  const RpSeating := HiddenCondition("rp-seating", Seating, "Sparse Seating Between Zones",
    -5, -20, 0, map[
      "elderly" := Multiplier(Some(1.2), Some(1.5), None),
      "limited-stamina" := Multiplier(None, Some(1.6), None)])

  const RpSafety := HiddenCondition("rp-safety", Safety, "Pickpocket Risk Zones",
    0, 0, -150, map[
      "elderly" := Multiplier(None, None, Some(1.5)),
      "parent" := Multiplier(None, None, Some(1.4))])

  const RizalPark := Landmark("rizal-park", "Rizal Park", "Manila", Luzon, [
    RpDistance, RpShade, RpCrowd, RpVendors, RpSeating, RpSafety])

  // Intramuros, Manila (src/data/landmarks.ts:97)

  const IntStairs := HiddenCondition("int-stairs", Stairs, "Fort Santiago Ramparts",
    -15, -20, 0, map[
      "elderly" := Multiplier(Some(1.8), Some(1.5), None),
      "parent" := Multiplier(None, Some(1.4), Some(1.5)),
      "limited-stamina" := Multiplier(Some(1.3), Some(1.7), None)])

  const IntCobblestone := HiddenCondition("int-cobblestone", Accessibility, "Cobblestone Streets",
    -5, -15, -100, map[
      "parent" := Multiplier(None, Some(1.5), Some(1.3)),
      "elderly" := Multiplier(Some(1.3), Some(1.4), None)])

  const IntDistance := HiddenCondition("int-distance", Distance, "Spread-out Historic Sites",
    -5, -20, -80, map[
      "elderly" := Multiplier(None, Some(1.4), None),
      "limited-stamina" := Multiplier(None, Some(1.6), None)])

  const IntCost := HiddenCondition("int-cost", Cost, "Multiple Paid Attractions",
    0, 0, -200, map[
      "parent" := Multiplier(None, None, Some(1.6)),
      "elderly" := Multiplier(None, None, Some(1.2))])

  const IntCalesa := HiddenCondition("int-calesa", Transport, "Calesa Price Haggling",
    0, -5, -120, map[
      "parent" := Multiplier(None, None, Some(1.4)),
      "elderly" := Multiplier(None, None, Some(1.3))])

  const Intramuros := Landmark("intramuros", "Intramuros", "Manila", Luzon, [
    IntStairs, IntCobblestone, IntDistance, IntCost, IntCalesa])

  // Vigan Heritage Village, Ilocos Sur (src/data/landmarks.ts:175)

  const VhCobblestone := HiddenCondition("vh-cobblestone", Accessibility, "Calle Crisologo Cobblestones",
    -5, -20, -80, map[
      "parent" := Multiplier(None, Some(1.5), Some(1.4)),
      "elderly" := Multiplier(Some(1.2), Some(1.4), None)])

  const VhShade := HiddenCondition("vh-shade", Shade, "Exposed Heritage Walk",
    -10, -15, -60, map[
      "elderly" := Multiplier(Some(1.4), None, None),
      "parent" := Multiplier(Some(1.2), None, Some(1.2))])

  const VhCalesa := HiddenCondition("vh-calesa", Transport, "Horse-Drawn Calesa Traffic",
    -5, -5, -70, map[
      "parent" := Multiplier(Some(1.3), None, None),
      "elderly" := Multiplier(Some(1.2), Some(1.2), None)])

  const VhVendors := HiddenCondition("vh-vendors", Vendors, "Dense Souvenir Shops",
    0, -5, -100, map[
      "parent" := Multiplier(None, None, Some(1.6)),
      "elderly" := Multiplier(None, None, Some(1.3))])

  const VhWeather := HiddenCondition("vh-weather", Weather, "Ilocos Dry Season Heat",
    -15, -20, -40, map[
      "elderly" := Multiplier(Some(1.6), Some(1.4), None),
      "limited-stamina" := Multiplier(Some(1.3), Some(1.5), None)])

  const VhRestroom := HiddenCondition("vh-restroom", Restroom, "Scarce Public Restrooms",
    -5, -10, -30, map[
      "parent" := Multiplier(None, Some(1.4), None),
      "elderly" := Multiplier(Some(1.2), Some(1.3), None)])

  const ViganHeritage := Landmark("vigan-heritage", "Vigan Heritage Village", "Ilocos Sur", Luzon, [
    VhCobblestone, VhShade, VhCalesa, VhVendors, VhWeather, VhRestroom])

  // Chocolate Hills, Bohol (src/data/landmarks.ts:267)

  const ChStairs := HiddenCondition("ch-stairs", Stairs, "214-Step Viewing Deck Climb",
    -20, -30, 0, map[
      "elderly" := Multiplier(Some(2.0), Some(1.8), None),
      "parent" := Multiplier(None, Some(1.5), None),
      "limited-stamina" := Multiplier(Some(1.5), Some(2.0), None)])

  const ChShade := HiddenCondition("ch-shade", Shade, "Fully Exposed Stairway",
    -15, -20, -40, map[
      "elderly" := Multiplier(Some(1.5), Some(1.3), None),
      "limited-stamina" := Multiplier(Some(1.2), Some(1.4), None)])

  const ChTransport := HiddenCondition("ch-transport", Transport, "Remote Carmen Location",
    0, -10, -200, map[
      "parent" := Multiplier(None, Some(1.2), Some(1.5)),
      "elderly" := Multiplier(None, None, Some(1.4))])

  const ChTerrain := HiddenCondition("ch-terrain", Terrain, "Loose Gravel ATV Trails",
    -15, -15, -150, map[
      "elderly" := Multiplier(Some(1.6), Some(1.4), None),
      "parent" := Multiplier(Some(1.3), None, Some(1.3)),
      "limited-stamina" := Multiplier(Some(1.4), Some(1.5), None)])

  const ChSignage := HiddenCondition("ch-signage", Signage, "Poor Trail Markings",
    -5, -15, -60, map[
      "elderly" := Multiplier(None, Some(1.3), None),
      "parent" := Multiplier(None, Some(1.4), None)])

  const ChocolateHills := Landmark("chocolate-hills", "Chocolate Hills", "Bohol", Visayas, [
    ChStairs, ChShade, ChTransport, ChTerrain, ChSignage])

  // Magellan's Cross, Cebu City (src/data/landmarks.ts:346)

  const McCrowd := HiddenCondition("mc-crowd", Crowd, "Sinulog Festival Crush",
    -10, -20, -60, map[
      "elderly" := Multiplier(Some(1.4), Some(1.5), None),
      "parent" := Multiplier(Some(1.2), Some(1.6), None)])

  const McVendors := HiddenCondition("mc-vendors", Vendors, "Candle & Prayer Sellers",
    0, -5, -80, map[
      "parent" := Multiplier(None, None, Some(1.5)),
      "elderly" := Multiplier(None, None, Some(1.4))])

  const McShade := HiddenCondition("mc-shade", Shade, "Open Plaza Heat",
    -10, -15, -40, map[
      "elderly" := Multiplier(Some(1.5), None, None),
      "limited-stamina" := Multiplier(None, Some(1.4), None)])

  const McAccessibility := HiddenCondition("mc-accessibility", Accessibility, "Uneven Heritage Pavement",
    -5, -10, 0, map[
      "elderly" := Multiplier(Some(1.3), Some(1.3), None),
      "parent" := Multiplier(None, Some(1.2), None)])

  const McSafety := HiddenCondition("mc-safety", Safety, "Downtown Cebu Pickpockets",
    0, 0, -180, map[
      "elderly" := Multiplier(None, None, Some(1.6)),
      "parent" := Multiplier(None, None, Some(1.4))])

  const McRestroom := HiddenCondition("mc-restroom", Restroom, "No Nearby Restrooms",
    -5, -10, -30, map[
      "parent" := Multiplier(None, Some(1.5), None),
      "elderly" := Multiplier(Some(1.2), Some(1.3), None)])

  const MagellansCross := Landmark("magellans-cross", "Magellan's Cross", "Cebu City", Visayas, [
    McCrowd, McVendors, McShade, McAccessibility, McSafety, McRestroom])

  // The Ruins, Talisay, Negros Occidental (src/data/landmarks.ts:436)

  const TrStairs := HiddenCondition("tr-stairs", Stairs, "Narrow Mansion Staircase",
    -10, -20, 0, map[
      "elderly" := Multiplier(Some(1.6), Some(1.5), None),
      "parent" := Multiplier(None, Some(1.3), None),
      "limited-stamina" := Multiplier(Some(1.2), Some(1.7), None)])

  const TrShade := HiddenCondition("tr-shade", Shade, "Roofless Ruins",
    -15, -15, -50, map[
      "elderly" := Multiplier(Some(1.5), Some(1.3), None),
      "limited-stamina" := Multiplier(Some(1.3), Some(1.4), None)])

  const TrTransport := HiddenCondition("tr-transport", Transport, "Talisay City Location",
    0, -10, -120, map[
      "parent" := Multiplier(None, Some(1.2), Some(1.3)),
      "elderly" := Multiplier(None, None, Some(1.2))])

  const TrCost := HiddenCondition("tr-cost", Cost, "Pricey Café & Entry Combo",
    0, 0, -180, map[
      "parent" := Multiplier(None, None, Some(1.5)),
      "elderly" := Multiplier(None, None, Some(1.3))])

  const TrWeather := HiddenCondition("tr-weather", Weather, "Negros Afternoon Downpours",
    -10, -10, -30, map[
      "elderly" := Multiplier(Some(1.4), Some(1.3), None),
      "parent" := Multiplier(Some(1.2), None, None),
      "limited-stamina" := Multiplier(Some(1.3), None, None)])

  const TheRuins := Landmark("the-ruins", "The Ruins", "Talisay, Negros Occidental", Visayas, [
    TrStairs, TrShade, TrTransport, TrCost, TrWeather])

  // Philippine Eagle Center, Davao City (src/data/landmarks.ts:517)

  const PecTerrain := HiddenCondition("pec-terrain", Terrain, "Hilly Forest Trails",
    -10, -25, 0, map[
      "elderly" := Multiplier(Some(1.4), Some(1.5), None),
      "limited-stamina" := Multiplier(None, Some(1.8), None)])

  const PecTransport := HiddenCondition("pec-transport", Transport, "Remote Malagos Location",
    0, -10, -150, map[
      "parent" := Multiplier(None, None, Some(1.4)),
      "elderly" := Multiplier(None, Some(1.2), Some(1.3))])

  const PecWildlife := HiddenCondition("pec-wildlife", Wildlife, "Mosquitoes & Insects",
    -10, -5, -30, map[
      "parent" := Multiplier(Some(1.4), None, None),
      "elderly" := Multiplier(Some(1.3), None, None)])

  const PecAccessibility := HiddenCondition("pec-accessibility", Accessibility, "Unpaved Gravel Paths",
    -5, -15, 0, map[
      "parent" := Multiplier(None, Some(1.4), None),
      "elderly" := Multiplier(Some(1.2), Some(1.4), None)])

  const PecWeather := HiddenCondition("pec-weather", Weather, "Mountain Rain Showers",
    -10, -10, -20, map[
      "elderly" := Multiplier(Some(1.3), Some(1.3), None),
      "limited-stamina" := Multiplier(None, Some(1.4), None)])

  const PecSignage := HiddenCondition("pec-signage", Signage, "Confusing Trail Junctions",
    0, -15, 0, map[
      "elderly" := Multiplier(None, Some(1.3), None),
      "parent" := Multiplier(None, Some(1.4), None)])

  const PhilippineEagleCenter := Landmark("philippine-eagle-center", "Philippine Eagle Center", "Davao City", Mindanao, [
    PecTerrain, PecTransport, PecWildlife, PecAccessibility, PecWeather, PecSignage])

  // Tinuy-an Falls, Bislig, Surigao del Sur (src/data/landmarks.ts:607)

  const TfStairs := HiddenCondition("tf-stairs", Stairs, "100+ Slippery Stone Steps",
    -15, -25, 0, map[
      "elderly" := Multiplier(Some(1.7), Some(1.6), None),
      "parent" := Multiplier(None, Some(1.5), None),
      "limited-stamina" := Multiplier(Some(1.3), Some(1.8), None)])

  const TfWater := HiddenCondition("tf-water", Water, "Strong Current & Spray",
    -10, -10, -50, map[
      "elderly" := Multiplier(Some(1.5), None, None),
      "parent" := Multiplier(Some(1.4), Some(1.3), None)])

  const TfTransport := HiddenCondition("tf-transport", Transport, "Deep Jungle Access Road",
    -5, -15, -180, map[
      "parent" := Multiplier(None, Some(1.3), Some(1.5)),
      "elderly" := Multiplier(None, Some(1.3), Some(1.4))])

  const TfTerrain := HiddenCondition("tf-terrain", Terrain, "Wet & Slippery Rocks",
    -15, -10, 0, map[
      "elderly" := Multiplier(Some(1.6), Some(1.3), None),
      "parent" := Multiplier(Some(1.3), None, None)])

  const TfWildlife := HiddenCondition("tf-wildlife", Wildlife, "Leeches & Jungle Insects",
    -10, -5, -40, map[
      "elderly" := Multiplier(Some(1.4), None, None),
      "parent" := Multiplier(Some(1.5), None, None),
      "limited-stamina" := Multiplier(Some(1.3), None, None)])

  const TfRestroom := HiddenCondition("tf-restroom", Restroom, "Minimal Facilities",
    -5, -5, -20, map[
      "parent" := Multiplier(None, Some(1.3), None),
      "elderly" := Multiplier(Some(1.2), Some(1.2), None)])

  const TfAltitude := HiddenCondition("tf-altitude", Altitude, "Steep Valley Descent & Climb",
    -10, -30, 0, map[
      "elderly" := Multiplier(Some(1.4), Some(1.8), None),
      "limited-stamina" := Multiplier(Some(1.3), Some(2.0), None)])

  const TinuyAnFalls := Landmark("tinuy-an-falls", "Tinuy-an Falls", "Bislig, Surigao del Sur", Mindanao, [
    TfStairs, TfWater, TfTransport, TfTerrain, TfWildlife, TfRestroom, TfAltitude])

  // Lake Sebu, South Cotabato (src/data/landmarks.ts:712)

  const LsAltitude := HiddenCondition("ls-altitude", Altitude, "1,000m Highland Elevation",
    -10, -20, -100, map[
      "elderly" := Multiplier(Some(1.3), Some(1.5), None),
      "parent" := Multiplier(None, None, Some(1.3))])

  const LsSeating := HiddenCondition("ls-seating", Seating, "Basic Tourist Facilities",
    -5, -15, -60, map[
      "elderly" := Multiplier(Some(1.2), Some(1.4), None),
      "limited-stamina" := Multiplier(None, Some(1.5), None)])

  const LsTerrain := HiddenCondition("ls-terrain", Terrain, "Muddy Lakeside Paths",
    -10, -15, 0, map[
      "parent" := Multiplier(None, Some(1.3), None),
      "elderly" := Multiplier(Some(1.3), Some(1.5), None)])

  const LsTransport := HiddenCondition("ls-transport", Transport, "Limited Public Transit",
    0, -10, -150, map[
      "parent" := Multiplier(None, Some(1.3), Some(1.4)),
      "elderly" := Multiplier(None, Some(1.4), Some(1.3))])

  const LsWater := HiddenCondition("ls-water", Water, "Lake Crossing by Dugout",
    -10, -10, -80, map[
      "parent" := Multiplier(Some(1.5), None, Some(1.3)),
      "elderly" := Multiplier(Some(1.4), Some(1.2), None)])

  const LsWeather := HiddenCondition("ls-weather", Weather, "Highland Fog & Cold Rain",
    -15, -10, -30, map[
      "elderly" := Multiplier(Some(1.5), Some(1.3), None),
      "limited-stamina" := Multiplier(Some(1.3), Some(1.4), None)])

  const LakeSebu := Landmark("lake-sebu", "Lake Sebu", "South Cotabato", Mindanao, [
    LsAltitude, LsSeating, LsTerrain, LsTransport, LsWater, LsWeather])

  /** The catalog in display order. */
  const All: seq<Landmark> := [
    RizalPark, Intramuros, ViganHeritage,
    ChocolateHills, MagellansCross, TheRuins,
    PhilippineEagleCenter, TinuyAnFalls, LakeSebu
  ]

  /** Each landmark's condition ids start with a prefix of its own, in catalog order. */
  const IdPrefixes: seq<string> := ["rp-", "int-", "vh-", "ch-", "mc-", "tr-", "pec-", "tf-", "ls-"]

  predicate NonPositiveBase(c: HiddenCondition) {
    c.healthImpact <= 0 && c.staminaImpact <= 0 && c.moneyImpact <= 0
  }

  predicate AxisInRange(v: Option<real>) {
    v.Some? ==> 1.2 <= v.value <= 2.0
  }

  predicate MultipliersInRange(c: HiddenCondition) {
    forall id :: id in c.personaMultipliers ==>
      var m := c.personaMultipliers[id];
      AxisInRange(m.health) && AxisInRange(m.stamina) && AxisInRange(m.money)
  }

  /** The only persona ids the catalog keys multipliers by. */
  const KeyedPersonas: set<PersonaId> := {"elderly", "parent", "limited-stamina"}

  /** What every condition of the catalog satisfies. */
  predicate CatalogCondition(c: HiddenCondition) {
    NonPositiveBase(c) && MultipliersInRange(c) && c.personaMultipliers.Keys <= KeyedPersonas
  }

  // One condition at a time, checked by computation.
  lemma RpDistanceOk() ensures CatalogCondition(RpDistance) {}
  lemma RpShadeOk() ensures CatalogCondition(RpShade) {}
  lemma RpCrowdOk() ensures CatalogCondition(RpCrowd) {}
  lemma RpVendorsOk() ensures CatalogCondition(RpVendors) {}
  lemma RpSeatingOk() ensures CatalogCondition(RpSeating) {}
  lemma RpSafetyOk() ensures CatalogCondition(RpSafety) {}
  lemma IntStairsOk() ensures CatalogCondition(IntStairs) {}
  lemma IntCobblestoneOk() ensures CatalogCondition(IntCobblestone) {}
  lemma IntDistanceOk() ensures CatalogCondition(IntDistance) {}
  lemma IntCostOk() ensures CatalogCondition(IntCost) {}
  lemma IntCalesaOk() ensures CatalogCondition(IntCalesa) {}
  lemma VhCobblestoneOk() ensures CatalogCondition(VhCobblestone) {}
  lemma VhShadeOk() ensures CatalogCondition(VhShade) {}
  lemma VhCalesaOk() ensures CatalogCondition(VhCalesa) {}
  lemma VhVendorsOk() ensures CatalogCondition(VhVendors) {}
  lemma VhWeatherOk() ensures CatalogCondition(VhWeather) {}
  lemma VhRestroomOk() ensures CatalogCondition(VhRestroom) {}
  lemma ChStairsOk() ensures CatalogCondition(ChStairs) {}
  lemma ChShadeOk() ensures CatalogCondition(ChShade) {}
  lemma ChTransportOk() ensures CatalogCondition(ChTransport) {}
  lemma ChTerrainOk() ensures CatalogCondition(ChTerrain) {}
  lemma ChSignageOk() ensures CatalogCondition(ChSignage) {}
  lemma McCrowdOk() ensures CatalogCondition(McCrowd) {}
  lemma McVendorsOk() ensures CatalogCondition(McVendors) {}
  lemma McShadeOk() ensures CatalogCondition(McShade) {}
  lemma McAccessibilityOk() ensures CatalogCondition(McAccessibility) {}
  lemma McSafetyOk() ensures CatalogCondition(McSafety) {}
  lemma McRestroomOk() ensures CatalogCondition(McRestroom) {}
  lemma TrStairsOk() ensures CatalogCondition(TrStairs) {}
  lemma TrShadeOk() ensures CatalogCondition(TrShade) {}
  lemma TrTransportOk() ensures CatalogCondition(TrTransport) {}
  lemma TrCostOk() ensures CatalogCondition(TrCost) {}
  lemma TrWeatherOk() ensures CatalogCondition(TrWeather) {}
  lemma PecTerrainOk() ensures CatalogCondition(PecTerrain) {}
  lemma PecTransportOk() ensures CatalogCondition(PecTransport) {}
  lemma PecWildlifeOk() ensures CatalogCondition(PecWildlife) {}
  lemma PecAccessibilityOk() ensures CatalogCondition(PecAccessibility) {}
  lemma PecWeatherOk() ensures CatalogCondition(PecWeather) {}
  lemma PecSignageOk() ensures CatalogCondition(PecSignage) {}
  lemma TfStairsOk() ensures CatalogCondition(TfStairs) {}
  lemma TfWaterOk() ensures CatalogCondition(TfWater) {}
  lemma TfTransportOk() ensures CatalogCondition(TfTransport) {}
  lemma TfTerrainOk() ensures CatalogCondition(TfTerrain) {}
  lemma TfWildlifeOk() ensures CatalogCondition(TfWildlife) {}
  lemma TfRestroomOk() ensures CatalogCondition(TfRestroom) {}
  lemma TfAltitudeOk() ensures CatalogCondition(TfAltitude) {}
  lemma LsAltitudeOk() ensures CatalogCondition(LsAltitude) {}
  lemma LsSeatingOk() ensures CatalogCondition(LsSeating) {}
  lemma LsTerrainOk() ensures CatalogCondition(LsTerrain) {}
  lemma LsTransportOk() ensures CatalogCondition(LsTransport) {}
  lemma LsWaterOk() ensures CatalogCondition(LsWater) {}
  lemma LsWeatherOk() ensures CatalogCondition(LsWeather) {}

  /** The facts above, and the ids, landmark by landmark. */
  predicate LandmarkFacts(l: Landmark, prefix: string) {
    && (forall c :: c in l.hiddenConditions ==> CatalogCondition(c))
    && UniqueIds(l.hiddenConditions)
    && (forall c :: c in l.hiddenConditions ==> prefix <= c.id)
  }

  lemma RizalParkFacts() ensures LandmarkFacts(RizalPark, "rp-") {
    RpDistanceOk(); RpShadeOk(); RpCrowdOk(); RpVendorsOk(); RpSeatingOk(); RpSafetyOk();
  }

  lemma IntramurosFacts() ensures LandmarkFacts(Intramuros, "int-") {
    IntStairsOk(); IntCobblestoneOk(); IntDistanceOk(); IntCostOk(); IntCalesaOk();
  }

  lemma ViganHeritageFacts() ensures LandmarkFacts(ViganHeritage, "vh-") {
    VhCobblestoneOk(); VhShadeOk(); VhCalesaOk(); VhVendorsOk(); VhWeatherOk(); VhRestroomOk();
  }

  lemma ChocolateHillsFacts() ensures LandmarkFacts(ChocolateHills, "ch-") {
    ChStairsOk(); ChShadeOk(); ChTransportOk(); ChTerrainOk(); ChSignageOk();
  }

  lemma MagellansCrossFacts() ensures LandmarkFacts(MagellansCross, "mc-") {
    McCrowdOk(); McVendorsOk(); McShadeOk(); McAccessibilityOk(); McSafetyOk(); McRestroomOk();
  }

  lemma TheRuinsFacts() ensures LandmarkFacts(TheRuins, "tr-") {
    TrStairsOk(); TrShadeOk(); TrTransportOk(); TrCostOk(); TrWeatherOk();
  }

  lemma PhilippineEagleCenterFacts() ensures LandmarkFacts(PhilippineEagleCenter, "pec-") {
    PecTerrainOk(); PecTransportOk(); PecWildlifeOk(); PecAccessibilityOk(); PecWeatherOk(); PecSignageOk();
  }

  lemma TinuyAnFallsFacts() ensures LandmarkFacts(TinuyAnFalls, "tf-") {
    TfStairsOk(); TfWaterOk(); TfTransportOk(); TfTerrainOk(); TfWildlifeOk(); TfRestroomOk(); TfAltitudeOk();
  }

  lemma LakeSebuFacts() ensures LandmarkFacts(LakeSebu, "ls-") {
    LsAltitudeOk(); LsSeatingOk(); LsTerrainOk(); LsTransportOk(); LsWaterOk(); LsWeatherOk();
  }

  /** Facts carry over between equal landmarks and prefixes. */
  lemma FactsTransfer(l: Landmark, m: Landmark, p: string, q: string)
    requires l == m && p == q && LandmarkFacts(m, q)
    ensures LandmarkFacts(l, p)
  {
  }

  // The same facts at the landmark's catalog index.
  lemma RizalParkAt() ensures LandmarkFacts(All[0], IdPrefixes[0]) {
    RizalParkFacts();
    FactsTransfer(All[0], RizalPark, IdPrefixes[0], "rp-");
  }

  lemma IntramurosAt() ensures LandmarkFacts(All[1], IdPrefixes[1]) {
    IntramurosFacts();
    FactsTransfer(All[1], Intramuros, IdPrefixes[1], "int-");
  }

  lemma ViganHeritageAt() ensures LandmarkFacts(All[2], IdPrefixes[2]) {
    ViganHeritageFacts();
    FactsTransfer(All[2], ViganHeritage, IdPrefixes[2], "vh-");
  }

  lemma ChocolateHillsAt() ensures LandmarkFacts(All[3], IdPrefixes[3]) {
    ChocolateHillsFacts();
    FactsTransfer(All[3], ChocolateHills, IdPrefixes[3], "ch-");
  }

  lemma MagellansCrossAt() ensures LandmarkFacts(All[4], IdPrefixes[4]) {
    MagellansCrossFacts();
    FactsTransfer(All[4], MagellansCross, IdPrefixes[4], "mc-");
  }

  lemma TheRuinsAt() ensures LandmarkFacts(All[5], IdPrefixes[5]) {
    TheRuinsFacts();
    FactsTransfer(All[5], TheRuins, IdPrefixes[5], "tr-");
  }

  lemma PhilippineEagleCenterAt() ensures LandmarkFacts(All[6], IdPrefixes[6]) {
    PhilippineEagleCenterFacts();
    FactsTransfer(All[6], PhilippineEagleCenter, IdPrefixes[6], "pec-");
  }

  lemma TinuyAnFallsAt() ensures LandmarkFacts(All[7], IdPrefixes[7]) {
    TinuyAnFallsFacts();
    FactsTransfer(All[7], TinuyAnFalls, IdPrefixes[7], "tf-");
  }

  lemma LakeSebuAt() ensures LandmarkFacts(All[8], IdPrefixes[8]) {
    LakeSebuFacts();
    FactsTransfer(All[8], LakeSebu, IdPrefixes[8], "ls-");
  }

  lemma {:induction false} FactsOf(k: nat)
    requires k < |All|
    ensures LandmarkFacts(All[k], IdPrefixes[k])
  {
    match k
    case 0 => RizalParkAt();
    case 1 => IntramurosAt();
    case 2 => ViganHeritageAt();
    case 3 => ChocolateHillsAt();
    case 4 => MagellansCrossAt();
    case 5 => TheRuinsAt();
    case 6 => PhilippineEagleCenterAt();
    case 7 => TinuyAnFallsAt();
    case 8 => LakeSebuAt();
  }

  /** Nine landmarks, three per region: Luzon, then Visayas, then Mindanao. */
  lemma NineLandmarksThreePerRegion()
    ensures |All| == 9
    ensures forall k :: 0 <= k < |All| ==>
      All[k].region == (if k < 3 then Luzon else if k < 6 then Visayas else Mindanao)
  {
  }

  /** Every landmark has between five and seven hidden conditions. */
  lemma FiveToSevenConditions()
    ensures forall l :: l in All ==> 5 <= |l.hiddenConditions| <= 7
  {
  }

  /** The catalog-wide facts, for any condition of any landmark. */
  lemma {:induction false} CatalogConditions()
    ensures forall l, c :: l in All && c in l.hiddenConditions ==> CatalogCondition(c)
  {
    forall l, c | l in All && c in l.hiddenConditions ensures CatalogCondition(c) {
      var k :| 0 <= k < |All| && All[k] == l;
      FactsOf(k);
    }
  }

  /** The catalog-wide facts for one condition of one landmark. */
  lemma {:induction false} InCatalog(l: Landmark, c: HiddenCondition)
    requires l in All && c in l.hiddenConditions
    ensures CatalogCondition(c)
  {
    var k :| 0 <= k < |All| && All[k] == l;
    FactsOf(k);
  }

  /** Every base impact of the catalog is a loss or nothing. */
  lemma {:induction false} BaseImpactsNonPositive()
    ensures forall l, c :: l in All && c in l.hiddenConditions ==> NonPositiveBase(c)
  {
    forall l, c | l in All && c in l.hiddenConditions ensures NonPositiveBase(c) {
      CatalogConditions();
      assert CatalogCondition(c);
    }
  }

  /** Every multiplier value of the catalog lies in [1.2, 2.0]. */
  lemma {:induction false} MultipliersBetweenOnePointTwoAndTwo()
    ensures forall l, c :: l in All && c in l.hiddenConditions ==> MultipliersInRange(c)
  {
    forall l, c | l in All && c in l.hiddenConditions ensures MultipliersInRange(c) {
      CatalogConditions();
      assert CatalogCondition(c);
    }
  }

  /**
   * Multipliers are keyed only by 'elderly', 'parent' and 'limited-stamina';
   * 'tourist' is never a key.
   */
  lemma {:induction false} MultiplierKeysKnown()
    ensures forall l, c :: l in All && c in l.hiddenConditions ==>
      c.personaMultipliers.Keys <= KeyedPersonas && "tourist" !in c.personaMultipliers
  {
    forall l, c | l in All && c in l.hiddenConditions
      ensures c.personaMultipliers.Keys <= KeyedPersonas && "tourist" !in c.personaMultipliers
    {
      CatalogConditions();
      assert CatalogCondition(c);
      assert "tourist" !in KeyedPersonas;
    }
  }

  /** Every key the catalog uses is the id of a catalog persona. */
  lemma KeyedPersonasExist()
    ensures forall id :: id in KeyedPersonas ==> exists p :: p in Personas.All && p.id == id
  {
    assert Personas.All[0].id == "elderly";
    assert Personas.All[1].id == "parent";
    assert Personas.All[2].id == "limited-stamina";
  }

  /** The prefixes already differ in their first two characters. */
  lemma PrefixesDiffer()
    ensures forall a :: 0 <= a < |IdPrefixes| ==> |IdPrefixes[a]| >= 2
    ensures forall a, b ::
      && 0 <= a < |IdPrefixes| && 0 <= b < |IdPrefixes|
      && IdPrefixes[a][0] == IdPrefixes[b][0] && IdPrefixes[a][1] == IdPrefixes[b][1]
      ==> a == b
  {
  }

  /** Only one landmark's prefix can begin a given id. */
  lemma SamePrefixSameLandmark(a: nat, b: nat, id: string)
    requires a < |IdPrefixes| && b < |IdPrefixes|
    requires IdPrefixes[a] <= id && IdPrefixes[b] <= id
    ensures a == b
  {
    PrefixesDiffer();
    assert IdPrefixes[a][0] == id[0] == IdPrefixes[b][0];
    assert IdPrefixes[a][1] == id[1] == IdPrefixes[b][1];
  }

  /**
   * Condition ids are unique across the whole catalog: two positions that
   * carry the same id are the same position of the same landmark.
   */
  lemma {:induction false} ConditionIdsUnique()
    ensures forall a, b, i, j ::
      0 <= a < |All| && 0 <= b < |All| &&
      0 <= i < |All[a].hiddenConditions| && 0 <= j < |All[b].hiddenConditions| &&
      All[a].hiddenConditions[i].id == All[b].hiddenConditions[j].id
      ==> a == b && i == j
  {
    forall a, b, i, j |
      0 <= a < |All| && 0 <= b < |All| &&
      0 <= i < |All[a].hiddenConditions| && 0 <= j < |All[b].hiddenConditions| &&
      All[a].hiddenConditions[i].id == All[b].hiddenConditions[j].id
      ensures a == b && i == j
    {
      FactsOf(a);
      FactsOf(b);
      var id := All[a].hiddenConditions[i].id;
      assert IdPrefixes[a] <= id && IdPrefixes[b] <= id;
      SamePrefixSameLandmark(a, b, id);
    }
  }

  /** In particular every landmark's own condition ids are distinct. */
  lemma EachLandmarkHasUniqueIds()
    ensures forall l :: l in All ==> UniqueIds(l.hiddenConditions)
  {
    forall l | l in All ensures UniqueIds(l.hiddenConditions) {
      var k :| 0 <= k < |All| && All[k] == l;
      FactsOf(k);
    }
  }

  /** The condition types the record declaration lists; the data uses more. */
  const DeclaredTypes: set<ConditionType> := {Stairs, Distance, Seating, Shade, Accessibility, Transport}

  /** Rizal Park alone uses two types the declaration lacks. */
  lemma TypesBeyondTheDeclaredUnion()
    ensures RpCrowd in All[0].hiddenConditions && RpCrowd.kind == Crowd && Crowd !in DeclaredTypes
    ensures RpVendors in All[0].hiddenConditions && RpVendors.kind == Vendors && Vendors !in DeclaredTypes
  {
    assert All[0].hiddenConditions[2] == RpCrowd;
    assert All[0].hiddenConditions[3] == RpVendors;
  }
}
