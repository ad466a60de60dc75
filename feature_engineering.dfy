/**
 * Contextual feature enrichment of road rows: hospital proximity score,
 * land-use and soil multipliers, and the soil-adjusted reconstruction cost.
 */
module FeatureEngineering {
  import opened Wrappers

  /** One road as the data source supplies it (map coordinates are not modelled). */
  datatype RoadRow = RoadRow(
    id: int,
    zone: string,
    roadName: string,
    damage: real,
    population: int,
    distanceToHospital: real,
    aidRoute: real,
    landUse: string,
    soil: string,
    baseCost: real)

  /** A road row with the four derived columns; a `None` factor is pandas' NaN. */
  datatype EnrichedRoad = EnrichedRoad(
    row: RoadRow,
    hospitalScore: real,
    landUseFactor: Option<real>,
    soilFactor: Option<real>,
    finalCost: Option<real>)

  /** `1 / (1 + distance)`; the one distance with no real value is -1. */
  function HospitalScore(distance: real): (r: real)
    requires 1.0 + distance != 0.0
    ensures r * (1.0 + distance) == 1.0
    ensures r > 0.0 <==> distance > -1.0
  {
    var d := 1.0 + distance;
    var r := 1.0 / d;
    assert r * d == 1.0;
    assert d > 0.0 ==> r > 0.0;
    assert d < 0.0 ==> r < 0.0;
    r
  }

  /** The land-use priority table; any other category maps to a missing value. */
  function LandUseFactor(landUse: string): (r: Option<real>)
    ensures r.Some? <==> landUse in {"residential", "mixed", "industrial"}
  {
    if landUse == "residential" then Some(1.2)
    else if landUse == "mixed" then Some(1.0)
    else if landUse == "industrial" then Some(0.8)
    else None
  }

  /** The soil difficulty table; any other category maps to a missing value. */
  function SoilFactor(soil: string): (r: Option<real>)
    ensures r.Some? <==> soil in {"sandy", "compact"}
  {
    if soil == "sandy" then Some(1.4)
    else if soil == "compact" then Some(1.0)
    else None
  }

  /** `base_cost * soil_factor`; a missing factor makes the cost missing too. */
  function FinalCost(baseCost: real, soilFactor: Option<real>): (r: Option<real>)
    ensures r.Some? <==> soilFactor.Some?
  {
    match soilFactor
    case Some(f) => Some(baseCost * f)
    case None => None
  }

  /** All derived columns of one row. */
  function EnrichRow(row: RoadRow): EnrichedRoad
    requires 1.0 + row.distanceToHospital != 0.0
  {
    var soil := SoilFactor(row.soil);
    EnrichedRoad(row, HospitalScore(row.distanceToHospital), LandUseFactor(row.landUse),
                 soil, FinalCost(row.baseCost, soil))
  }

  /** `engineer_context_features`: the column assignments applied to the whole table. */
  function EngineerContextFeatures(rows: seq<RoadRow>): (r: seq<EnrichedRoad>)
    requires forall i :: 0 <= i < |rows| ==> 1.0 + rows[i].distanceToHospital != 0.0
    ensures |r| == |rows|
    ensures forall i :: 0 <= i < |rows| ==> r[i].row == rows[i]
    ensures forall i :: 0 <= i < |rows| ==> r[i] == EnrichRow(rows[i])
  {
    seq(|rows|, i requires 0 <= i < |rows| => EnrichRow(rows[i]))
  }

  // ---------------------------------------------------------------------
  // Properties of the derived columns
  // ---------------------------------------------------------------------

  /** For a non-negative distance the score lies in (0, 1], reaching 1 exactly at distance 0. */
  lemma HospitalScoreBounds(distance: real)
    requires distance >= 0.0
    ensures 0.0 < HospitalScore(distance) <= 1.0
    ensures HospitalScore(distance) == 1.0 <==> distance == 0.0
  {
    var d := 1.0 + distance;
    assert HospitalScore(distance) * d == 1.0;
  }

  /** A farther hospital never scores higher: the score strictly decreases in distance. */
  lemma HospitalScoreDecreasing(d1: real, d2: real)
    requires 0.0 <= d1 < d2
    ensures HospitalScore(d2) < HospitalScore(d1)
  {
    var a, b := 1.0 + d1, 1.0 + d2;
    var s1, s2 := HospitalScore(d1), HospitalScore(d2);
    assert s1 * a == 1.0 && s2 * b == 1.0;
    HospitalScoreBounds(d2);
    var u, v := s2 * a, s2 * b;
    assert u < v by { assert s2 * (b - a) > 0.0; }
    assert (s1 - s2) * a == 1.0 - u;
  }

  /** The three known land uses get 1.2, 1.0 and 0.8. */
  lemma LandUseTable()
    ensures LandUseFactor("residential") == Some(1.2)
    ensures LandUseFactor("mixed") == Some(1.0)
    ensures LandUseFactor("industrial") == Some(0.8)
  {
  }

  /** Sandy soil gets 1.4, compact soil 1.0. */
  lemma SoilTable()
    ensures SoilFactor("sandy") == Some(1.4)
    ensures SoilFactor("compact") == Some(1.0)
  {
  }

  /** For a known soil and a non-negative base cost the final cost is never below the
      base cost, and equals it exactly on compact soil (or at zero cost). */
  lemma FinalCostAtLeastBase(row: RoadRow)
    requires 1.0 + row.distanceToHospital != 0.0
    requires row.soil in {"sandy", "compact"}
    requires row.baseCost >= 0.0
    ensures EnrichRow(row).finalCost.Some?
    ensures EnrichRow(row).finalCost.value >= row.baseCost
    ensures EnrichRow(row).finalCost.value == row.baseCost <==> row.soil == "compact" || row.baseCost == 0.0
  {
  }
}
