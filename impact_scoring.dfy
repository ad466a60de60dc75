/**
 * Humanitarian impact score per road: batch min-max normalisation of four
 * indicators, a weighted sum, and scaling by the land-use priority factor.
 */
module ImpactScoring {
  import opened Wrappers
  import opened Numeric
  import opened FeatureEngineering

  /** The caller's weight dictionary (keys "damage", "population", "hospital", "aid"). */
  datatype Weights = Weights(damage: real, population: real, hospital: real, aid: real)

  /** An enriched road with its four normalised indicators and its impact (`None` is NaN). */
  datatype ScoredRoad = ScoredRoad(
    road: EnrichedRoad,
    damageN: real,
    populationN: real,
    hospitalN: real,
    aidN: real,
    impact: Option<real>)

  /** The scaler refuses a batch with no rows. */
  datatype ScoringError = EmptyBatch

  /** The divisor the min-max scaler uses: the column's range, or 1 when the range is 0. */
  function ScaleOf(col: seq<real>): (r: real)
    requires |col| > 0
    ensures r > 0.0
    ensures Max(col) > Min(col) ==> r == Max(col) - Min(col)
  {
    var range := Max(col) - Min(col);
    if range == 0.0 then 1.0 else range
  }

  /** Min-max scaling of one column to [0, 1]; a constant column maps to all zeros. */
  function MinMaxScale(col: seq<real>): (r: seq<real>)
    requires |col| > 0
    ensures |r| == |col|
    ensures forall i :: 0 <= i < |r| ==> 0.0 <= r[i] <= 1.0
  {
    var lo, scale := Min(col), ScaleOf(col);
    var r := seq(|col|, i requires 0 <= i < |col| => Scaled(col[i], lo, scale));
    assert forall i :: 0 <= i < |r| ==> 0.0 <= r[i] <= 1.0 by {
      forall i | 0 <= i < |r| ensures 0.0 <= r[i] <= 1.0 {
        ScaledInUnit(col[i], lo, scale, Max(col));
      }
    }
    r
  }

  /** One scaled value: its distance from the column minimum over the divisor. */
  function Scaled(x: real, lo: real, scale: real): real
    requires scale > 0.0
  {
    (x - lo) / scale
  }

  /** Helper: a value between the minimum and the maximum scales into [0, 1]. */
  lemma ScaledInUnit(x: real, lo: real, scale: real, hi: real)
    requires lo <= x <= hi && scale > 0.0 && (hi - lo <= scale || hi == lo)
    ensures 0.0 <= Scaled(x, lo, scale) <= 1.0
  {
    var q := Scaled(x, lo, scale);
    assert q * scale == x - lo;
    if hi == lo {
      assert q == 0.0;
    } else {
      var u := q * scale;
      assert u <= scale;
    }
  }

  /** `(w_d·d + w_p·p + w_h·h + w_a·a) × land_use_factor`; a missing factor gives a missing impact. */
  function WeightedImpact(w: Weights, dn: real, pn: real, hn: real, an: real, landUse: Option<real>): (r: Option<real>)
    ensures r.Some? <==> landUse.Some?
  {
    match landUse
    case Some(f) => Some(WeightedSum(w, dn, pn, hn, an) * f)
    case None => None
  }

  /** The weighted sum of the four normalised indicators, before the land-use factor. */
  function WeightedSum(w: Weights, dn: real, pn: real, hn: real, an: real): real
  {
    w.damage * dn + w.population * pn + w.hospital * hn + w.aid * an
  }

  /** The sum of the four weights. */
  function WeightTotal(w: Weights): real
  {
    w.damage + w.population + w.hospital + w.aid
  }

  /** The damage ratio of every road, in row order. */
  function DamageColumn(rows: seq<EnrichedRoad>): (r: seq<real>)
    ensures |r| == |rows| && forall i :: 0 <= i < |rows| ==> r[i] == rows[i].row.damage
  {
    seq(|rows|, i requires 0 <= i < |rows| => rows[i].row.damage)
  }

  /** The population of every road, in row order. */
  function PopulationColumn(rows: seq<EnrichedRoad>): (r: seq<real>)
    ensures |r| == |rows| && forall i :: 0 <= i < |rows| ==> r[i] == rows[i].row.population as real
  {
    seq(|rows|, i requires 0 <= i < |rows| => rows[i].row.population as real)
  }

  /** The hospital-proximity score of every road, in row order. */
  function HospitalColumn(rows: seq<EnrichedRoad>): (r: seq<real>)
    ensures |r| == |rows| && forall i :: 0 <= i < |rows| ==> r[i] == rows[i].hospitalScore
  {
    seq(|rows|, i requires 0 <= i < |rows| => rows[i].hospitalScore)
  }

  /** The aid-route flag of every road, in row order. */
  function AidColumn(rows: seq<EnrichedRoad>): (r: seq<real>)
    ensures |r| == |rows| && forall i :: 0 <= i < |rows| ==> r[i] == rows[i].row.aidRoute
  {
    seq(|rows|, i requires 0 <= i < |rows| => rows[i].row.aidRoute)
  }

  /** Every road of a non-empty batch, scored against the batch's normalised columns. */
  function ScoreBatch(rows: seq<EnrichedRoad>, w: Weights): (r: seq<ScoredRoad>)
    requires |rows| > 0
    ensures |r| == |rows|
    ensures forall i :: 0 <= i < |rows| ==>
      && r[i].road == rows[i]
      && r[i].damageN == MinMaxScale(DamageColumn(rows))[i]
      && r[i].populationN == MinMaxScale(PopulationColumn(rows))[i]
      && r[i].hospitalN == MinMaxScale(HospitalColumn(rows))[i]
      && r[i].aidN == MinMaxScale(AidColumn(rows))[i]
      && r[i].impact == WeightedImpact(w, r[i].damageN, r[i].populationN, r[i].hospitalN, r[i].aidN,
                                       rows[i].landUseFactor)
  {
    var dn, pn := MinMaxScale(DamageColumn(rows)), MinMaxScale(PopulationColumn(rows));
    var hn, an := MinMaxScale(HospitalColumn(rows)), MinMaxScale(AidColumn(rows));
    seq(|rows|, i requires 0 <= i < |rows| =>
      ScoredRoad(rows[i], dn[i], pn[i], hn[i], an[i],
                 WeightedImpact(w, dn[i], pn[i], hn[i], an[i], rows[i].landUseFactor)))
  }

  /** `compute_impact_scores`: normalise the four indicator columns over the batch, then score every row. */
  function ComputeImpactScores(rows: seq<EnrichedRoad>, w: Weights): (r: Result<seq<ScoredRoad>, ScoringError>)
    ensures r.Err? <==> |rows| == 0
    ensures r.Ok? ==> |r.value| == |rows|
    ensures r.Ok? ==> forall i :: 0 <= i < |rows| ==> r.value[i].road == rows[i]
    ensures r.Ok? ==> forall i :: 0 <= i < |rows| ==>
      && r.value[i].damageN == MinMaxScale(DamageColumn(rows))[i]
      && r.value[i].populationN == MinMaxScale(PopulationColumn(rows))[i]
      && r.value[i].hospitalN == MinMaxScale(HospitalColumn(rows))[i]
      && r.value[i].aidN == MinMaxScale(AidColumn(rows))[i]
    ensures r.Ok? ==> forall i :: 0 <= i < |rows| ==>
      && 0.0 <= r.value[i].damageN <= 1.0 && 0.0 <= r.value[i].populationN <= 1.0
      && 0.0 <= r.value[i].hospitalN <= 1.0 && 0.0 <= r.value[i].aidN <= 1.0
    ensures r.Ok? ==> forall i :: 0 <= i < |rows| ==>
      (r.value[i].impact.Some? <==> rows[i].landUseFactor.Some?)
    ensures r.Ok? ==> forall i :: 0 <= i < |rows| ==>
      r.value[i].impact == WeightedImpact(w, r.value[i].damageN, r.value[i].populationN,
                                          r.value[i].hospitalN, r.value[i].aidN, rows[i].landUseFactor)
  {
    if |rows| == 0 then Err(EmptyBatch) else Ok(ScoreBatch(rows, w))
  }

  // ---------------------------------------------------------------------
  // Properties of the normalisation
  // ---------------------------------------------------------------------

  /** When a column is not constant, its minimum maps to 0 and its maximum to 1. */
  lemma MinMaxScaleExtremes(col: seq<real>, i: int)
    requires |col| > 0 && 0 <= i < |col|
    requires Max(col) > Min(col)
    ensures col[i] == Min(col) ==> MinMaxScale(col)[i] == 0.0
    ensures col[i] == Max(col) ==> MinMaxScale(col)[i] == 1.0
  {
    var lo, hi, scale := Min(col), Max(col), ScaleOf(col);
    assert MinMaxScale(col)[i] == Scaled(col[i], lo, scale);
    ScaledEnds(lo, hi, scale);
  }

  /** Helper: with the range as divisor, the minimum scales to 0 and the maximum to 1. */
  lemma ScaledEnds(lo: real, hi: real, scale: real)
    requires scale > 0.0 && scale == hi - lo
    ensures Scaled(lo, lo, scale) == 0.0 && Scaled(hi, lo, scale) == 1.0
  {
  }

  /** Helper: scaling by a positive divisor keeps order. */
  lemma ScaledMonotone(x: real, y: real, lo: real, scale: real)
    requires scale > 0.0 && x <= y
    ensures Scaled(x, lo, scale) <= Scaled(y, lo, scale)
  {
    var qx, qy := Scaled(x, lo, scale), Scaled(y, lo, scale);
    assert qx * scale == x - lo && qy * scale == y - lo;
    var d := (qy - qx) * scale;
    assert d == y - x;
  }

  /** A constant column scales to zeros without any division by zero. */
  lemma MinMaxScaleConstant(col: seq<real>)
    requires |col| > 0
    requires forall i :: 0 <= i < |col| ==> col[i] == col[0]
    ensures forall i :: 0 <= i < |col| ==> MinMaxScale(col)[i] == 0.0
  {
    assert Min(col) == col[0];
  }

  /** Scaling keeps the order of the values in a column. */
  lemma MinMaxScaleMonotone(col: seq<real>, i: int, j: int)
    requires |col| > 0 && 0 <= i < |col| && 0 <= j < |col|
    requires col[i] <= col[j]
    ensures MinMaxScale(col)[i] <= MinMaxScale(col)[j]
  {
    var lo, s := Min(col), ScaleOf(col);
    assert MinMaxScale(col)[i] == Scaled(col[i], lo, s);
    assert MinMaxScale(col)[j] == Scaled(col[j], lo, s);
    ScaledMonotone(col[i], col[j], lo, s);
  }

  // ---------------------------------------------------------------------
  // Properties of the weighted score
  // ---------------------------------------------------------------------

  /** Helper: a non-negative weight times a value in [0, 1] stays in [0, weight]. */
  lemma WeightedTerm(wt: real, x: real)
    requires wt >= 0.0 && 0.0 <= x <= 1.0
    ensures 0.0 <= wt * x <= wt
  {
    assert wt - wt * x == wt * (1.0 - x);
  }

  /** Helper: a sum in [0, total] scaled by a non-negative factor stays in [0, factor × total]. */
  lemma ScaledSum(sum: real, total: real, f: real)
    requires 0.0 <= sum <= total && f >= 0.0
    ensures 0.0 <= sum * f <= f * total
  {
    assert f * total - sum * f == (total - sum) * f;
  }

  /** Helper: four terms each in [0, bound] sum into [0, sum of bounds]. */
  lemma SumOfFour(t1: real, t2: real, t3: real, t4: real, b1: real, b2: real, b3: real, b4: real)
    requires 0.0 <= t1 <= b1
    requires 0.0 <= t2 <= b2
    requires 0.0 <= t3 <= b3
    requires 0.0 <= t4 <= b4
    ensures 0.0 <= t1 + t2 + t3 + t4 <= b1 + b2 + b3 + b4
  {
  }

  /** With non-negative weights and indicators in [0, 1], the weighted sum lies
      between 0 and the sum of the weights. */
  lemma WeightedSumBounds(w: Weights, dn: real, pn: real, hn: real, an: real)
    requires w.damage >= 0.0 && w.population >= 0.0 && w.hospital >= 0.0 && w.aid >= 0.0
    requires 0.0 <= dn <= 1.0 && 0.0 <= pn <= 1.0 && 0.0 <= hn <= 1.0 && 0.0 <= an <= 1.0
    ensures 0.0 <= WeightedSum(w, dn, pn, hn, an) <= WeightTotal(w)
  {
    FourTermBounds(w.damage, w.population, w.hospital, w.aid, dn, pn, hn, an);
  }

  /** Helper: the bound of the weighted sum, stated over plain reals. */
  lemma FourTermBounds(a: real, b: real, c: real, d: real, x: real, y: real, z: real, u: real)
    requires a >= 0.0 && b >= 0.0 && c >= 0.0 && d >= 0.0
    requires 0.0 <= x <= 1.0 && 0.0 <= y <= 1.0 && 0.0 <= z <= 1.0 && 0.0 <= u <= 1.0
    ensures 0.0 <= a * x + b * y + c * z + d * u <= a + b + c + d
  {
    WeightedTerm(a, x);
    WeightedTerm(b, y);
    WeightedTerm(c, z);
    WeightedTerm(d, u);
    SumOfFour(a * x, b * y, c * z, d * u, a, b, c, d);
  }

  /** With non-negative weights and factor, and indicators in [0, 1], the impact lies
      between 0 and the factor times the sum of the weights. */
  lemma ImpactBounds(w: Weights, dn: real, pn: real, hn: real, an: real, f: real)
    requires w.damage >= 0.0 && w.population >= 0.0 && w.hospital >= 0.0 && w.aid >= 0.0
    requires 0.0 <= dn <= 1.0 && 0.0 <= pn <= 1.0 && 0.0 <= hn <= 1.0 && 0.0 <= an <= 1.0
    requires f >= 0.0
    ensures WeightedImpact(w, dn, pn, hn, an, Some(f)).Some?
    ensures 0.0 <= WeightedImpact(w, dn, pn, hn, an, Some(f)).value <= f * WeightTotal(w)
  {
    WeightedSumBounds(w, dn, pn, hn, an);
    ScaledSum(WeightedSum(w, dn, pn, hn, an), WeightTotal(w), f);
  }

  /** Every scored road of a batch obeys the impact bounds when the weights are
      non-negative and its land-use factor is known and non-negative. */
  lemma ScoredImpactBounds(rows: seq<EnrichedRoad>, w: Weights, i: int, f: real)
    requires w.damage >= 0.0 && w.population >= 0.0 && w.hospital >= 0.0 && w.aid >= 0.0
    requires 0 <= i < |rows|
    requires rows[i].landUseFactor == Some(f) && f >= 0.0
    ensures ComputeImpactScores(rows, w).Ok?
    ensures ComputeImpactScores(rows, w).value[i].impact.Some?
    ensures 0.0 <= ComputeImpactScores(rows, w).value[i].impact.value <= f * WeightTotal(w)
  {
    var s := ComputeImpactScores(rows, w).value[i];
    ImpactBounds(w, s.damageN, s.populationN, s.hospitalN, s.aidN, f);
  }
}
