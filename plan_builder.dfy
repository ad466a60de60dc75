/**
 * Turning the chosen bit string into a recovery plan: the decoded `selected`
 * column, the selected / deferred id lists and the summary sums.
 */
module PlanBuilder {
  import opened Wrappers
  import opened Bitstrings
  import opened FeatureEngineering
  import opened ImpactScoring
  import Qubo

  /** A scored road with the `selected` column written into it. */
  datatype PlannedRoad = PlannedRoad(road: ScoredRoad, selected: int)

  /** The summary dictionary, before decimal rounding. */
  datatype Summary = Summary(
    selectedRoads: seq<int>,
    deferredRoads: seq<int>,
    totalCost: real,
    totalImpact: real,
    populationServed: int,
    numSelected: int,
    numDeferred: int)

  /** The positions i < k with x[i] == bit, in increasing order (a boolean row filter). */
  function Positions(x: seq<int>, bit: int, k: nat): (r: seq<nat>)
    requires k <= |x|
    ensures forall t :: 0 <= t < |r| ==> r[t] < k && x[r[t]] == bit
  {
    if k == 0 then []
    else Positions(x, bit, k - 1) + (if x[k - 1] == bit then [k - 1] else [])
  }

  /** The ids of the rows at the given positions, in that order. */
  function IdsAt(rows: seq<ScoredRoad>, ps: seq<nat>): (r: seq<int>)
    requires forall t :: 0 <= t < |ps| ==> ps[t] < |rows|
    ensures |r| == |ps|
  {
    seq(|ps|, t requires 0 <= t < |ps| => rows[ps[t]].road.row.id)
  }

  /** pandas' `sum` of an optional column over the given rows: missing values are skipped. */
  function SumKnownAt(vals: seq<Option<real>>, ps: seq<nat>): real
    requires forall t :: 0 <= t < |ps| ==> ps[t] < |vals|
  {
    if ps == [] then 0.0
    else
      var last := vals[ps[|ps| - 1]];
      SumKnownAt(vals, ps[..|ps| - 1]) + (if last.Some? then last.value else 0.0)
  }

  function SumPopulationAt(rows: seq<ScoredRoad>, ps: seq<nat>): int
    requires forall t :: 0 <= t < |ps| ==> ps[t] < |rows|
  {
    if ps == [] then 0
    else SumPopulationAt(rows, ps[..|ps| - 1]) + rows[ps[|ps| - 1]].road.row.population
  }

  function FinalCosts(rows: seq<ScoredRoad>): (r: seq<Option<real>>)
    ensures |r| == |rows|
  {
    seq(|rows|, i requires 0 <= i < |rows| => rows[i].road.finalCost)
  }

  function Impacts(rows: seq<ScoredRoad>): (r: seq<Option<real>>)
    ensures |r| == |rows|
  {
    seq(|rows|, i requires 0 <= i < |rows| => rows[i].impact)
  }

  /**
   * `generate_recovery_plan`: decode the bit string in reversed order into the
   * `selected` column, split the rows into selected (1) and deferred (0), and sum
   * final cost, impact and population over the selected rows.
   */
  function GenerateRecoveryPlan(rows: seq<ScoredRoad>, bitstring: string): (r: (seq<PlannedRoad>, Summary))
    requires IsBitString(bitstring) && |bitstring| == |rows|
    ensures |r.0| == |rows|
    ensures forall i :: 0 <= i < |rows| ==> r.0[i].road == rows[i] && r.0[i].selected == Decode(bitstring)[i]
  {
    var x := Decode(bitstring);
    var n := |rows|;
    var chosen, deferred := Positions(x, 1, n), Positions(x, 0, n);
    var planned := seq(n, i requires 0 <= i < n => PlannedRoad(rows[i], x[i]));
    (planned, Summary(
      IdsAt(rows, chosen),
      IdsAt(rows, deferred),
      SumKnownAt(FinalCosts(rows), chosen),
      SumKnownAt(Impacts(rows), chosen),
      SumPopulationAt(rows, chosen),
      |chosen|,
      |deferred|))
  }

  // ---------------------------------------------------------------------
  // Properties
  // ---------------------------------------------------------------------

  /** Positions lists every matching position below k, in strictly increasing order. */
  lemma {:induction false} PositionsExact(x: seq<int>, bit: int, k: nat)
    requires k <= |x|
    ensures forall i :: 0 <= i < k && x[i] == bit ==> i in Positions(x, bit, k)
    ensures forall a, b :: 0 <= a < b < |Positions(x, bit, k)| ==> Positions(x, bit, k)[a] < Positions(x, bit, k)[b]
  {
    if k > 0 {
      PositionsExact(x, bit, k - 1);
    }
  }

  /** Selected and deferred positions split the rows: together they count every row once. */
  lemma {:induction false} PositionsCount(x: seq<int>, k: nat)
    requires IsBinary(x) && k <= |x|
    ensures |Positions(x, 1, k)| + |Positions(x, 0, k)| == k
  {
    if k > 0 {
      PositionsCount(x, k - 1);
    }
  }

  /**
   * The selected and deferred lists partition the rows: each row is in exactly one,
   * both keep the original row order, their sizes add up to the row count and
   * `num_selected` is the length of `selected_roads`.
   */
  lemma PlanPartition(rows: seq<ScoredRoad>, bitstring: string)
    requires IsBitString(bitstring) && |bitstring| == |rows|
    ensures var x, n := Decode(bitstring), |rows|;
      var s := GenerateRecoveryPlan(rows, bitstring).1;
      && (forall i :: 0 <= i < n ==> (i in Positions(x, 1, n) <==> x[i] == 1))
      && (forall i :: 0 <= i < n ==> (i in Positions(x, 0, n) <==> x[i] == 0))
      && s.selectedRoads == IdsAt(rows, Positions(x, 1, n))
      && s.deferredRoads == IdsAt(rows, Positions(x, 0, n))
      && s.numSelected + s.numDeferred == n
      && s.numSelected == |s.selectedRoads|
      && s.numDeferred == |s.deferredRoads|
  {
    var x, n := Decode(bitstring), |rows|;
    PositionsExact(x, 1, n);
    PositionsExact(x, 0, n);
    PositionsCount(x, n);
  }

  /** Helper: the optional sum over the first k selected positions is the selected total
      when no value is missing. */
  lemma {:induction false} SumKnownIsSelectedTotal(vals: seq<Option<real>>, costs: seq<real>, x: seq<int>, k: nat)
    requires |vals| == |costs| == |x| && k <= |x|
    requires forall i :: 0 <= i < |vals| ==> vals[i] == Some(costs[i])
    ensures SumKnownAt(vals, Positions(x, 1, k)) == Qubo.SelectedTotal(costs, x, k)
  {
    if k > 0 {
      SumKnownIsSelectedTotal(vals, costs, x, k - 1);
      var prev := Positions(x, 1, k - 1);
      if x[k - 1] == 1 {
        assert (prev + [k - 1])[..|prev|] == prev;
      } else {
        assert prev + [] == prev;
      }
    }
  }

  /** With every final cost known, `total_cost` is Σ cost_i·x_i over the decoded vector —
      the same selection whose energy the solver minimised. */
  lemma TotalCostIsSelectedTotal(rows: seq<ScoredRoad>, bitstring: string, costs: seq<real>)
    requires IsBitString(bitstring) && |bitstring| == |rows| == |costs|
    requires forall i :: 0 <= i < |rows| ==> rows[i].road.finalCost == Some(costs[i])
    ensures GenerateRecoveryPlan(rows, bitstring).1.totalCost
         == Qubo.SelectedTotal(costs, Decode(bitstring), |rows|)
  {
    SumKnownIsSelectedTotal(FinalCosts(rows), costs, Decode(bitstring), |rows|);
  }

  /** With every impact known, `total_impact` is Σ impact_i·x_i. */
  lemma TotalImpactIsSelectedTotal(rows: seq<ScoredRoad>, bitstring: string, impacts: seq<real>)
    requires IsBitString(bitstring) && |bitstring| == |rows| == |impacts|
    requires forall i :: 0 <= i < |rows| ==> rows[i].impact == Some(impacts[i])
    ensures GenerateRecoveryPlan(rows, bitstring).1.totalImpact
         == Qubo.SelectedTotal(impacts, Decode(bitstring), |rows|)
  {
    SumKnownIsSelectedTotal(Impacts(rows), impacts, Decode(bitstring), |rows|);
  }

  /** The population of every row, as the reals `SelectedTotal` sums. */
  function Populations(rows: seq<ScoredRoad>): (r: seq<real>)
    ensures |r| == |rows| && forall i :: 0 <= i < |rows| ==> r[i] == rows[i].road.row.population as real
  {
    seq(|rows|, i requires 0 <= i < |rows| => rows[i].road.row.population as real)
  }

  /** Helper: the population over the first k selected positions is the selected total. */
  lemma {:induction false} SumPopulationIsSelectedTotal(rows: seq<ScoredRoad>, x: seq<int>, k: nat)
    requires |rows| == |x| && k <= |x|
    ensures SumPopulationAt(rows, Positions(x, 1, k)) as real == Qubo.SelectedTotal(Populations(rows), x, k)
  {
    if k > 0 {
      SumPopulationIsSelectedTotal(rows, x, k - 1);
      var prev := Positions(x, 1, k - 1);
      if x[k - 1] == 1 {
        assert (prev + [k - 1])[..|prev|] == prev;
      } else {
        assert prev + [] == prev;
      }
    }
  }

  /** `population_served` is Σ population_i·x_i over the decoded vector. */
  lemma PopulationServedIsSelectedTotal(rows: seq<ScoredRoad>, bitstring: string)
    requires IsBitString(bitstring) && |bitstring| == |rows|
    ensures GenerateRecoveryPlan(rows, bitstring).1.populationServed as real
         == Qubo.SelectedTotal(Populations(rows), Decode(bitstring), |rows|)
  {
    SumPopulationIsSelectedTotal(rows, Decode(bitstring), |rows|);
  }

  /** Helper: with no selected position nothing is selected. */
  lemma {:induction false} NoPositions(x: seq<int>, k: nat)
    requires k <= |x|
    requires forall i :: 0 <= i < |x| ==> x[i] == 0
    ensures Positions(x, 1, k) == []
    ensures Positions(x, 0, k) == seq(k, i requires 0 <= i < k => i)
  {
    if k > 0 {
      NoPositions(x, k - 1);
    }
  }

  /** The all-'0' bit string selects nothing: no selected roads, every id deferred in row
      order, total cost, impact and population all 0. */
  lemma AllZeroPlan(rows: seq<ScoredRoad>, bitstring: string)
    requires |bitstring| == |rows|
    requires forall k :: 0 <= k < |bitstring| ==> bitstring[k] == '0'
    ensures IsBitString(bitstring)
    ensures var s := GenerateRecoveryPlan(rows, bitstring).1;
      && s.selectedRoads == []
      && s.deferredRoads == seq(|rows|, i requires 0 <= i < |rows| => rows[i].road.row.id)
      && s.totalCost == 0.0 && s.totalImpact == 0.0 && s.populationServed == 0
      && s.numSelected == 0 && s.numDeferred == |rows|
  {
    DecodeAllZeros(bitstring);
    NoPositions(Decode(bitstring), |rows|);
  }
}
