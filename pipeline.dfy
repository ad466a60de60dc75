/**
 * `run_quantum_roads_pipeline`: the QUBO is built from the scored roads, the circuit's
 * measured bit strings are ranked by energy and the best one becomes the recovery plan.
 * The lemmas here tie the energy the solver minimises to the summary of the plan it
 * produces.
 */
module QuantumPipeline {
  import opened Wrappers
  import opened Numeric
  import opened Bitstrings
  import opened ImpactScoring
  import opened Qubo
  import opened QaoaSolver
  import opened PlanBuilder

  /**
   * The objective of a plan summary in the units the QUBO uses: the selected cost is
   * divided by the largest cost, the budget is not (as `build_qubo` computes it).
   */
  function PlanObjective(s: Summary, maxCost: real, budget: real, lam: real): real
    requires maxCost != 0.0
  {
    Objective(s.totalImpact, s.totalCost / maxCost, budget, lam)
  }

  /** Helper: division by a non-zero real distributes over a sum. */
  lemma DivAdd(p: real, v: real, d: real)
    requires d != 0.0
    ensures p / d + v / d == (p + v) / d
  {
    assert (p / d) * d == p && (v / d) * d == v;
    assert (p / d + v / d) * d == p + v;
  }

  /** Rescaling every cost by the largest one rescales every selected total by it. */
  lemma {:induction false} SelectedTotalRescaled(cost: seq<real>, x: seq<int>, k: nat)
    requires |cost| == |x| && k <= |x| && |cost| > 0 && Max(cost) != 0.0
    ensures SelectedTotal(Rescale(cost), x, k) == SelectedTotal(cost, x, k) / Max(cost)
  {
    if k > 0 {
      SelectedTotalRescaled(cost, x, k - 1);
      var d := Max(cost);
      var v := if x[k - 1] == 1 then cost[k - 1] else 0.0;
      assert Rescale(cost)[k - 1] == cost[k - 1] / d;
      assert (if x[k - 1] == 1 then Rescale(cost)[k - 1] else 0.0) == v / d;
      DivAdd(SelectedTotal(cost, x, k - 1), v, d);
    }
  }

  /**
   * With every impact and cost known and a positive largest cost, the energy of a
   * measured bit string is the objective of the plan that bit string decodes to.
   */
  lemma DecodedPlanEnergy(rows: seq<ScoredRoad>, impacts: seq<real>, costs: seq<real>,
                          budget: real, lam: real, m: Matrix, bitstring: string)
    requires |rows| == |impacts| == |costs| > 0 && Max(costs) > 0.0
    requires forall i :: 0 <= i < |rows| ==> rows[i].impact == Some(impacts[i])
    requires forall i :: 0 <= i < |rows| ==> rows[i].road.finalCost == Some(costs[i])
    requires IsQuboOf(m, impacts, Rescale(costs), RescaledBudget(budget, costs), lam)
    requires IsBitString(bitstring) && |bitstring| == |rows|
    ensures ComputeEnergy(bitstring, m)
         == PlanObjective(GenerateRecoveryPlan(rows, bitstring).1, Max(costs), budget, lam)
  {
    var x := Decode(bitstring);
    var n := |rows|;
    var s := GenerateRecoveryPlan(rows, bitstring).1;
    var I, C, B := SelectedTotal(impacts, x, n), SelectedTotal(Rescale(costs), x, n), RescaledBudget(budget, costs);
    assert ComputeEnergy(bitstring, m) == Objective(I, C, B, lam) by {
      EnergyOfMeasurement(m, impacts, Rescale(costs), B, lam, bitstring);
    }
    assert I == s.totalImpact by {
      TotalImpactIsSelectedTotal(rows, bitstring, impacts);
    }
    assert C == s.totalCost / Max(costs) by {
      TotalCostIsSelectedTotal(rows, bitstring, costs);
      SelectedTotalRescaled(costs, x, n);
    }
    assert B == budget by {
      BudgetNotRescaled(budget, costs);
    }
  }

  /**
   * The bit string the selection loop keeps (the first of least energy) decodes to a
   * plan whose objective is no worse than that of any other measured bit string's plan.
   */
  lemma ChosenPlanIsBest(rows: seq<ScoredRoad>, impacts: seq<real>, costs: seq<real>,
                         budget: real, lam: real, m: Matrix,
                         counts: seq<(string, int)>, k: nat)
    requires |rows| == |impacts| == |costs| > 0 && Max(costs) > 0.0
    requires forall i :: 0 <= i < |rows| ==> rows[i].impact == Some(impacts[i])
    requires forall i :: 0 <= i < |rows| ==> rows[i].road.finalCost == Some(costs[i])
    requires IsQuboOf(m, impacts, Rescale(costs), RescaledBudget(budget, costs), lam)
    requires ValidCounts(counts, m) && |m| == |rows|
    requires k < |counts| && FirstMinimum(counts, m, k, |counts|)
    ensures forall t :: 0 <= t < |counts| ==>
      PlanObjective(GenerateRecoveryPlan(rows, counts[k].0).1, Max(costs), budget, lam)
        <= PlanObjective(GenerateRecoveryPlan(rows, counts[t].0).1, Max(costs), budget, lam)
  {
    forall t | 0 <= t < |counts|
      ensures PlanObjective(GenerateRecoveryPlan(rows, counts[k].0).1, Max(costs), budget, lam)
           <= PlanObjective(GenerateRecoveryPlan(rows, counts[t].0).1, Max(costs), budget, lam)
    {
      DecodedPlanEnergy(rows, impacts, costs, budget, lam, m, counts[k].0);
      DecodedPlanEnergy(rows, impacts, costs, budget, lam, m, counts[t].0);
      assert EnergyAt(counts, m, k) <= EnergyAt(counts, m, t);
    }
  }
}
