/**
 * `compute_metrics`: the summary figures of a city plan — total impact, zones covered,
 * total cost, share of the budget used, a zone fairness index and the mean duration.
 */
module PlanMetrics {
  import opened Numeric
  import opened CityPlanner
  import opened GreedyPlanner

  datatype Metrics = Metrics(
    totalImpact: real,
    zonesCovered: int,
    totalCost: int,
    budgetUsedPct: real,
    fairnessIndex: real,
    avgTime: real)

  /** The zones of the plan, each once, in order of first appearance (`nunique`). */
  function DistinctZones(plan: seq<Action>): (r: seq<string>)
    ensures forall a, b :: 0 <= a < b < |r| ==> r[a] != r[b]
    ensures forall z :: z in r <==> z in ZonesOf(plan)
  {
    if plan == [] then []
    else
      var init := DistinctZones(plan[..|plan| - 1]);
      var z := plan[|plan| - 1].zone;
      assert ZonesOf(plan) == ZonesOf(plan[..|plan| - 1]) + {z} by {
        assert plan == plan[..|plan| - 1] + [plan[|plan| - 1]];
        PairSetAppend(plan[..|plan| - 1], plan[|plan| - 1]);
      }
      if z in init then init else init + [z]
  }

  /** `value_counts().values`: how many actions each zone of the plan holds. */
  function ZoneCounts(plan: seq<Action>): (r: seq<real>)
    ensures |r| == |DistinctZones(plan)|
  {
    var zs := DistinctZones(plan);
    seq(|zs|, i requires 0 <= i < |zs| => CountZone(plan, zs[i]) as real)
  }

  function Mean(s: seq<real>): real
    requires |s| > 0
  {
    Sum(s) / |s| as real
  }

  /** Helper: a square is non-negative, and zero exactly at zero. */
  lemma SquareSign(x: real)
    ensures x * x >= 0.0
    ensures x * x == 0.0 ==> x == 0.0
    ensures x == 0.0 ==> x * x == 0.0
  {
    if x < 0.0 {
      var u := -x;
      assert u * u > 0.0 * u;
      assert u * u == x * x;
    } else if x > 0.0 {
      assert x * x > 0.0 * x;
    }
    if x != 0.0 {
      assert (x * x) / x == x;
    }
  }

  function SquaredDeviations(s: seq<real>, mu: real): (r: seq<real>)
    ensures |r| == |s|
    ensures forall i :: 0 <= i < |s| ==> r[i] >= 0.0
  {
    var r := seq(|s|, i requires 0 <= i < |s| => (s[i] - mu) * (s[i] - mu));
    assert forall i :: 0 <= i < |s| ==> r[i] >= 0.0 by {
      forall i | 0 <= i < |s| ensures r[i] >= 0.0 {
        SquareSign(s[i] - mu);
      }
    }
    r
  }

  /** `np.std(counts) ** 2`: the population variance. */
  function Variance(s: seq<real>): real
    requires |s| > 0
  {
    Sum(SquaredDeviations(s, Mean(s))) / |s| as real
  }

  /** `1 - std/max(1e-9, mean)` clipped to [0, 1]; a single zone is perfectly fair. */
  function Fairness(counts: seq<real>, sd: real): (r: real)
    ensures 0.0 <= r <= 1.0
    ensures |counts| <= 1 ==> r == 1.0
  {
    if |counts| <= 1 then 1.0
    else Clip01(1.0 - sd / MaxReal(0.000000001, Mean(counts)))
  }

  function Impacts(plan: seq<Action>): seq<real>
  {
    seq(|plan|, i requires 0 <= i < |plan| => plan[i].impact)
  }

  function Times(plan: seq<Action>): seq<real>
  {
    seq(|plan|, i requires 0 <= i < |plan| => plan[i].time as real)
  }

  /** `plan_df["EstTime_wks"].mean()`. */
  function AverageTime(plan: seq<Action>): real
    requires plan != []
  {
    Sum(Times(plan)) / |plan| as real
  }

  /**
   * `compute_metrics`. `sd` stands for `np.std` of the zone counts: its square is their
   * variance. An empty plan gives all zeros (fairness 0, not 1).
   */
  function ComputeMetrics(plan: seq<Action>, totalBudget: int, sd: real): (m: Metrics)
    requires sd >= 0.0 && (plan != [] ==> sd * sd == Variance(ZoneCounts(plan)))
    ensures plan == [] ==> m == Metrics(0.0, 0, 0, 0.0, 0.0, 0.0)
    ensures 0.0 <= m.fairnessIndex <= 1.0
  {
    if plan == [] then Metrics(0.0, 0, 0, 0.0, 0.0, 0.0)
    else
      var cost := SumCost(plan);
      Metrics(
        Sum(Impacts(plan)),
        |DistinctZones(plan)|,
        cost,
        100.0 * cost as real / (if totalBudget > 1 then totalBudget else 1) as real,
        Fairness(ZoneCounts(plan), sd),
        AverageTime(plan))
  }

  /** The zones covered are the distinct zones the plan's actions name. */
  lemma ZonesCoveredCount(plan: seq<Action>, totalBudget: int, sd: real)
    requires sd >= 0.0 && (plan != [] ==> sd * sd == Variance(ZoneCounts(plan)))
    ensures ComputeMetrics(plan, totalBudget, sd).zonesCovered == |ZonesOf(plan)|
    ensures plan != [] ==> ComputeMetrics(plan, totalBudget, sd).zonesCovered >= 1
  {
    var zs := DistinctZones(plan);
    DistinctCard(zs);
    assert (set x | x in zs) == ZonesOf(plan);
    if plan != [] {
      assert plan[0].zone in ZonesOf(plan);
    }
  }

  /** Helper: a mean of values in [lo, hi] lies in [lo, hi]. */
  lemma QuotientBounds(t: real, n: real, lo: real, hi: real)
    requires n > 0.0 && n * lo <= t <= n * hi
    ensures lo <= t / n <= hi
  {
    var q := t / n;
    assert q * n == t;
  }

  /** A plan that keeps within a non-negative budget uses between 0 and 100 percent of it. */
  lemma BudgetUsedWithinBudget(plan: seq<Action>, totalBudget: int, sd: real)
    requires sd >= 0.0 && (plan != [] ==> sd * sd == Variance(ZoneCounts(plan)))
    requires 0 <= SumCost(plan) <= totalBudget
    ensures 0.0 <= ComputeMetrics(plan, totalBudget, sd).budgetUsedPct <= 100.0
  {
    if plan != [] {
      var c := SumCost(plan) as real;
      var b := (if totalBudget > 1 then totalBudget else 1) as real;
      assert ComputeMetrics(plan, totalBudget, sd).budgetUsedPct == 100.0 * c / b;
      QuotientBounds(100.0 * c, b, 0.0, 100.0);
    }
  }

  /** The mean duration lies between the shortest and the longest duration of the plan. */
  lemma AvgTimeBounds(plan: seq<Action>, lo: int, hi: int)
    requires plan != []
    requires forall k :: 0 <= k < |plan| ==> lo <= plan[k].time <= hi
    ensures lo as real <= AverageTime(plan) <= hi as real
  {
    var times := Times(plan);
    forall i | 0 <= i < |times| ensures lo as real <= times[i] <= hi as real {
      assert times[i] == plan[i].time as real;
    }
    SumBounds(times, lo as real, hi as real);
    QuotientBounds(Sum(times), |plan| as real, lo as real, hi as real);
  }

  /** Every element equal to the mean has zero deviations, and conversely. */
  lemma {:induction false} VarianceZero(s: seq<real>)
    requires |s| > 0
    ensures Variance(s) == 0.0 <==> forall i :: 0 <= i < |s| ==> s[i] == Mean(s)
  {
    var d := SquaredDeviations(s, Mean(s));
    SumZero(d);
    var n := |s| as real;
    assert Variance(s) * n == Sum(d);
    forall i | 0 <= i < |s| ensures d[i] == 0.0 <==> s[i] == Mean(s) {
      var x := s[i] - Mean(s);
      assert d[i] == x * x;
      SquareSign(x);
    }
  }

  /** All elements equal gives the common value as the mean. */
  lemma MeanOfConstant(s: seq<real>)
    requires |s| > 0
    requires forall i :: 0 <= i < |s| ==> s[i] == s[0]
    ensures Mean(s) == s[0]
  {
    SumBounds(s, s[0], s[0]);
  }

  /**
   * With more than one zone the fairness index is 1 exactly when every zone holds the
   * same number of actions.
   */
  lemma FairnessOneIffBalanced(plan: seq<Action>, totalBudget: int, sd: real)
    requires sd >= 0.0 && (plan != [] ==> sd * sd == Variance(ZoneCounts(plan)))
    requires |ZoneCounts(plan)| > 1
    ensures ComputeMetrics(plan, totalBudget, sd).fairnessIndex == 1.0 <==>
      forall i, j :: 0 <= i < j < |ZoneCounts(plan)| ==> ZoneCounts(plan)[i] == ZoneCounts(plan)[j]
  {
    var counts := ZoneCounts(plan);
    assert plan != [];
    var mean := Mean(counts);
    var den := MaxReal(0.000000001, mean);
    VarianceZero(counts);
    if forall i, j :: 0 <= i < j < |counts| ==> counts[i] == counts[j] {
      assert forall i :: 0 <= i < |counts| ==> counts[i] == counts[0] by {
        forall i | 0 <= i < |counts| ensures counts[i] == counts[0] {
          if i > 0 {
            assert counts[0] == counts[i];
          }
        }
      }
      MeanOfConstant(counts);
      SquareSign(sd);
      assert sd == 0.0;
    }
    if Fairness(counts, sd) == 1.0 {
      QuotientBounds(sd, den, 0.0, 0.0);
      SquareSign(sd);
      assert forall i :: 0 <= i < |counts| ==> counts[i] == mean;
    }
  }
}
