/**
 * QUBO construction for road selection: maximise impact under a soft budget
 * penalty λ·(Σ c·x − B)². The matrix is filled in place, upper triangle only.
 */
module Qubo {
  import opened Numeric
  import opened Bitstrings

  /** A dense real matrix, row by row. */
  type Matrix = seq<seq<real>>

  ghost predicate IsSquare(m: Matrix, n: nat)
  {
    |m| == n && forall i :: 0 <= i < n ==> |m[i]| == n
  }

  // ---------------------------------------------------------------------
  // The quadratic form xᵀQx
  // ---------------------------------------------------------------------

  /** One summand x_i · Q[i][j] · x_j. */
  function Term(m: Matrix, x: seq<int>, i: nat, j: nat): real
    requires IsSquare(m, |x|) && i < |x| && j < |x|
  {
    (x[i] as real) * m[i][j] * (x[j] as real)
  }

  /** Σ_{j<b} x_i · Q[i][j] · x_j. */
  function RowSum(m: Matrix, x: seq<int>, i: nat, b: nat): real
    requires IsSquare(m, |x|) && i < |x| && b <= |x|
  {
    if b == 0 then 0.0 else RowSum(m, x, i, b - 1) + Term(m, x, i, b - 1)
  }

  /** Σ_{i<a} x_i · Q[i][j] · x_j for one column j. */
  function ColSum(m: Matrix, x: seq<int>, a: nat, j: nat): real
    requires IsSquare(m, |x|) && a <= |x| && j < |x|
  {
    if a == 0 then 0.0 else ColSum(m, x, a - 1, j) + Term(m, x, a - 1, j)
  }

  /** Σ_{i<a} Σ_{j<b} x_i · Q[i][j] · x_j. */
  function BlockSum(m: Matrix, x: seq<int>, a: nat, b: nat): real
    requires IsSquare(m, |x|) && a <= |x| && b <= |x|
  {
    if a == 0 then 0.0 else BlockSum(m, x, a - 1, b) + RowSum(m, x, a - 1, b)
  }

  /** xᵀQx over the whole matrix. */
  function QuadraticForm(m: Matrix, x: seq<int>): real
    requires IsSquare(m, |x|)
  {
    BlockSum(m, x, |x|, |x|)
  }

  /** Σ_{i<k, x_i = 1} v_i: the total of a column over the selected positions. */
  function SelectedTotal(v: seq<real>, x: seq<int>, k: nat): real
    requires |v| == |x| && k <= |x|
  {
    if k == 0 then 0.0
    else SelectedTotal(v, x, k - 1) + (if x[k - 1] == 1 then v[k - 1] else 0.0)
  }

  /** −(impact) + λ·((cost − B)² − B²): the QUBO's objective without its constant λ·B². */
  function Objective(impact: real, cost: real, budget: real, lam: real): real
  {
    -impact + lam * ((cost - budget) * (cost - budget) - budget * budget)
  }

  /** The objective the QUBO encodes for the first k roads, over the selected totals. */
  function PenalisedObjective(impact: seq<real>, c: seq<real>, B: real, lam: real, x: seq<int>, k: nat): real
    requires |impact| == |c| == |x| && k <= |x|
  {
    Objective(SelectedTotal(impact, x, k), SelectedTotal(c, x, k), B, lam)
  }

  // ---------------------------------------------------------------------
  // The matrix build_qubo produces
  // ---------------------------------------------------------------------

  /** `cost / cost.max()`. */
  function Rescale(cost: seq<real>): (r: seq<real>)
    requires |cost| > 0 && Max(cost) != 0.0
    ensures |r| == |cost|
  {
    seq(|cost|, i requires 0 <= i < |cost| => cost[i] / Max(cost))
  }

  /** `budget / cost.max()` evaluated AFTER `cost` was already rescaled. */
  function RescaledBudget(budget: real, cost: seq<real>): (r: real)
    requires |cost| > 0 && Max(cost) != 0.0
    ensures budget >= 0.0 ==> 0.0 <= r <= budget
    ensures budget <= 0.0 ==> budget <= r <= 0.0
  {
    RescaledMaxAtLeastOne(cost);
    DivideDown(budget, Max(Rescale(cost)))
  }

  /** Division by a number of at least 1: it moves a value towards 0 without changing its sign. */
  function DivideDown(x: real, d: real): (q: real)
    requires d >= 1.0
    ensures q * d == x
    ensures x >= 0.0 ==> 0.0 <= q <= x
    ensures x <= 0.0 ==> x <= q <= 0.0
  {
    var q := x / d;
    assert q * d == x;
    assert q * (d - 1.0) == x - q;
    assert x >= 0.0 ==> q >= 0.0;
    assert x <= 0.0 ==> q <= 0.0;
    q
  }

  /** The entry build_qubo leaves at Q[i][j] for rescaled costs c and budget B. */
  function QuboEntry(impact: seq<real>, c: seq<real>, B: real, lam: real, i: nat, j: nat): real
    requires |impact| == |c| && i < |c| && j < |c|
  {
    if i == j then -impact[i] + lam * (c[i] * c[i]) + -2.0 * lam * B * c[i]
    else if i < j then 2.0 * lam * c[i] * c[j]
    else 0.0
  }

  /** `m` is the QUBO matrix of (impact, c, B, λ). */
  ghost predicate IsQuboOf(m: Matrix, impact: seq<real>, c: seq<real>, B: real, lam: real)
  {
    && |impact| == |c|
    && IsSquare(m, |c|)
    && forall i, j :: 0 <= i < |c| && 0 <= j < |c| ==> m[i][j] == QuboEntry(impact, c, B, lam, i, j)
  }

  /** The contents of an n×n array as a matrix value. */
  function ToMatrix(q: array2<real>): (m: Matrix)
    reads q
    ensures |m| == q.Length0
    ensures forall i :: 0 <= i < q.Length0 ==> |m[i]| == q.Length1
    ensures forall i, j :: 0 <= i < q.Length0 && 0 <= j < q.Length1 ==> m[i][j] == q[i, j]
  {
    seq(q.Length0, i requires 0 <= i < q.Length0 reads q =>
      seq(q.Length1, j requires 0 <= j < q.Length1 reads q => q[i, j]))
  }

  /**
   * `build_qubo`: rescale the costs by their maximum, divide the budget by the
   * maximum of the RESCALED costs, then fill the matrix.
   */
  method BuildQubo(impact: seq<real>, finalCost: seq<real>, budget: real, lam: real) returns (q: array2<real>)
    requires |impact| == |finalCost| > 0
    requires Max(finalCost) != 0.0
    ensures fresh(q)
    ensures q.Length0 == |finalCost| && q.Length1 == |finalCost|
    ensures IsQuboOf(ToMatrix(q), impact, Rescale(finalCost), RescaledBudget(budget, finalCost), lam)
  {
    var c := Rescale(finalCost);
    var B := RescaledBudget(budget, finalCost);
    q := FillQubo(impact, c, B, lam);
  }

  /**
   * The accumulation part of `build_qubo`: starting from a zero matrix, add the
   * objective to the diagonal, then the diagonal part of the budget penalty, then
   * the cross terms of the penalty to the strict upper triangle only.
   */
  method FillQubo(impact: seq<real>, c: seq<real>, B: real, lam: real) returns (q: array2<real>)
    requires |impact| == |c|
    ensures fresh(q)
    ensures q.Length0 == |c| && q.Length1 == |c|
    ensures IsQuboOf(ToMatrix(q), impact, c, B, lam)
  {
    var n := |c|;
    q := new real[n, n]((i, j) => 0.0);

    // Objective: maximise impact, i.e. minimise -impact.
    var i := 0;
    while i < n
      invariant 0 <= i <= n
      invariant forall p, r :: 0 <= p < n && 0 <= r < n ==>
        q[p, r] == (if p == r && p < i then -impact[p] else 0.0)
    {
      q[i, i] := q[i, i] + -impact[i];
      i := i + 1;
    }

    // Budget penalty, diagonal part: λ·c_i² − 2·λ·B·c_i.
    i := 0;
    while i < n
      invariant 0 <= i <= n
      invariant forall p, r :: 0 <= p < n && 0 <= r < n ==>
        q[p, r] == (if p == r then (if p < i then QuboEntry(impact, c, B, lam, p, p) else -impact[p]) else 0.0)
    {
      var d := q[i, i] + lam * (c[i] * c[i]) + -2.0 * lam * B * c[i];
      assert d == QuboEntry(impact, c, B, lam, i, i);
      q[i, i] := d;
      i := i + 1;
    }

    // Budget penalty, cross terms: 2·λ·c_i·c_j for i < j only.
    i := 0;
    while i < n
      invariant 0 <= i <= n
      invariant forall p, r :: 0 <= p < n && 0 <= r < n ==>
        q[p, r] == (if p == r || (p < r && p < i) then QuboEntry(impact, c, B, lam, p, r) else 0.0)
    {
      var j := i + 1;
      while j < n
        invariant i + 1 <= j <= n
        invariant forall p, r :: 0 <= p < n && 0 <= r < n ==>
          q[p, r] == (if p == r || (p < r && (p < i || (p == i && r < j))) then QuboEntry(impact, c, B, lam, p, r) else 0.0)
      {
        q[i, j] := q[i, j] + 2.0 * lam * c[i] * c[j];
        j := j + 1;
      }
      i := i + 1;
    }
  }

  // ---------------------------------------------------------------------
  // Rescaling facts
  // ---------------------------------------------------------------------

  /** Helper: x ≤ M with M > 0 gives x / M ≤ 1, and M / M == 1. */
  lemma DivByPositiveMax(x: real, mx: real)
    requires x <= mx && mx > 0.0
    ensures x / mx <= 1.0 && mx / mx == 1.0
  {
    var q := x / mx;
    assert q * mx == x;
  }

  /** The rescaled column always contains 1 (the old maximum divided by itself), so its
      maximum is at least 1 and the budget division is defined. */
  lemma RescaledMaxAtLeastOne(cost: seq<real>)
    requires |cost| > 0 && Max(cost) != 0.0
    ensures Max(Rescale(cost)) >= 1.0
  {
    var mx := Max(cost);
    assert mx in cost;
    var k :| 0 <= k < |cost| && cost[k] == mx;
    SelfDivision(mx);
    assert Rescale(cost)[k] == 1.0;
  }

  /** Helper: a non-zero number divided by itself is 1. */
  lemma SelfDivision(v: real)
    requires v != 0.0
    ensures v / v == 1.0
  {
  }

  /** With a positive maximum cost every rescaled cost is at most 1 and the largest is exactly 1. */
  lemma RescaleBounds(cost: seq<real>)
    requires |cost| > 0 && Max(cost) > 0.0
    ensures forall i :: 0 <= i < |cost| ==> Rescale(cost)[i] <= 1.0
    ensures Max(Rescale(cost)) == 1.0
  {
    var mx := Max(cost);
    forall i | 0 <= i < |cost| ensures Rescale(cost)[i] <= 1.0 {
      DivByPositiveMax(cost[i], mx);
    }
    RescaledMaxAtLeastOne(cost);
  }

  /** The budget is divided by the maximum of the already-rescaled costs, which is 1:
      with a positive maximum cost the budget reaches the matrix unchanged. */
  lemma BudgetNotRescaled(budget: real, cost: seq<real>)
    requires |cost| > 0 && Max(cost) > 0.0
    ensures RescaledBudget(budget, cost) == budget
  {
    RescaleBounds(cost);
  }

  // ---------------------------------------------------------------------
  // Shape of the matrix
  // ---------------------------------------------------------------------

  /** The matrix is upper-triangular and not symmetric: Q[i][j] carries the whole cross
      term 2·λ·c_i·c_j for i < j and Q[j][i] is 0. */
  lemma UpperTriangular(m: Matrix, impact: seq<real>, c: seq<real>, B: real, lam: real, i: nat, j: nat)
    requires IsQuboOf(m, impact, c, B, lam)
    requires i < j < |c|
    ensures m[i][j] == 2.0 * lam * c[i] * c[j]
    ensures m[j][i] == 0.0
  {
  }

  /** Each diagonal entry is −impact_i + λ·c_i² − 2·λ·B·c_i. */
  lemma DiagonalEntry(m: Matrix, impact: seq<real>, c: seq<real>, B: real, lam: real, i: nat)
    requires IsQuboOf(m, impact, c, B, lam)
    requires i < |c|
    ensures m[i][i] == -impact[i] + lam * (c[i] * c[i]) - 2.0 * lam * B * c[i]
  {
  }

  // ---------------------------------------------------------------------
  // The energy identity
  // ---------------------------------------------------------------------

  /** Helper: on 0/1 entries a summand is the matrix entry or 0. */
  lemma TermOfBits(xi: int, v: real, xj: int)
    requires (xi == 0 || xi == 1) && (xj == 0 || xj == 1)
    ensures (xi as real) * v * (xj as real) == (if xi == 1 && xj == 1 then v else 0.0)
  {
  }

  /** Adding one column to a block adds that column's partial sum. */
  lemma {:induction false} BlockSumExtendColumn(m: Matrix, x: seq<int>, a: nat, b: nat)
    requires IsSquare(m, |x|) && a <= |x| && b < |x|
    ensures BlockSum(m, x, a, b + 1) == BlockSum(m, x, a, b) + ColSum(m, x, a, b)
  {
    if a > 0 {
      BlockSumExtendColumn(m, x, a - 1, b);
    }
  }

  /** Left of the diagonal a QUBO row contributes nothing. */
  lemma {:induction false} RowSumLeftOfDiagonal(m: Matrix, impact: seq<real>, c: seq<real>, B: real, lam: real,
                                                x: seq<int>, k: nat, b: nat)
    requires IsQuboOf(m, impact, c, B, lam) && |x| == |c| && IsBinary(x)
    requires b <= k < |x|
    ensures RowSum(m, x, k, b) == 0.0
  {
    if b > 0 {
      RowSumLeftOfDiagonal(m, impact, c, B, lam, x, k, b - 1);
      TermOfBits(x[k], m[k][b - 1], x[b - 1]);
    }
  }

  /** Helper: 2λ·c_k·(S + c_a) == 2λ·c_k·S + 2λ·c_a·c_k. */
  lemma CrossTermStep(lam: real, ck: real, ca: real, s: real)
    ensures 2.0 * lam * ck * (s + ca) == 2.0 * lam * ck * s + 2.0 * lam * ca * ck
  {
  }

  /** Above the diagonal, column k of a QUBO matrix sums to 2λ·c_k·(selected cost so far)
      when road k is selected, and to 0 otherwise. */
  lemma {:induction false} ColSumAboveDiagonal(m: Matrix, impact: seq<real>, c: seq<real>, B: real, lam: real,
                                               x: seq<int>, a: nat, k: nat)
    requires IsQuboOf(m, impact, c, B, lam) && |x| == |c| && IsBinary(x)
    requires a <= k < |x|
    ensures ColSum(m, x, a, k) == (if x[k] == 1 then 2.0 * lam * c[k] * SelectedTotal(c, x, a) else 0.0)
  {
    if a > 0 {
      ColSumAboveDiagonal(m, impact, c, B, lam, x, a - 1, k);
      TermOfBits(x[a - 1], m[a - 1][k], x[k]);
      CrossTermStep(lam, c[k], c[a - 1], SelectedTotal(c, x, a - 1));
    }
  }

  /** Helper: the closed form grows by exactly the new row and column when a selected road is added. */
  lemma ClosedFormStep(imp: real, ci: real, lam: real, B: real, I: real, S: real)
    ensures -(I + imp) + lam * ((S + ci - B) * (S + ci - B) - B * B)
         == (-I + lam * ((S - B) * (S - B) - B * B))
            + 2.0 * lam * ci * S
            + (-imp + lam * (ci * ci) + -2.0 * lam * B * ci)
  {
    var d := S - B;
    assert (S + ci - B) * (S + ci - B) == d * d + 2.0 * ci * d + ci * ci;
    assert lam * ((d * d + 2.0 * ci * d + ci * ci) - B * B)
        == lam * (d * d - B * B) + 2.0 * lam * ci * d + lam * (ci * ci);
    assert 2.0 * lam * ci * d == 2.0 * lam * ci * S - 2.0 * lam * B * ci;
  }

  /** Adding road p to the prefix changes the closed form by road p's new column and
      diagonal entry when it is selected, and not at all otherwise. */
  lemma PenalisedObjectiveStep(impact: seq<real>, c: seq<real>, B: real, lam: real, x: seq<int>, p: nat)
    requires |impact| == |c| == |x| && p < |x|
    ensures PenalisedObjective(impact, c, B, lam, x, p + 1)
         == PenalisedObjective(impact, c, B, lam, x, p)
            + (if x[p] == 1
               then 2.0 * lam * c[p] * SelectedTotal(c, x, p) + (-impact[p] + lam * (c[p] * c[p]) + -2.0 * lam * B * c[p])
               else 0.0)
  {
    if x[p] == 1 {
      ClosedFormStep(impact[p], c[p], lam, B, SelectedTotal(impact, x, p), SelectedTotal(c, x, p));
    }
  }

  /** The energy identity on the leading k×k block, by induction on k. */
  lemma {:induction false} EnergyPrefix(m: Matrix, impact: seq<real>, c: seq<real>, B: real, lam: real,
                                        x: seq<int>, k: nat)
    requires IsQuboOf(m, impact, c, B, lam) && |x| == |c| && IsBinary(x)
    requires k <= |x|
    ensures BlockSum(m, x, k, k) == PenalisedObjective(impact, c, B, lam, x, k)
  {
    if k > 0 {
      var p := k - 1;
      EnergyPrefix(m, impact, c, B, lam, x, p);
      BlockSumExtendColumn(m, x, p, p);
      RowSumLeftOfDiagonal(m, impact, c, B, lam, x, p, p);
      ColSumAboveDiagonal(m, impact, c, B, lam, x, p, p);
      TermOfBits(x[p], m[p][p], x[p]);
      PenalisedObjectiveStep(impact, c, B, lam, x, p);
      assert BlockSum(m, x, k, k) == BlockSum(m, x, p, p) + ColSum(m, x, p, p) + Term(m, x, p, p);
    }
  }

  /**
   * For every 0/1 vector x, xᵀQx == −Σ_{selected} impact + λ·((Σ_{selected} c − B)² − B²):
   * the squared budget penalty minus its constant λ·B², which the matrix cannot carry.
   */
  lemma EnergyIdentity(m: Matrix, impact: seq<real>, c: seq<real>, B: real, lam: real, x: seq<int>)
    requires IsQuboOf(m, impact, c, B, lam) && |x| == |c| && IsBinary(x)
    ensures QuadraticForm(m, x) == PenalisedObjective(impact, c, B, lam, x, |x|)
  {
    EnergyPrefix(m, impact, c, B, lam, x, |x|);
  }

  /** The all-zero selection has energy 0, whatever the matrix. */
  lemma {:induction false} ZeroSelectionEnergy(m: Matrix, x: seq<int>)
    requires IsSquare(m, |x|)
    requires forall i :: 0 <= i < |x| ==> x[i] == 0
    ensures QuadraticForm(m, x) == 0.0
  {
    ZeroBlock(m, x, |x|);
  }

  lemma {:induction false} ZeroBlock(m: Matrix, x: seq<int>, a: nat)
    requires IsSquare(m, |x|) && a <= |x|
    requires forall i :: 0 <= i < |x| ==> x[i] == 0
    ensures BlockSum(m, x, a, |x|) == 0.0
  {
    if a > 0 {
      ZeroBlock(m, x, a - 1);
      ZeroRow(m, x, a - 1, |x|);
    }
  }

  lemma {:induction false} ZeroRow(m: Matrix, x: seq<int>, i: nat, b: nat)
    requires IsSquare(m, |x|) && i < |x| && b <= |x|
    requires forall i :: 0 <= i < |x| ==> x[i] == 0
    ensures RowSum(m, x, i, b) == 0.0
  {
    if b > 0 {
      ZeroRow(m, x, i, b - 1);
      TermOfBits(x[i], m[i][b - 1], x[b - 1]);
    }
  }
}
