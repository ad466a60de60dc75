/**
 * The single-layer QAOA circuit as a list of gates, the energy of a measured
 * bit string, and the choice of the lowest-energy measurement.
 */
module QaoaSolver {
  import opened Wrappers
  import opened Bitstrings
  import opened Qubo
  import opened Numeric

  /** A rotation angle as the linear form gammaCoeff·γ + betaCoeff·β in the circuit's
      two symbolic parameters. */
  datatype Angle = Angle(gammaCoeff: real, betaCoeff: real)

  datatype Gate =
    | H(qubit: nat)
    | RZ(angle: Angle, qubit: nat)
    | CX(control: nat, target: nat)
    | RX(angle: Angle, qubit: nat)

  /** The qubits a gate acts on. */
  function Qubits(g: Gate): set<nat>
  {
    match g
    case H(q) => {q}
    case RZ(_, q) => {q}
    case CX(c, t) => {c, t}
    case RX(_, q) => {q}
  }

  // ---------------------------------------------------------------------
  // The circuit, layer by layer
  // ---------------------------------------------------------------------

  /** `qc.h(range(n))`. */
  function Hadamards(n: nat): (g: seq<Gate>)
    ensures |g| == n
  {
    seq(n, i requires 0 <= i < n => H(i))
  }

  /** The mixer: RX(2β) on every qubit. */
  function Mixer(n: nat): (g: seq<Gate>)
    ensures |g| == n
  {
    seq(n, i requires 0 <= i < n => RX(Angle(0.0, 2.0), i))
  }

  /** RZ(2γ·Q[i][i]) on qubit i. */
  function DiagonalRotation(m: Matrix, i: nat): Gate
    requires IsSquare(m, |m|) && i < |m|
  {
    RZ(Angle(2.0 * m[i][i], 0.0), i)
  }

  /** The diagonal rotations for qubits below k, skipping zero entries. */
  function DiagonalLayer(m: Matrix, k: nat): seq<Gate>
    requires IsSquare(m, |m|) && k <= |m|
  {
    if k == 0 then []
    else DiagonalLayer(m, k - 1) + (if m[k - 1][k - 1] != 0.0 then [DiagonalRotation(m, k - 1)] else [])
  }

  /** Lexicographic order on qubit pairs. */
  predicate LexLess(p: (nat, nat), q: (nat, nat))
  {
    p.0 < q.0 || (p.0 == q.0 && p.1 < q.1)
  }

  predicate LexIncreasing(ps: seq<(nat, nat)>)
  {
    forall a, b :: 0 <= a < b < |ps| ==> LexLess(ps[a], ps[b])
  }

  /** The pairs (i, j) with i < j < b and Q[i][j] ≠ 0, in increasing j. */
  function RowPairs(m: Matrix, i: nat, b: nat): seq<(nat, nat)>
    requires IsSquare(m, |m|) && i < |m| && b <= |m|
  {
    if b <= i + 1 then []
    else RowPairs(m, i, b - 1) + (if m[i][b - 1] != 0.0 then [(i, b - 1)] else [])
  }

  /** Every pair of RowPairs lies in row i, right of the diagonal and before column b. */
  lemma {:induction false} RowPairsBounds(m: Matrix, i: nat, b: nat)
    requires IsSquare(m, |m|) && i < |m| && b <= |m|
    ensures forall t :: 0 <= t < |RowPairs(m, i, b)| ==>
      RowPairs(m, i, b)[t].0 == i && i < RowPairs(m, i, b)[t].1 < b
  {
    if b > i + 1 {
      RowPairsBounds(m, i, b - 1);
      var prev, r := RowPairs(m, i, b - 1), RowPairs(m, i, b);
      assert r == prev + (if m[i][b - 1] != 0.0 then [(i, b - 1)] else []);
      forall t | 0 <= t < |r| ensures r[t].0 == i && i < r[t].1 < b {
        if t < |prev| {
          assert r[t] == prev[t];
        }
      }
    }
  }

  /** RowPairs lists only non-zero entries. */
  lemma {:induction false} RowPairsNonZero(m: Matrix, i: nat, b: nat)
    requires IsSquare(m, |m|) && i < |m| && b <= |m|
    ensures forall t :: 0 <= t < |RowPairs(m, i, b)| ==>
      RowPairs(m, i, b)[t].1 < |m| && m[i][RowPairs(m, i, b)[t].1] != 0.0
  {
    RowPairsBounds(m, i, b);
    if b > i + 1 {
      RowPairsNonZero(m, i, b - 1);
      var prev, r := RowPairs(m, i, b - 1), RowPairs(m, i, b);
      assert r == prev + (if m[i][b - 1] != 0.0 then [(i, b - 1)] else []);
      forall t | 0 <= t < |r| ensures r[t].1 < |m| && m[i][r[t].1] != 0.0 {
        if t < |prev| {
          assert r[t] == prev[t];
        }
      }
    }
  }

  /** The position of a non-zero entry (i, j), right of the diagonal and before column b,
      in RowPairs. */
  lemma {:induction false} RowPairsIndex(m: Matrix, i: nat, b: nat, j: nat) returns (t: nat)
    requires IsSquare(m, |m|) && i < |m| && b <= |m|
    requires i < j < b && m[i][j] != 0.0
    ensures t < |RowPairs(m, i, b)| && RowPairs(m, i, b)[t] == (i, j)
  {
    var prev, r := RowPairs(m, i, b - 1), RowPairs(m, i, b);
    assert r == prev + (if m[i][b - 1] != 0.0 then [(i, b - 1)] else []);
    if j < b - 1 {
      t := RowPairsIndex(m, i, b - 1, j);
      assert r[t] == prev[t];
    } else {
      t := |prev|;
    }
  }

  /** RowPairs is in strictly increasing column order. */
  lemma {:induction false} RowPairsIncreasing(m: Matrix, i: nat, b: nat)
    requires IsSquare(m, |m|) && i < |m| && b <= |m|
    ensures LexIncreasing(RowPairs(m, i, b))
  {
    if b > i + 1 {
      RowPairsIncreasing(m, i, b - 1);
      RowPairsBounds(m, i, b - 1);
      var prev, r := RowPairs(m, i, b - 1), RowPairs(m, i, b);
      assert r == prev + (if m[i][b - 1] != 0.0 then [(i, b - 1)] else []);
      forall a, c | 0 <= a < c < |r| ensures LexLess(r[a], r[c]) {
        assert r[a] == prev[a];
        if c < |prev| {
          assert r[c] == prev[c];
        } else {
          assert r[c] == (i, b - 1);
        }
      }
    }
  }

  /** The pairs (i, j) with i < k, i < j and Q[i][j] ≠ 0, row by row. */
  function UpperPairs(m: Matrix, k: nat): seq<(nat, nat)>
    requires IsSquare(m, |m|) && k <= |m|
  {
    if k == 0 then [] else UpperPairs(m, k - 1) + RowPairs(m, k - 1, |m|)
  }

  /** Every pair of UpperPairs lies in a row below k, strictly above the diagonal. */
  lemma {:induction false} UpperPairsBounds(m: Matrix, k: nat)
    requires IsSquare(m, |m|) && k <= |m|
    ensures forall t :: 0 <= t < |UpperPairs(m, k)| ==>
      UpperPairs(m, k)[t].0 < k && UpperPairs(m, k)[t].0 < UpperPairs(m, k)[t].1 < |m|
  {
    if k > 0 {
      UpperPairsBounds(m, k - 1);
      RowPairsBounds(m, k - 1, |m|);
      var prev, row, r := UpperPairs(m, k - 1), RowPairs(m, k - 1, |m|), UpperPairs(m, k);
      assert r == prev + row;
      forall t | 0 <= t < |r| ensures r[t].0 < k && r[t].0 < r[t].1 < |m| {
        if t < |prev| {
          assert r[t] == prev[t];
        } else {
          assert r[t] == row[t - |prev|];
        }
      }
    }
  }

  /** UpperPairs lists only non-zero entries. */
  lemma {:induction false} UpperPairsNonZero(m: Matrix, k: nat)
    requires IsSquare(m, |m|) && k <= |m|
    ensures forall t :: 0 <= t < |UpperPairs(m, k)| ==>
      UpperPairs(m, k)[t].0 < UpperPairs(m, k)[t].1 < |m| && m[UpperPairs(m, k)[t].0][UpperPairs(m, k)[t].1] != 0.0
  {
    UpperPairsBounds(m, k);
    if k > 0 {
      UpperPairsNonZero(m, k - 1);
      RowPairsNonZero(m, k - 1, |m|);
      RowPairsBounds(m, k - 1, |m|);
      var prev, row, r := UpperPairs(m, k - 1), RowPairs(m, k - 1, |m|), UpperPairs(m, k);
      assert r == prev + row;
      forall t | 0 <= t < |r| ensures r[t].0 < r[t].1 < |m| && m[r[t].0][r[t].1] != 0.0 {
        if t < |prev| {
          assert r[t] == prev[t];
        } else {
          assert r[t] == row[t - |prev|];
        }
      }
    }
  }

  /** The position of a non-zero entry (i, j), above the diagonal and in a row below k,
      in UpperPairs. */
  lemma {:induction false} UpperPairsIndex(m: Matrix, k: nat, i: nat, j: nat) returns (t: nat)
    requires IsSquare(m, |m|) && k <= |m|
    requires i < k && i < j < |m| && m[i][j] != 0.0
    ensures t < |UpperPairs(m, k)| && UpperPairs(m, k)[t] == (i, j)
  {
    var prev, row, r := UpperPairs(m, k - 1), RowPairs(m, k - 1, |m|), UpperPairs(m, k);
    assert r == prev + row;
    if i < k - 1 {
      t := UpperPairsIndex(m, k - 1, i, j);
      assert r[t] == prev[t];
    } else {
      var u := RowPairsIndex(m, i, |m|, j);
      t := |prev| + u;
      assert r[t] == row[u];
    }
  }

  /** UpperPairs lists every non-zero entry above the diagonal in rows below k. */
  lemma UpperPairsComplete(m: Matrix, k: nat)
    requires IsSquare(m, |m|) && k <= |m|
    ensures forall i, j :: 0 <= i < k && i < j < |m| && m[i][j] != 0.0 ==> (i, j) in UpperPairs(m, k)
  {
    forall i, j | 0 <= i < k && i < j < |m| && m[i][j] != 0.0 ensures (i, j) in UpperPairs(m, k) {
      var t := UpperPairsIndex(m, k, i, j);
    }
  }

  /** UpperPairs is in strictly increasing lexicographic order. */
  lemma {:induction false} UpperPairsIncreasing(m: Matrix, k: nat)
    requires IsSquare(m, |m|) && k <= |m|
    ensures LexIncreasing(UpperPairs(m, k))
  {
    if k > 0 {
      UpperPairsIncreasing(m, k - 1);
      RowPairsIncreasing(m, k - 1, |m|);
      UpperPairsBounds(m, k - 1);
      RowPairsBounds(m, k - 1, |m|);
      var prev, row := UpperPairs(m, k - 1), RowPairs(m, k - 1, |m|);
      var all := prev + row;
      assert UpperPairs(m, k) == all;
      forall a, b | 0 <= a < b < |all| ensures LexLess(all[a], all[b]) {
        if b < |prev| {
          assert all[a] == prev[a] && all[b] == prev[b];
        } else if a >= |prev| {
          assert all[a] == row[a - |prev|] && all[b] == row[b - |prev|];
        } else {
          assert all[a] == prev[a] && prev[a].0 < k - 1;
          assert all[b] == row[b - |prev|] && row[b - |prev|].0 == k - 1;
        }
      }
    }
  }

  /** UpperPairs lists exactly the non-zero entries above the diagonal in rows below k,
      in lexicographic order. */
  lemma UpperPairsExact(m: Matrix, k: nat)
    requires IsSquare(m, |m|) && k <= |m|
    ensures forall t :: 0 <= t < |UpperPairs(m, k)| ==>
      UpperPairs(m, k)[t].0 < UpperPairs(m, k)[t].1 < |m| && m[UpperPairs(m, k)[t].0][UpperPairs(m, k)[t].1] != 0.0
    ensures forall i, j :: 0 <= i < k && i < j < |m| && m[i][j] != 0.0 ==> (i, j) in UpperPairs(m, k)
    ensures LexIncreasing(UpperPairs(m, k))
  {
    UpperPairsNonZero(m, k);
    UpperPairsComplete(m, k);
    UpperPairsIncreasing(m, k);
  }

  /** Q[i][j], read as 0 outside the matrix; every pair the circuit uses lies inside it. */
  function Entry(m: Matrix, i: nat, j: nat): real
  {
    if i < |m| && j < |m[i]| then m[i][j] else 0.0
  }

  /** CX(i, j), RZ(2γ·Q[i][j]) on j, CX(i, j). */
  function PairGates(m: Matrix, p: (nat, nat)): seq<Gate>
  {
    [CX(p.0, p.1), RZ(Angle(2.0 * Entry(m, p.0, p.1), 0.0), p.1), CX(p.0, p.1)]
  }

  /** The three-gate block of every pair, in list order. */
  function Entangle(m: Matrix, ps: seq<(nat, nat)>): (g: seq<Gate>)
    ensures |g| == 3 * |ps|
  {
    if ps == [] then []
    else Entangle(m, ps[..|ps| - 1]) + PairGates(m, ps[|ps| - 1])
  }

  /** The gate list `build_qaoa_circuit` produces for Q: it starts with H on qubits
      0..n−1, ends with RX(2β) on qubits 0..n−1, and has one rotation per non-zero
      diagonal entry and three gates per non-zero upper-triangle entry in between. */
  function QaoaCircuit(m: Matrix): (c: seq<Gate>)
    requires IsSquare(m, |m|)
    ensures |c| == 2 * |m| + |DiagonalLayer(m, |m|)| + 3 * |UpperPairs(m, |m|)|
    ensures forall i :: 0 <= i < |m| ==> c[i] == H(i)
    ensures forall i :: 0 <= i < |m| ==> c[|c| - |m| + i] == RX(Angle(0.0, 2.0), i)
  {
    var n := |m|;
    var h, body, x := Hadamards(n), DiagonalLayer(m, n) + Entangle(m, UpperPairs(m, n)), Mixer(n);
    assert forall i :: 0 <= i < n ==> (h + body + x)[i] == h[i];
    assert forall i :: 0 <= i < n ==> (h + body + x)[|h| + |body| + i] == x[i];
    h + body + x
  }

  /** Helper: appending one pair appends its three gates. */
  lemma EntangleAppend(m: Matrix, ps: seq<(nat, nat)>, p: (nat, nat))
    ensures Entangle(m, ps + [p]) == Entangle(m, ps) + PairGates(m, p)
  {
    assert (ps + [p])[..|ps|] == ps;
  }

  /** Helper: the block of a concatenation is the concatenation of the blocks. */
  lemma {:induction false} EntangleConcat(m: Matrix, ps: seq<(nat, nat)>, qs: seq<(nat, nat)>)
    ensures Entangle(m, ps + qs) == Entangle(m, ps) + Entangle(m, qs)
    decreases |qs|
  {
    if qs != [] {
      var init, last := qs[..|qs| - 1], qs[|qs| - 1];
      assert qs == init + [last];
      assert ps + qs == (ps + init) + [last];
      EntangleConcat(m, ps, init);
      EntangleAppend(m, ps + init, last);
    } else {
      assert ps + qs == ps;
    }
  }

  /**
   * `build_qaoa_circuit`: H on every qubit; RZ(2γ·Q[i][i]) for each non-zero
   * diagonal entry; CX–RZ(2γ·Q[i][j])–CX for each non-zero entry above the
   * diagonal, row by row; RX(2β) on every qubit.
   */
  method BuildQaoaCircuit(m: Matrix) returns (gates: seq<Gate>)
    requires IsSquare(m, |m|)
    ensures gates == QaoaCircuit(m)
  {
    var n := |m|;
    gates := Hadamards(n);
    var diagonal := AppendDiagonal(m);
    gates := gates + diagonal;
    var pairs := AppendPairs(m);
    gates := gates + pairs;
    var mixer := AppendMixer(n);
    gates := gates + mixer;
  }

  /** The off-diagonal loops of `build_qaoa_circuit`, row by row. */
  method AppendPairs(m: Matrix) returns (gates: seq<Gate>)
    requires IsSquare(m, |m|)
    ensures gates == Entangle(m, UpperPairs(m, |m|))
  {
    gates := [];
    var i := 0;
    while i < |m|
      invariant 0 <= i <= |m|
      invariant gates == Entangle(m, UpperPairs(m, i))
    {
      var row := AppendPairRow(m, i);
      ghost var pairs, rowPairs := UpperPairs(m, i), RowPairs(m, i, |m|);
      assert UpperPairs(m, i + 1) == pairs + rowPairs;
      EntangleConcat(m, pairs, rowPairs);
      gates := gates + row;
      i := i + 1;
    }
  }

  /** The diagonal loop of `build_qaoa_circuit`. */
  method AppendDiagonal(m: Matrix) returns (gates: seq<Gate>)
    requires IsSquare(m, |m|)
    ensures gates == DiagonalLayer(m, |m|)
  {
    gates := [];
    var i := 0;
    while i < |m|
      invariant 0 <= i <= |m|
      invariant gates == DiagonalLayer(m, i)
    {
      if m[i][i] != 0.0 {
        gates := gates + [RZ(Angle(2.0 * m[i][i], 0.0), i)];
      }
      i := i + 1;
    }
  }

  /** One pass of the inner off-diagonal loop of `build_qaoa_circuit`, for row i. */
  method AppendPairRow(m: Matrix, i: nat) returns (gates: seq<Gate>)
    requires IsSquare(m, |m|) && i < |m|
    ensures gates == Entangle(m, RowPairs(m, i, |m|))
  {
    gates := [];
    var j := i + 1;
    while j < |m|
      invariant i + 1 <= j <= |m|
      invariant gates == Entangle(m, RowPairs(m, i, j))
    {
      gates := AppendPairColumn(m, i, j, gates);
      j := j + 1;
    }
  }

  /** The body of the inner off-diagonal loop: the gates of entry (i, j) when it is non-zero. */
  method AppendPairColumn(m: Matrix, i: nat, j: nat, gates: seq<Gate>) returns (next: seq<Gate>)
    requires IsSquare(m, |m|) && i < j < |m|
    requires gates == Entangle(m, RowPairs(m, i, j))
    ensures next == Entangle(m, RowPairs(m, i, j + 1))
  {
    EntangleRowStep(m, i, j);
    if m[i][j] != 0.0 {
      next := gates + PairGates(m, (i, j));
    } else {
      next := gates;
    }
  }

  /** Helper: one more column extends a row's pair list by at most that column. */
  lemma RowPairsStep(m: Matrix, i: nat, j: nat)
    requires IsSquare(m, |m|) && i < j < |m|
    ensures m[i][j] != 0.0 ==> RowPairs(m, i, j + 1) == RowPairs(m, i, j) + [(i, j)]
    ensures m[i][j] == 0.0 ==> RowPairs(m, i, j + 1) == RowPairs(m, i, j)
  {
    if m[i][j] == 0.0 {
      assert RowPairs(m, i, j) + [] == RowPairs(m, i, j);
    }
  }

  /** Helper: one more column adds that column's three gates when its entry is non-zero. */
  lemma EntangleRowStep(m: Matrix, i: nat, j: nat)
    requires IsSquare(m, |m|) && i < j < |m|
    ensures m[i][j] != 0.0 ==> Entangle(m, RowPairs(m, i, j + 1)) == Entangle(m, RowPairs(m, i, j)) + PairGates(m, (i, j))
    ensures m[i][j] == 0.0 ==> Entangle(m, RowPairs(m, i, j + 1)) == Entangle(m, RowPairs(m, i, j))
  {
    RowPairsStep(m, i, j);
    if m[i][j] != 0.0 {
      EntangleAppend(m, RowPairs(m, i, j), (i, j));
    }
  }

  /** The mixer loop of `build_qaoa_circuit`. */
  method AppendMixer(n: nat) returns (gates: seq<Gate>)
    ensures gates == Mixer(n)
  {
    gates := [];
    var i := 0;
    while i < n
      invariant 0 <= i <= n
      invariant gates == Mixer(i)
    {
      assert Mixer(i + 1) == Mixer(i) + [RX(Angle(0.0, 2.0), i)];
      gates := gates + [RX(Angle(0.0, 2.0), i)];
      i := i + 1;
    }
  }

  // ---------------------------------------------------------------------
  // Shape of the circuit
  // ---------------------------------------------------------------------

  /** The diagonal layer holds RZ(2γ·Q[i][i]) on qubit i exactly for the i < k with
      Q[i][i] ≠ 0, in strictly increasing qubit order. */
  lemma {:induction false} DiagonalLayerExact(m: Matrix, k: nat)
    requires IsSquare(m, |m|) && k <= |m|
    ensures forall g :: g in DiagonalLayer(m, k) ==>
      g.RZ? && g.qubit < k && m[g.qubit][g.qubit] != 0.0 && g == DiagonalRotation(m, g.qubit)
    ensures forall i :: 0 <= i < k && m[i][i] != 0.0 ==> DiagonalRotation(m, i) in DiagonalLayer(m, k)
    ensures forall a, b :: 0 <= a < b < |DiagonalLayer(m, k)| ==>
      DiagonalLayer(m, k)[a].qubit < DiagonalLayer(m, k)[b].qubit
  {
    if k > 0 {
      DiagonalLayerExact(m, k - 1);
      var prev := DiagonalLayer(m, k - 1);
      forall a | 0 <= a < |prev| ensures prev[a].qubit < k - 1 {
        assert prev[a] in prev;
      }
    }
  }

  /** The entangling part holds the three gates of pair t at positions 3t, 3t+1, 3t+2. */
  lemma {:induction false} EntangleBlocks(m: Matrix, ps: seq<(nat, nat)>, t: nat)
    requires t < |ps|
    ensures Entangle(m, ps)[3 * t .. 3 * t + 3] == PairGates(m, ps[t])
    decreases |ps|
  {
    var init := ps[..|ps| - 1];
    if t < |ps| - 1 {
      EntangleBlocks(m, init, t);
      assert Entangle(m, ps)[3 * t .. 3 * t + 3] == Entangle(m, init)[3 * t .. 3 * t + 3];
    }
  }

  /** Between the diagonal layer and the mixer, pair t of UpperPairs — the t-th non-zero
      upper-triangle entry in lexicographic order — occupies three consecutive gates. */
  lemma CircuitPairBlocks(m: Matrix, t: nat)
    requires IsSquare(m, |m|) && t < |UpperPairs(m, |m|)|
    ensures var off := |m| + |DiagonalLayer(m, |m|)| + 3 * t;
      QaoaCircuit(m)[off .. off + 3] == PairGates(m, UpperPairs(m, |m|)[t])
  {
    var n := |m|;
    var ps := UpperPairs(m, n);
    var front, e := Hadamards(n) + DiagonalLayer(m, n), Entangle(m, ps);
    var c := QaoaCircuit(m);
    assert c == front + (e + Mixer(n));
    EntangleBlocks(m, ps, t);
    var off := |front| + 3 * t;
    assert c[off .. off + 3] == (e + Mixer(n))[3 * t .. 3 * t + 3];
    assert (e + Mixer(n))[3 * t .. 3 * t + 3] == e[3 * t .. 3 * t + 3];
  }

  /** The diagonal layer holds one gate per non-zero diagonal entry. */
  lemma DiagonalCount(m: Matrix)
    requires IsSquare(m, |m|)
    ensures |DiagonalLayer(m, |m|)| == |set i | 0 <= i < |m| && m[i][i] != 0.0|
  {
    var n := |m|;
    var d := DiagonalLayer(m, n);
    DiagonalLayerExact(m, n);
    var qs := seq(|d|, t requires 0 <= t < |d| => d[t].qubit);
    assert (set i | 0 <= i < n && m[i][i] != 0.0) == (set q | q in qs) by {
      forall i | 0 <= i < n && m[i][i] != 0.0 ensures i in qs {
        var t :| 0 <= t < |d| && d[t] == DiagonalRotation(m, i);
        assert qs[t] == i;
      }
      forall q | q in qs ensures 0 <= q < n && m[q][q] != 0.0 {
        var t :| 0 <= t < |qs| && qs[t] == q;
        assert d[t] in d;
      }
    }
    DistinctCard(qs);
  }

  /** UpperPairs holds one pair per non-zero entry above the diagonal. */
  lemma PairCount(m: Matrix)
    requires IsSquare(m, |m|)
    ensures |UpperPairs(m, |m|)| == |set i: nat, j: nat | i < j < |m| && m[i][j] != 0.0 :: (i, j)|
  {
    var n := |m|;
    var ps := UpperPairs(m, n);
    UpperPairsExact(m, n);
    UpperPairsBounds(m, n);
    assert (set i: nat, j: nat | i < j < n && m[i][j] != 0.0 :: (i, j)) == (set p | p in ps) by {
      forall p | p in ps ensures p in (set i: nat, j: nat | i < j < n && m[i][j] != 0.0 :: (i, j)) {
        var t :| 0 <= t < |ps| && ps[t] == p;
        assert m[ps[t].0][ps[t].1] != 0.0;
      }
    }
    forall a, b | 0 <= a < b < |ps| ensures ps[a] != ps[b] {
      assert LexLess(ps[a], ps[b]);
    }
    DistinctCard(ps);
  }

  /** Gate count 2n + #{i : Q[i][i] ≠ 0} + 3·#{i < j : Q[i][j] ≠ 0}. */
  lemma GateCount(m: Matrix)
    requires IsSquare(m, |m|)
    ensures |QaoaCircuit(m)|
         == 2 * |m|
            + |set i | 0 <= i < |m| && m[i][i] != 0.0|
            + 3 * |set i: nat, j: nat | i < j < |m| && m[i][j] != 0.0 :: (i, j)|
  {
    DiagonalCount(m);
    PairCount(m);
  }

  /** Helper: the pair blocks act only on the qubits of their pairs. */
  lemma EntangleQubitsInRange(m: Matrix, ps: seq<(nat, nat)>, n: nat)
    requires forall t :: 0 <= t < |ps| ==> ps[t].0 < n && ps[t].1 < n
    ensures forall g, q :: g in Entangle(m, ps) && q in Qubits(g) ==> q < n
  {
    forall g, q | g in Entangle(m, ps) && q in Qubits(g) ensures q < n {
      var k :| 0 <= k < |Entangle(m, ps)| && Entangle(m, ps)[k] == g;
      var t := k / 3;
      EntangleBlocks(m, ps, t);
      assert g == PairGates(m, ps[t])[k - 3 * t];
    }
  }

  /** Every gate acts only on qubits 0..n−1. */
  lemma QubitsInRange(m: Matrix)
    requires IsSquare(m, |m|)
    ensures forall g, q :: g in QaoaCircuit(m) && q in Qubits(g) ==> q < |m|
  {
    var n := |m|;
    DiagonalLayerExact(m, n);
    UpperPairsBounds(m, n);
    EntangleQubitsInRange(m, UpperPairs(m, n), n);
    var h, d, e, x := Hadamards(n), DiagonalLayer(m, n), Entangle(m, UpperPairs(m, n)), Mixer(n);
    assert QaoaCircuit(m) == h + d + e + x;
    forall g | g in QaoaCircuit(m) ensures g in h || g in d || g in e || g in x {
    }
  }

  // ---------------------------------------------------------------------
  // The lower triangle is never read
  // ---------------------------------------------------------------------

  /** Two matrices that agree on and above the diagonal. */
  ghost predicate SameUpperTriangle(m1: Matrix, m2: Matrix)
  {
    && IsSquare(m1, |m1|) && IsSquare(m2, |m2|) && |m2| == |m1|
    && forall i, j :: 0 <= i <= j < |m1| ==> m1[i][j] == m2[i][j]
  }

  lemma {:induction false} DiagonalLayerUpper(m1: Matrix, m2: Matrix, k: nat)
    requires SameUpperTriangle(m1, m2) && k <= |m1|
    ensures DiagonalLayer(m1, k) == DiagonalLayer(m2, k)
  {
    if k > 0 {
      DiagonalLayerUpper(m1, m2, k - 1);
    }
  }

  lemma {:induction false} RowPairsUpper(m1: Matrix, m2: Matrix, i: nat, b: nat)
    requires SameUpperTriangle(m1, m2) && i < |m1| && b <= |m1|
    ensures RowPairs(m1, i, b) == RowPairs(m2, i, b)
  {
    if b > i + 1 {
      RowPairsUpper(m1, m2, i, b - 1);
      assert m1[i][b - 1] == m2[i][b - 1];
    }
  }

  lemma {:induction false} UpperPairsUpper(m1: Matrix, m2: Matrix, k: nat)
    requires SameUpperTriangle(m1, m2) && k <= |m1|
    ensures UpperPairs(m1, k) == UpperPairs(m2, k)
  {
    if k > 0 {
      UpperPairsUpper(m1, m2, k - 1);
      RowPairsUpper(m1, m2, k - 1, |m1|);
      assert UpperPairs(m1, k) == UpperPairs(m1, k - 1) + RowPairs(m1, k - 1, |m1|);
      assert UpperPairs(m2, k) == UpperPairs(m2, k - 1) + RowPairs(m2, k - 1, |m1|);
    }
  }

  lemma {:induction false} EntangleUpper(m1: Matrix, m2: Matrix, ps: seq<(nat, nat)>)
    requires SameUpperTriangle(m1, m2)
    requires forall t :: 0 <= t < |ps| ==> ps[t].0 < ps[t].1 < |m1|
    ensures Entangle(m1, ps) == Entangle(m2, ps)
    decreases |ps|
  {
    if ps != [] {
      var init, last := ps[..|ps| - 1], ps[|ps| - 1];
      assert forall t :: 0 <= t < |init| ==> init[t] == ps[t];
      EntangleUpper(m1, m2, init);
      assert Entry(m1, last.0, last.1) == Entry(m2, last.0, last.1);
    }
  }

  /** Entries below the diagonal never influence the circuit: it reads only the upper triangle. */
  lemma IgnoresLowerTriangle(m1: Matrix, m2: Matrix)
    requires SameUpperTriangle(m1, m2)
    ensures QaoaCircuit(m1) == QaoaCircuit(m2)
  {
    var n := |m1|;
    DiagonalLayerUpper(m1, m2, n);
    UpperPairsUpper(m1, m2, n);
    UpperPairsBounds(m1, n);
    EntangleUpper(m1, m2, UpperPairs(m1, n));
  }

  // ---------------------------------------------------------------------
  // Energy and selection
  // ---------------------------------------------------------------------

  /** `compute_energy`: reverse the bit string into x, then xᵀQx. */
  function ComputeEnergy(bitstring: string, m: Matrix): (r: real)
    requires IsBitString(bitstring) && IsSquare(m, |bitstring|)
    ensures (forall k :: 0 <= k < |bitstring| ==> bitstring[k] == '0') ==> r == 0.0
  {
    ZeroStringEnergy(bitstring, m);
    QuadraticForm(m, Decode(bitstring))
  }

  /** Helper: the all-'0' measurement selects nothing, so its energy is 0. */
  lemma ZeroStringEnergy(bitstring: string, m: Matrix)
    requires IsBitString(bitstring) && IsSquare(m, |bitstring|)
    ensures (forall k :: 0 <= k < |bitstring| ==> bitstring[k] == '0') ==> QuadraticForm(m, Decode(bitstring)) == 0.0
  {
    if forall k :: 0 <= k < |bitstring| ==> bitstring[k] == '0' {
      DecodeAllZeros(bitstring);
      ZeroSelectionEnergy(m, Decode(bitstring));
    }
  }

  /** The measurement that encodes a selection x has energy xᵀQx: reading the string in
      reverse recovers exactly the selection that was encoded. */
  lemma EnergyOfEncoded(x: seq<int>, m: Matrix)
    requires IsBinary(x) && IsSquare(m, |x|)
    ensures ComputeEnergy(Encode(x), m) == QuadraticForm(m, x)
  {
    DecodeEncode(x);
  }

  /** On a QUBO matrix the energy of a measurement is the penalised objective of the
      roads it selects. */
  lemma EnergyOfMeasurement(m: Matrix, impact: seq<real>, c: seq<real>, B: real, lam: real, bitstring: string)
    requires IsQuboOf(m, impact, c, B, lam) && IsBitString(bitstring) && |bitstring| == |c|
    ensures ComputeEnergy(bitstring, m) == PenalisedObjective(impact, c, B, lam, Decode(bitstring), |c|)
  {
    EnergyIdentity(m, impact, c, B, lam, Decode(bitstring));
  }

  /** A real number or +∞ (`float("inf")`). */
  datatype ExtReal = Finite(value: real) | PosInfinity

  predicate Below(a: real, e: ExtReal)
  {
    e.PosInfinity? || a < e.value
  }

  /** Every key of `counts` is a measurement of the circuit's n qubits. */
  ghost predicate ValidCounts(counts: seq<(string, int)>, m: Matrix)
  {
    IsSquare(m, |m|) && forall k :: 0 <= k < |counts| ==> IsBitString(counts[k].0) && |counts[k].0| == |m|
  }

  function EnergyAt(counts: seq<(string, int)>, m: Matrix, k: nat): real
    requires ValidCounts(counts, m) && k < |counts|
  {
    ComputeEnergy(counts[k].0, m)
  }

  /** Key k has the least energy of the first `upTo` keys and every earlier key is strictly higher. */
  ghost predicate FirstMinimum(counts: seq<(string, int)>, m: Matrix, k: nat, upTo: nat)
    requires ValidCounts(counts, m) && k < upTo <= |counts|
  {
    && (forall t :: 0 <= t < upTo ==> EnergyAt(counts, m, k) <= EnergyAt(counts, m, t))
    && (forall t :: 0 <= t < k ==> EnergyAt(counts, m, t) > EnergyAt(counts, m, k))
  }

  /**
   * The selection loop of `run_qaoa_and_extract_solution`: scan the measured keys in
   * order and keep one whose energy is strictly below the best so far. Count values
   * play no part. With no keys the result is no bit string and +∞.
   */
  method SelectMinEnergy(counts: seq<(string, int)>, m: Matrix) returns (bestBit: Option<string>, bestEnergy: ExtReal)
    requires ValidCounts(counts, m)
    ensures counts == [] <==> bestBit == None
    ensures counts == [] ==> bestEnergy == PosInfinity
    ensures counts != [] ==> exists k :: 0 <= k < |counts| && FirstMinimum(counts, m, k, |counts|)
                                      && bestBit == Some(counts[k].0)
                                      && bestEnergy == Finite(EnergyAt(counts, m, k))
    ensures forall t :: 0 <= t < |counts| ==> !Below(EnergyAt(counts, m, t), bestEnergy)
  {
    bestBit := None;
    bestEnergy := PosInfinity;
    ghost var bestIndex := 0;
    var i := 0;
    while i < |counts|
      invariant 0 <= i <= |counts|
      invariant i == 0 ==> bestBit == None && bestEnergy == PosInfinity
      invariant i > 0 ==> && bestIndex < i && FirstMinimum(counts, m, bestIndex, i)
                          && bestBit == Some(counts[bestIndex].0)
                          && bestEnergy == Finite(EnergyAt(counts, m, bestIndex))
    {
      var e := ComputeEnergy(counts[i].0, m);
      if Below(e, bestEnergy) {
        bestEnergy := Finite(e);
        bestBit := Some(counts[i].0);
        bestIndex := i;
      }
      i := i + 1;
    }
  }
}
