# Phoenix-ReBuildQ core, modelled in Dafny

Phoenix-ReBuildQ plans post-war reconstruction in two ways.

The **quantum roads pipeline** works on a table of damaged roads. It runs these stages:

1. It enriches each road with a hospital-proximity score, a land-use factor, a soil factor and a soil-adjusted cost.
2. It min-max scales four humanitarian indicators into one weighted impact score.
3. It builds a QUBO (quadratic unconstrained binary optimisation) matrix. The matrix rewards impact and penalises deviation from a budget.
4. It builds a one-layer QAOA (quantum approximate optimisation) circuit from the matrix.
5. It picks the measured bitstring with the lowest QUBO energy.
6. It decodes that bitstring into a recovery plan.

The **city planner** works per zone. It derives need and deficit scores, builds one candidate per (zone, project type) and sorts the candidates by score. It then fills three phases greedily, under budget, time, coverage and per-zone limits. Finally it summarises the plan in a few metrics.

The model has these modules:

- `Wrappers`: `Option` and `Result`.
- `Numeric`: max, min, sums, truncation, ceiling and clipping.
- `FeatureEngineering`, `ImpactScoring`, `Qubo` and `PlanBuilder`: one module per pipeline stage.
- `Bitstrings`: Qiskit's reversed bit order.
- `QaoaSolver`: the circuit as a list of gates, the energy, and the minimum-energy selection.
- `QuantumPipeline`: how the stages fit together.
- `CityPlanner`: the planner's tables, zone scores and sorted candidates.
- `GreedyPlanner`: `generate_plan` and its `try_pick`.
- `PlanMetrics`: `compute_metrics`.

pandas' NaN is `None`. Python lists and dictionaries are sequences and maps.

Most of the core is written as expressions, so most of the model is functions and lemmas. The loops are modelled as methods, each proved against a function or predicate that specifies it:

- the matrix fill of `build_qubo`, on a fresh `array2`;
- the gate-appending loops of `build_qaoa_circuit`;
- the selection loop of `run_qaoa_and_extract_solution`;
- the candidate loop of `generate_plan`;
- `try_pick` (against `GreedyPlanner.Scan`) and the phase loop (against `GreedyPlanner.PlanPhases`).

Where the code and its comments disagree, the model follows the code:

- `build_qubo` fills only the upper triangle (`Qubo.UpperTriangular`). The docstring of `build_qaoa_circuit` calls the matrix symmetric.
- An unknown land use or soil gives a missing factor. That missing factor carries into the cost and the impact.
- `build_qubo` divides the budget by the maximum of the costs *after* they are rescaled, and that maximum is 1. So the budget stays in the original units while the costs are rescaled (`Qubo.BudgetNotRescaled`). The energy identity in `QuantumPipeline` is stated with exactly this budget.
- With no measurements, the selection returns `None` and an infinite energy.
- The coverage pass of `try_pick` stops once the target is reached. With a budget of zero or less, no action is taken at all.

## Model

| member | source | states |
|---|---|---|
| FeatureEngineering.LandUseFactor | quantum/feature_engineering.py:25-31 | a factor exists exactly for residential, mixed and industrial land |
| FeatureEngineering.LandUseTable | quantum/feature_engineering.py:25-29 | residential 1.2, mixed 1.0, industrial 0.8 |
| FeatureEngineering.SoilFactor | quantum/feature_engineering.py:39-44 | a factor exists exactly for sandy and compact soil |
| FeatureEngineering.SoilTable | quantum/feature_engineering.py:39-42 | sandy 1.4, compact 1.0 |
| FeatureEngineering.FinalCost | quantum/feature_engineering.py:50 | the final cost is known exactly when the soil factor is |
| FeatureEngineering.FinalCostAtLeastBase | quantum/feature_engineering.py:39-50 | for known soil and a non-negative base cost, the final cost is at least the base cost; it equals the base cost exactly on compact soil or at zero cost |
| FeatureEngineering.HospitalScoreBounds | quantum/feature_engineering.py:18 | for a non-negative distance the score lies in (0, 1]; it is 1 exactly at distance 0 |
| FeatureEngineering.HospitalScore | quantum/feature_engineering.py:18 | the score times 1 + distance is exactly 1, so it is the reciprocal; it is positive exactly when the distance exceeds −1 |
| FeatureEngineering.HospitalScoreDecreasing | quantum/feature_engineering.py:18 | a farther hospital gives a strictly lower score |
| FeatureEngineering.EngineerContextFeatures | quantum/feature_engineering.py:3-53 | one enriched row per input row, in order, keeping the original columns |
| ImpactScoring.ScaleOf | quantum/impact_scoring.py:18-26 | the scaler's divisor is positive; it is max minus min unless the column is constant |
| ImpactScoring.MinMaxScale | quantum/impact_scoring.py:18-26 | the scaled column has the same length and every value lies in [0, 1] |
| ImpactScoring.MinMaxScaleExtremes | quantum/impact_scoring.py:18-26 | in a non-constant column, the minimum scales to 0 and the maximum to 1 |
| ImpactScoring.MinMaxScaleConstant | quantum/impact_scoring.py:18-26 | a constant column scales to all zeros |
| ImpactScoring.MinMaxScaleMonotone | quantum/impact_scoring.py:18-26 | scaling keeps the order of the values |
| ImpactScoring.WeightedImpact | quantum/impact_scoring.py:31-42 | the impact is known exactly when the land-use factor is |
| ImpactScoring.WeightedSumBounds | quantum/impact_scoring.py:31-36 | with non-negative weights, the weighted sum lies between 0 and the total weight |
| ImpactScoring.ImpactBounds | quantum/impact_scoring.py:31-42 | a known non-negative factor gives an impact between 0 and factor × total weight |
| ImpactScoring.ComputeImpactScores | quantum/impact_scoring.py:6-44 | an empty table is an error (the scaler refuses it); otherwise one scored row per road, whose four normalised columns are the min-max scaling of the damage, population, hospital-score and aid columns over the whole table, each in [0, 1], and whose impact is known exactly when the land-use factor is |
| ImpactScoring.ScoreBatch | quantum/impact_scoring.py:18-42 | for a non-empty table, row i keeps its road, takes the i-th value of each scaled column, and gets the weighted sum of those values times its land-use factor |
| ImpactScoring.ScoredImpactBounds | quantum/impact_scoring.py:6-44 | a road with factor f ≥ 0 gets an impact between 0 and f × total weight |
| Qubo.Rescale | quantum/qubo.py:23 | the costs are divided by their maximum, keeping one value per road |
| Qubo.RescaleBounds | quantum/qubo.py:23 | with a positive maximum, every rescaled cost is at most 1 and the largest is exactly 1 |
| Qubo.RescaledMaxAtLeastOne | quantum/qubo.py:23-26 | the maximum of the rescaled costs is at least 1 |
| Qubo.BudgetNotRescaled | quantum/qubo.py:23-26 | dividing by the maximum of the already rescaled costs leaves the budget unchanged |
| Qubo.RescaledBudget | quantum/qubo.py:26 | dividing by the rescaled maximum (at least 1) keeps the budget's sign and never moves it away from 0 |
| Qubo.BuildQubo | quantum/qubo.py:4-49 | a fresh n×n matrix whose entries are exactly those of a QUBO for the impacts, the rescaled costs, that budget and λ |
| Qubo.FillQubo | quantum/qubo.py:30-47 | the fill loops write the diagonal (−impact, λ·cost², −2·λ·B·cost) and the upper off-diagonal (2·λ·cᵢ·cⱼ), and leave zeros below the diagonal |
| Qubo.ToMatrix | quantum/qubo.py:30 | the matrix value has the array's dimensions and entries |
| Qubo.UpperTriangular | quantum/qubo.py:45-47 | above the diagonal the entry is 2·λ·cᵢ·cⱼ; below it the entry is 0 |
| Qubo.DiagonalEntry | quantum/qubo.py:35-43 | the diagonal entry is −impactᵢ + λ·cᵢ² − 2·λ·B·cᵢ |
| Qubo.EnergyIdentity | quantum/qubo.py:39-47 | for every 0/1 vector, xᵀQx equals −Σ impact + λ·((Σ cost − B)² − B²) over the selected roads |
| Qubo.EnergyPrefix | quantum/qubo.py:35-47 | the same identity holds for the leading k×k block |
| Qubo.ColSumAboveDiagonal | quantum/qubo.py:45-47 | a column above the diagonal contributes 2·λ·cₖ·(cost selected before k) when k is selected, and 0 otherwise |
| Qubo.RowSumLeftOfDiagonal | quantum/qubo.py:45-47 | a row left of the diagonal contributes 0 |
| Qubo.PenalisedObjectiveStep | quantum/qubo.py:39-43 | adding road p changes the penalised objective by its diagonal and cross terms |
| Qubo.BlockSumExtendColumn | quantum/qubo.py:45-47 | a block sum grows by one column sum per column |
| Qubo.ZeroSelectionEnergy | quantum/qubo.py:30 | the empty selection has energy 0 |
| Qubo.ZeroBlock | quantum/qubo.py:30 | with nothing selected, every block sum is 0 |
| Qubo.ZeroRow | quantum/qubo.py:30 | with nothing selected, every row sum is 0 |
| Bitstrings.Bit | quantum/plan_builder.py:13 | `int(b)` is 1 exactly for '1' and 0 for '0' |
| Bitstrings.Decode | quantum/plan_builder.py:13 | decoding gives a 0/1 vector of the same length |
| Bitstrings.Encode | quantum/qaoa_solver.py:53 | encoding gives a bitstring of the same length |
| Bitstrings.DecodeEncode | quantum/qaoa_solver.py:53 | decoding undoes encoding |
| Bitstrings.EncodeDecode | quantum/plan_builder.py:13 | encoding undoes decoding |
| Bitstrings.DecodeReadsReversed | quantum/plan_builder.py:13 | road i is selected exactly when character \|s\|−1−i is '1' (Qiskit order) |
| Bitstrings.DecodeAllZeros | quantum/plan_builder.py:13 | an all-'0' string decodes to no selection |
| QaoaSolver.Hadamards | quantum/qaoa_solver.py:25 | one Hadamard per qubit |
| QaoaSolver.Mixer | quantum/qaoa_solver.py:42-43 | one RX(2β) per qubit |
| QaoaSolver.AppendDiagonal | quantum/qaoa_solver.py:29-31 | the loop appends exactly the diagonal layer |
| QaoaSolver.DiagonalLayerExact | quantum/qaoa_solver.py:29-31 | the diagonal layer has an RZ(2γ·Qᵢᵢ) on qubit i exactly when Qᵢᵢ ≠ 0, in increasing qubit order |
| QaoaSolver.AppendPairColumn | quantum/qaoa_solver.py:36-39 | one inner step appends the CX–RZ–CX block of (i, j) exactly when Qᵢⱼ ≠ 0 |
| QaoaSolver.AppendPairRow | quantum/qaoa_solver.py:35-39 | the inner loop appends the blocks of row i |
| QaoaSolver.AppendPairs | quantum/qaoa_solver.py:34-39 | the nested loops append the blocks of every non-zero upper pair |
| QaoaSolver.RowPairsStep | quantum/qaoa_solver.py:35-36 | column j adds (i, j) to row i's pairs exactly when Qᵢⱼ ≠ 0 |
| QaoaSolver.EntangleRowStep | quantum/qaoa_solver.py:36-39 | column j adds a block to row i's gates exactly when Qᵢⱼ ≠ 0 |
| QaoaSolver.AppendMixer | quantum/qaoa_solver.py:42-43 | the loop appends the mixer layer |
| QaoaSolver.BuildQaoaCircuit | quantum/qaoa_solver.py:9-45 | the built gate list is the circuit: Hadamards, diagonal layer, pair blocks, then mixer |
| QaoaSolver.Entangle | quantum/qaoa_solver.py:37-39 | three gates per pair |
| QaoaSolver.EntangleAppend | quantum/qaoa_solver.py:37-39 | the gates of one more pair come after the others |
| QaoaSolver.EntangleConcat | quantum/qaoa_solver.py:34-39 | the gates of two pair lists are those of each, in order |
| QaoaSolver.EntangleBlocks | quantum/qaoa_solver.py:37-39 | gates 3t to 3t+2 are CX, RZ(2γ·Qᵢⱼ) on j, CX for pair t |
| QaoaSolver.RowPairsBounds | quantum/qaoa_solver.py:35 | every pair of row i has the form (i, j) with i < j |
| QaoaSolver.RowPairsNonZero | quantum/qaoa_solver.py:36 | every pair of row i has a non-zero entry |
| QaoaSolver.RowPairsIndex | quantum/qaoa_solver.py:35-36 | every non-zero (i, j) with i < j is among row i's pairs |
| QaoaSolver.RowPairsIncreasing | quantum/qaoa_solver.py:35 | row i's pairs are in increasing order |
| QaoaSolver.UpperPairsBounds | quantum/qaoa_solver.py:34-35 | every visited pair lies strictly above the diagonal, within the matrix |
| QaoaSolver.UpperPairsNonZero | quantum/qaoa_solver.py:36 | every visited pair has a non-zero entry |
| QaoaSolver.UpperPairsIndex | quantum/qaoa_solver.py:34-36 | every non-zero upper entry is visited |
| QaoaSolver.UpperPairsComplete | quantum/qaoa_solver.py:34-36 | every non-zero upper entry is visited (set form) |
| QaoaSolver.UpperPairsIncreasing | quantum/qaoa_solver.py:34-35 | the pairs are visited in lexicographic order |
| QaoaSolver.UpperPairsExact | quantum/qaoa_solver.py:34-39 | the pairs are exactly the non-zero upper entries, in row-major order |
| QaoaSolver.QaoaCircuit | quantum/qaoa_solver.py:9-45 | the circuit has 2n gates plus one per non-zero diagonal entry plus three per non-zero upper entry; it starts with H on qubits 0..n−1 and ends with RX(2β) on qubits 0..n−1 |
| QaoaSolver.CircuitPairBlocks | quantum/qaoa_solver.py:34-39 | the t-th pair block sits right after the Hadamards and the diagonal layer |
| QaoaSolver.DiagonalCount | quantum/qaoa_solver.py:29-31 | one diagonal gate per non-zero diagonal entry |
| QaoaSolver.PairCount | quantum/qaoa_solver.py:34-39 | one block per non-zero upper entry |
| QaoaSolver.GateCount | quantum/qaoa_solver.py:9-45 | the gate count is 2n + (non-zero diagonal) + 3 × (non-zero upper entries) |
| QaoaSolver.QubitsInRange | quantum/qaoa_solver.py:22-43 | every gate acts only on qubits below n |
| QaoaSolver.EntangleQubitsInRange | quantum/qaoa_solver.py:37-39 | the CX–RZ–CX blocks of pairs below n act only on qubits below n |
| QaoaSolver.DiagonalLayerUpper | quantum/qaoa_solver.py:29-31 | the diagonal layer depends only on the diagonal |
| QaoaSolver.RowPairsUpper | quantum/qaoa_solver.py:35-36 | a row's pairs depend only on the upper triangle |
| QaoaSolver.UpperPairsUpper | quantum/qaoa_solver.py:34-36 | the visited pairs depend only on the upper triangle |
| QaoaSolver.EntangleUpper | quantum/qaoa_solver.py:37-39 | the pair gates depend only on the upper triangle |
| QaoaSolver.IgnoresLowerTriangle | quantum/qaoa_solver.py:13 | two matrices with the same upper triangle give the same circuit |
| QaoaSolver.ComputeEnergy | quantum/qaoa_solver.py:48-54 | the all-'0' measurement has energy 0 |
| QaoaSolver.EnergyOfEncoded | quantum/qaoa_solver.py:53-54 | the measurement that encodes a selection x (in Qiskit's reversed order) has energy exactly xᵀQx |
| QaoaSolver.EnergyOfMeasurement | quantum/qaoa_solver.py:48-54 | for a QUBO of the impacts and costs, a bitstring's energy is the penalised objective of the roads it selects |
| QaoaSolver.SelectMinEnergy | quantum/qaoa_solver.py:76-83 | with no counts: `None` and +∞; otherwise the first bitstring of minimum energy and its energy, which no count's energy undercuts |
| PlanBuilder.Positions | quantum/plan_builder.py:19-20 | every listed position holds the given bit |
| PlanBuilder.PositionsExact | quantum/plan_builder.py:19-20 | every position holding the bit is listed, in increasing order |
| PlanBuilder.PositionsCount | quantum/plan_builder.py:19-20 | the selected and deferred positions together number n |
| PlanBuilder.GenerateRecoveryPlan | quantum/plan_builder.py:3-35 | each road's `selected` flag is the decoded bit for that road |
| PlanBuilder.PlanPartition | quantum/plan_builder.py:19-33 | the selected and deferred ids are the ids of the 1 and 0 positions, in table order; the two counts add up to n |
| PlanBuilder.SumKnownIsSelectedTotal | quantum/plan_builder.py:28-29 | summing the known values over the selected positions gives the selected total |
| PlanBuilder.TotalCostIsSelectedTotal | quantum/plan_builder.py:28 | the plan's total cost is the total cost of the selected roads |
| PlanBuilder.TotalImpactIsSelectedTotal | quantum/plan_builder.py:29 | the plan's total impact is the total impact of the selected roads |
| PlanBuilder.PopulationServedIsSelectedTotal | quantum/plan_builder.py:30 | the plan's population served is the total population of the selected roads |
| PlanBuilder.NoPositions | quantum/plan_builder.py:19-20 | with no bit set, nothing is selected and every position is deferred |
| PlanBuilder.AllZeroPlan | quantum/plan_builder.py:13-33 | an all-'0' bitstring defers every road, with zero cost, impact and population served |
| QuantumPipeline.SelectedTotalRescaled | quantum/qubo.py:23 | the total of the selected rescaled costs is the total of the original costs divided by the maximum cost |
| QuantumPipeline.DecodedPlanEnergy | app.py:446-459 | a bitstring's energy equals the objective of the plan it decodes to, computed from that plan's totals |
| QuantumPipeline.ChosenPlanIsBest | app.py:446-459 | the plan of the bitstring chosen by minimum energy has an objective no greater than that of every measured bitstring's plan |
| CityPlanner.ParseType | app.py:243-252 | a type name is recognised only if it is one of the eight `DEF_COL` keys |
| CityPlanner.ParseTypeName | app.py:243-252 | every project type's name parses back to that type |
| CityPlanner.UnitCost | app.py:254-263 | unit costs lie between 10 and 40 |
| CityPlanner.UnitTime | app.py:254-263 | unit times lie between 8 and 16 weeks |
| CityPlanner.PhaseAllowedTable | app.py:279-283 | water and sanitation is allowed in every phase; power and public spaces only in phase 3; housing and hospitals only in phases 1–2; schools, roads and infrastructure only in phases 2–3 |
| CityPlanner.DeriveZoneRow | app.py:220-241 | the need score and every deficit are clipped into [0, 1] |
| CityPlanner.DeriveZoneRows | app.py:220-241 | one derived row per zone, in order |
| CityPlanner.DerivedRowsInUnit | app.py:220-241 | with non-negative populations, each population weight lies in [0, 1], and so does every candidate's impact |
| CityPlanner.NormDivisor | app.py:226-228 | the divisor `max(1, max(s))` is at least 1 |
| CityPlanner.NormSeries | app.py:226-228 | every normalised value lies in [0, 1] |
| CityPlanner.NormSeriesScales | app.py:226-228 | for non-negative values, each value is divided by the divisor, and a value equal to the divisor maps to 1 |
| CityPlanner.PlanVariantWeights | app.py:268-273 | the three weights are in [0, 1] and sum to 1; Max Impact weighs impact above fairness; Fairness First weighs them equally |
| CityPlanner.BuildCandidates | app.py:298-316 | the loop builds the candidate list, zone by zone and type by type |
| CityPlanner.ZoneCandidatesExact | app.py:304-316 | membership in both directions: every candidate of a zone is that zone's candidate for a recognised type in `types`, and every recognised type in `types` has one; a type listed twice yields two equal candidates, as the loop does |
| CityPlanner.AllCandidatesExact | app.py:298-316 | every candidate comes from some zone and recognised type, and every such pair has a candidate |
| CityPlanner.CandidateScores | app.py:312-314 | speed is 1/unit time; with inputs in [0, 1], the impact lies in [0, 1] |
| CityPlanner.ImpactInUnit | app.py:312 | need × deficit × (0.55 + 0.45·popW) stays in [0, 1] |
| CityPlanner.MakeCandidate | app.py:307-316 | the candidate keeps the zone, type, unit cost, unit time, deficit and need; its base score is wI·impact + wS·speed; its speed lies in (0, 1]; non-negative need, deficit and population weight give a non-negative impact |
| CityPlanner.InsertByScore | app.py:318 | insertion adds exactly one element |
| CityPlanner.SortByScore | app.py:318 | sorting is a permutation |
| CityPlanner.InsertBounded | app.py:318 | insertion keeps an upper bound on the scores |
| CityPlanner.InsertKeepsOrder | app.py:318 | insertion keeps the descending order |
| CityPlanner.SortByScoreCorrect | app.py:318 | the sorted list is in descending score order, is a permutation of the input, and keeps the input order among candidates of equal score |
| CityPlanner.InsertByScoreStable | app.py:318 | inserting c into a sorted list puts it after every element of c's score, and keeps the others' order |
| CityPlanner.WithScoreConcat | app.py:318 | the candidates of one score in a concatenation are those of each part, in order |
| CityPlanner.SortByScoreStable | app.py:318 | for every score, the candidates with that score appear in the sorted list in their input order (Python's sort is stable) |
| GreedyPlanner.PhaseSplit | app.py:285 | each phase share lies in (0, 1) |
| GreedyPlanner.CoverageRatio | app.py:288 | each coverage ratio lies in (0, 1] |
| GreedyPlanner.CoverTarget | app.py:332 | the coverage target lies between 0 and the number of zones |
| GreedyPlanner.PhaseBudget | app.py:323 | `int(total × share)` truncates toward zero: for a non-negative total it is the largest integer not above total × share, for a negative total the smallest not below it |
| GreedyPlanner.PhaseBudgetsWithinTotal | app.py:323 | the truncated phase budgets add up to at most a non-negative total; each is non-negative then, and none is positive when the total is not |
| GreedyPlanner.ScoreAction | app.py:359-379 | the action keeps the candidate's phase, zone, type, cost, time, impact and speed; its boost is wF/(1 + n) and its penalty 0.22·n + 0.35·max(0, n − 1) for n earlier actions in the zone; its final score is base + boost − penalty |
| GreedyPlanner.RepeatedZoneScoresLower | app.py:359-363 | a fresh zone gets the full fairness boost and no penalty; each earlier action in the zone lowers the boost, raises the penalty and strictly lowers the final score |
| GreedyPlanner.CountZone | app.py:294-295 | a zone's count never exceeds the number of actions |
| GreedyPlanner.Take | app.py:365-385 | taking a candidate keeps the counters' key sets |
| GreedyPlanner.TakeKeepsCounts | app.py:381-383 | after a take, the per-phase and total zone counters still count the actions, and the per-phase cap holds |
| GreedyPlanner.TakeKeepsPairs | app.py:347-348 | after a take, `zone_type_used_total` is still the set of (zone, type) pairs taken, none twice; `covered` is the set of zones of the phase |
| GreedyPlanner.TakeKeepsFits | app.py:338-357 | every action of the phase still passes the allowed-type, cost, time-slack and deficit-floor tests |
| GreedyPlanner.TakeKeepsConsistent | app.py:365-385 | a take of an eligible candidate keeps every counter consistent with the actions |
| GreedyPlanner.ScannedStep | app.py:337-385 | taking candidate i extends the phase by its action, pays its cost and, in the coverage pass, adds a new zone |
| GreedyPlanner.ScannedStepExtends | app.py:365-385 | the new actions extend the old ones and the budget pays exactly for them |
| GreedyPlanner.ScannedStepIndices | app.py:337 | the actions come from the scanned candidates, in increasing index order |
| GreedyPlanner.ScannedStepCoverage | app.py:353-354 | in the coverage pass, each new action is in a zone not covered before |
| GreedyPlanner.Scan | app.py:337-388 | a scan keeps the counters' key sets and every zone count non-negative |
| GreedyPlanner.EligibleEarlier | app.py:338-357 | a candidate that passes every test after more was taken and spent also passed them before |
| GreedyPlanner.ScanGrows | app.py:365-385 | with non-negative costs a scan only lowers the budget and only adds used pairs, covered zones and per-phase counts |
| GreedyPlanner.StaysIneligible | app.py:338-357 | a candidate skipped earlier in a scan is still skipped at its end |
| GreedyPlanner.NoneAffordable | app.py:338-343 | with no budget left, no candidate of positive cost passes the tests |
| GreedyPlanner.ScanMaximal | app.py:337-388 | unless a coverage pass stopped at its target, no candidate from the scan position on passes every test in the final state: the pass is greedy to the end |
| GreedyPlanner.ScanDone | app.py:337-339 | a scan with no candidate or no budget left changes nothing |
| GreedyPlanner.ScanStep | app.py:337-388 | one scan step takes candidate i exactly when it is eligible, and stops right after a take that reaches the coverage target |
| GreedyPlanner.Visit | app.py:337-385 | candidate i is taken exactly when it passes every test; a take is `Take`, a skip changes nothing; consistency and the scan invariant are kept |
| GreedyPlanner.Advance | app.py:337-388 | one loop step leaves `Scan` from the new state equal to `Scan` from the old one, and reports the coverage-target break |
| GreedyPlanner.TryPick | app.py:334-388 | the pass ends in exactly the state `Scan` gives from the first candidate; it keeps the counters consistent; its actions come from candidates in scan order and the budget pays for them; a coverage pass starting below the target ends at or below it; with no budget nothing changes |
| GreedyPlanner.TwoPasses | app.py:390-391 | after both passes, the remaining budget is the phase budget minus the cost of the phase's actions, and is non-negative if any action was taken |
| GreedyPlanner.PassesKeepCounters | app.py:390-399 | the counters carried to the next phase agree with the plan so far |
| GreedyPlanner.FreshPhase | app.py:327-331 | resetting the per-phase counts makes the counters consistent for a new phase |
| GreedyPlanner.Passes | app.py:321-391 | a phase's two passes keep the counters' key sets and non-negative zone counts |
| GreedyPlanner.PassesMaximal | app.py:390-391 | after the fill pass no candidate of positive cost passes every test any more |
| GreedyPlanner.RunPhase | app.py:321-399 | the phase is exactly the coverage pass then the fill pass from the phase budget and reset per-phase counts (`Passes`), with its name, budget, time and remaining budget; its actions pass every test and the per-zone cap; the carried counters agree with the plan |
| GreedyPlanner.SortedCandidates | app.py:298-318 | the candidates in descending score order, a permutation of all candidates that keeps the build order among equal scores, each with its type's unit cost and one of the table's zones |
| GreedyPlanner.PhaseWithinBudget | app.py:323-325 | the plan after phase p spends at most the budgets of the first p+1 phases |
| GreedyPlanner.PhasesGrow | app.py:393-401 | appending a phase keeps every phase valid and appends its actions to the flattened plan |
| GreedyPlanner.FlattenThree | app.py:401 | the plan is the actions of the three phases, in order |
| GreedyPlanner.PlanPhases | app.py:320-399 | n phases; the carried counters are keyed by the table's zones and never negative |
| GreedyPlanner.GreedyPhases | app.py:275-402 | `generate_plan` returns three phases |
| GreedyPlanner.PlanStep | app.py:321-399 | one iteration of the phase loop moves the state from `PlanPhases` of p phases to that of p + 1, keeping every phase valid and the spending within the budgets so far |
| GreedyPlanner.GeneratePlan | app.py:275-402 | the phases are exactly `GreedyPhases` of the inputs; three valid phases; no (zone, type) pair twice; a non-negative total budget is never exceeded; nothing is planned without a budget |
| GreedyPlanner.CountZoneAppend | app.py:382 | appending an action raises its zone's count by one |
| GreedyPlanner.SumCostConcat | app.py:385 | the cost of two action lists is the sum of their costs |
| PlanMetrics.DistinctZones | app.py:415 | the distinct zones, without repeats, are exactly the plan's zones |
| PlanMetrics.ZoneCounts | app.py:419 | one count per distinct zone |
| PlanMetrics.SquaredDeviations | app.py:423 | squared deviations are non-negative |
| PlanMetrics.Fairness | app.py:420-424 | the fairness index lies in [0, 1] and is 1 for at most one zone |
| PlanMetrics.ComputeMetrics | app.py:404-434 | an empty plan gives all zeros; the fairness index lies in [0, 1] |
| PlanMetrics.ZonesCoveredCount | app.py:415 | zones covered is the number of distinct zones, at least 1 for a non-empty plan |
| PlanMetrics.BudgetUsedWithinBudget | app.py:416-417 | a plan within a non-negative budget uses between 0 and 100 percent of it |
| PlanMetrics.AvgTimeBounds | app.py:426 | the average time lies between the shortest and the longest time |
| PlanMetrics.VarianceZero | app.py:423 | the variance is zero exactly when every count equals the mean |
| PlanMetrics.MeanOfConstant | app.py:423 | the mean of equal counts is that count |
| PlanMetrics.FairnessOneIffBalanced | app.py:419-424 | with more than one zone, fairness is 1 exactly when every zone holds the same number of actions |

## Left out

- Floating point: all arithmetic is on exact reals. The `round` calls in the plan summary, in the recorded action scores and in the metrics are not modelled.
- Data loading (`quantum/data_loader.py`), the map view (`visualization/map_view.py`), the Streamlit interface and the map stage of `run_quantum_roads_pipeline` are not part of this model.
- Qiskit is not modelled: the symbolic parameters, transpilation and the simulator. γ and β appear only as angle coefficients. The measured `counts` are an input of `SelectMinEnergy`, and their shot numbers are ignored, as the source ignores them.
- `PlanMetrics.ComputeMetrics`: `np.std` is the parameter `sd`, tied to the counts by sd² = variance. The square root itself is not modelled.
- `CityPlanner.DeriveZoneRows`: the zone table's base counts, targets and shortages (app.py:160-176) are inputs here, not computed.
- `FeatureEngineering.HospitalScore` requires 1 + distance ≠ 0. Python would raise or give ±inf there, which is not modelled.
- `Qubo.BuildQubo` and `QuantumPipeline`: a maximum cost of 0, which gives NaN in numpy, is excluded by `requires`.
- `Qubo.BuildQubo` and `QuantumPipeline`: the QUBO stage takes known impacts and costs only. In the source, an unknown land use or soil makes an impact or cost NaN. That NaN spreads through `cost.max()` and the matrix into every energy, so no bitstring is ever chosen, and decoding the missing choice raises a `TypeError`. This path is not modelled.
- `Qubo.BuildQubo`: an empty road table is excluded by `requires`. There numpy's `cost.max()` raises a `ValueError`, which is not modelled.
- `PlanBuilder.GenerateRecoveryPlan`: a bitstring whose length differs from the table, which pandas rejects, is excluded by `requires`.
- `GreedyPlanner.GeneratePlan`: an unknown zone in the zone counters (a `KeyError`) cannot arise, because the counters are keyed by the table's zones. The `MAX_ACTIONS_PER_ZONE_PER_PHASE` list is the constant 2 for every phase, as in the source.
- `QaoaSolver.Entry` reads 0 outside the matrix. No gate ever reads there (`QaoaSolver.UpperPairsBounds`).
- `QaoaSolver.SelectMinEnergy` compares energies as exact reals. Ties keep the first bitstring, as the strict `<` in the source does.
