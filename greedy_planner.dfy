/**
 * The phased greedy planner of `generate_plan`: three phases with budget and time
 * shares, a coverage pass that takes at most one action per zone until enough zones
 * are covered, then a fill pass, under per-zone and per-(zone, type) limits.
 */
module GreedyPlanner {
  import opened Numeric
  import opened CityPlanner

  const MaxActionsPerZonePerPhase: int := 2
  const MaxRepeatSameTypeInZoneTotal: int := 1
  const ZoneRepeatPenalty: real := 0.22
  const DiminishingReturns: real := 0.35
  /** Phase 1 only takes actions whose deficit reaches this floor. */
  const EmergencyDeficitFloor: real := 0.35
  /** An action may run this many weeks past its phase's time share. */
  const TimeSlack: int := 8

  /** `phase_split`: the share of budget and horizon of each phase. */
  function PhaseSplit(p: nat): (r: real)
    requires p < 3
    ensures 0.0 < r < 1.0
  {
    if p == 0 then 0.45 else if p == 1 then 0.35 else 0.20
  }

  /** `MIN_ZONE_COVERAGE_RATIO`. */
  function CoverageRatio(p: nat): (r: real)
    requires p < 3
    ensures 0.0 < r <= 1.0
  {
    if p == 0 then 0.65 else if p == 1 then 0.85 else 1.00
  }

  function PhaseName(p: nat): string
    requires p < 3
  {
    if p == 0 then "Phase 1 \U{2014} Emergency Recovery"
    else if p == 1 then "Phase 2 \U{2014} Core Services"
    else "Phase 3 \U{2014} Long-Term Urban Recovery"
  }

  /** `int(total_budget_m * p_ratio)`. */
  function PhaseBudget(total: int, p: nat): (r: int)
    requires p < 3
    ensures total >= 0 ==> 0 <= r <= total && r as real <= total as real * PhaseSplit(p) < r as real + 1.0
    ensures total <= 0 ==> total <= r <= 0 && r as real - 1.0 < total as real * PhaseSplit(p) <= r as real
  {
    var x := total as real * PhaseSplit(p);
    assert total >= 0 ==> 0.0 <= x <= total as real;
    assert total <= 0 ==> total as real <= x <= 0.0;
    Trunc(x)
  }

  /** `int(horizon_m * p_ratio)`. */
  function PhaseTime(horizon: int, p: nat): int
    requires p < 3
  {
    Trunc(horizon as real * PhaseSplit(p))
  }

  /** `int(np.ceil(len(dfp) * MIN_ZONE_COVERAGE_RATIO[p]))`. */
  function CoverTarget(zoneCount: nat, p: nat): (r: int)
    requires p < 3
    ensures 0 <= r <= zoneCount
  {
    Ceil(zoneCount as real * CoverageRatio(p))
  }

  /** One planned action (the rounding of the displayed scores is not modelled). */
  datatype Action = Action(
    phase: string,
    zone: string,
    kind: ProjectType,
    cost: int,
    time: int,
    need: real,
    deficit: real,
    impact: real,
    speed: real,
    fairnessBoost: real,
    zonePenalty: real,
    finalScore: real)

  datatype Phase = Phase(name: string, budget: int, time: int, actions: seq<Action>, remaining: int)

  datatype PassMode = Coverage | Fill

  /** The action recorded for candidate `c` when its zone already holds `zoneCount` actions. */
  function ScoreAction(c: Candidate, p: nat, zoneCount: int, wF: real): (a: Action)
    requires p < 3 && zoneCount >= 0
    ensures a.phase == PhaseName(p) && a.zone == c.zone && a.kind == c.kind
    ensures a.cost == c.cost && a.time == c.time && a.impact == c.impact && a.speed == c.speed
    ensures a.finalScore == c.baseScore + a.fairnessBoost - a.zonePenalty
    ensures a.fairnessBoost * (1 + zoneCount) as real == wF
    ensures zoneCount == 0 ==> a.fairnessBoost == wF && a.zonePenalty == 0.0
    ensures zoneCount >= 1 ==> a.zonePenalty == ZoneRepeatPenalty * zoneCount as real + DiminishingReturns * (zoneCount - 1) as real
    ensures a.zonePenalty >= 0.0
  {
    var boost := wF * (1.0 / (1 + zoneCount) as real);
    var repeat := ZoneRepeatPenalty * zoneCount as real;
    var dim := DiminishingReturns * (if zoneCount - 1 > 0 then zoneCount - 1 else 0) as real;
    Action(PhaseName(p), c.zone, c.kind, c.cost, c.time, c.need, c.deficit, c.impact, c.speed,
           boost, repeat + dim, c.baseScore + boost - repeat - dim)
  }

  /** Helper: 1/(n+2) < 1/(n+1) for n ≥ 0. */
  lemma ReciprocalDecreasing(n: int)
    requires n >= 0
    ensures 1.0 / (n + 2) as real < 1.0 / (n + 1) as real
  {
    var a, b := (n + 1) as real, (n + 2) as real;
    var x, y := 1.0 / a, 1.0 / b;
    assert x * a == 1.0 && y * b == 1.0;
    assert y * a < y * b;
  }

  /**
   * A zone's first action gets the whole fairness weight and no penalty; each further
   * action in the same zone gets a smaller boost and a larger penalty, so (with a
   * non-negative fairness weight) it scores strictly lower.
   */
  lemma RepeatedZoneScoresLower(c: Candidate, p: nat, n: int, wF: real)
    requires p < 3 && n >= 0 && wF >= 0.0
    ensures ScoreAction(c, p, 0, wF).fairnessBoost == wF
    ensures ScoreAction(c, p, 0, wF).zonePenalty == 0.0
    ensures ScoreAction(c, p, 0, wF).finalScore == c.baseScore + wF
    ensures ScoreAction(c, p, n + 1, wF).fairnessBoost <= ScoreAction(c, p, n, wF).fairnessBoost
    ensures ScoreAction(c, p, n + 1, wF).zonePenalty > ScoreAction(c, p, n, wF).zonePenalty
    ensures ScoreAction(c, p, n + 1, wF).finalScore < ScoreAction(c, p, n, wF).finalScore
  {
    ReciprocalDecreasing(n);
    var x, y := 1.0 / (n + 1) as real, 1.0 / (n + 2) as real;
    assert wF * y <= wF * x;
  }

  /** How many actions of `acts` are in zone `z`. */
  function CountZone(acts: seq<Action>, z: string): (r: nat)
    ensures r <= |acts|
  {
    if acts == [] then 0
    else CountZone(acts[..|acts| - 1], z) + (if acts[|acts| - 1].zone == z then 1 else 0)
  }

  /** Total estimated cost of a list of actions. */
  function SumCost(acts: seq<Action>): int
  {
    if acts == [] then 0 else SumCost(acts[..|acts| - 1]) + acts[|acts| - 1].cost
  }

  function ZonesOf(acts: seq<Action>): set<string>
  {
    set k | 0 <= k < |acts| :: acts[k].zone
  }

  /** `zone_type_used_total` as a function of the actions taken. */
  function PairSet(acts: seq<Action>): set<(string, ProjectType)>
  {
    set k | 0 <= k < |acts| :: (acts[k].zone, acts[k].kind)
  }

  /** No (zone, project type) pair occurs twice. */
  predicate PairsDistinct(acts: seq<Action>)
  {
    forall a, b :: 0 <= a < b < |acts| ==> (acts[a].zone, acts[a].kind) != (acts[b].zone, acts[b].kind)
  }

  /** What every action taken in phase `p` satisfies. */
  predicate ActionFits(a: Action, p: nat, phaseTime: int, types: seq<string>)
  {
    && p < 3
    && a.phase == PhaseName(p)
    && PhaseAllowed(p, a.kind)
    && TypeName(a.kind) in types
    && a.cost == UnitCost(a.kind)
    && a.time <= phaseTime + TimeSlack
    && (p == 0 ==> a.deficit >= EmergencyDeficitFloor)
  }

  /** The action was recorded from this candidate. */
  predicate FromCandidate(a: Action, c: Candidate)
  {
    && a.zone == c.zone && a.kind == c.kind && a.cost == c.cost && a.time == c.time
    && a.need == c.need && a.deficit == c.deficit && a.impact == c.impact && a.speed == c.speed
  }

  /** The variables `try_pick` reads and updates. */
  datatype PickState = PickState(
    budget: int,
    picks: seq<Action>,
    covered: set<string>,
    zoneTotal: map<string, int>,
    zonePhase: map<string, int>,
    used: set<(string, ProjectType)>)

  /** Every `continue` test of `try_pick` passes for candidate `c`. */
  predicate Eligible(c: Candidate, st: PickState, p: nat, phaseTime: int, types: seq<string>, mode: PassMode)
  {
    && PhaseAllowed(p, c.kind) && TypeName(c.kind) in types
    && c.cost <= st.budget
    && c.time <= phaseTime + TimeSlack
    && !((c.zone, c.kind) in st.used && MaxRepeatSameTypeInZoneTotal <= 1)
    && c.zone in st.zonePhase && st.zonePhase[c.zone] < MaxActionsPerZonePerPhase
    && !(mode == Coverage && c.zone in st.covered)
    && !(p == 0 && c.deficit < EmergencyDeficitFloor)
  }

  /** Taking candidate `c`: record its action and update every counter. */
  function Take(st: PickState, c: Candidate, p: nat, wF: real): (r: PickState)
    requires p < 3 && c.zone in st.zoneTotal && c.zone in st.zonePhase && st.zoneTotal[c.zone] >= 0
    ensures r.zoneTotal.Keys == st.zoneTotal.Keys && r.zonePhase.Keys == st.zonePhase.Keys
  {
    var n := st.zoneTotal[c.zone];
    PickState(
      st.budget - c.cost,
      st.picks + [ScoreAction(c, p, n, wF)],
      st.covered + {c.zone},
      st.zoneTotal[c.zone := n + 1],
      st.zonePhase[c.zone := st.zonePhase[c.zone] + 1],
      st.used + {(c.zone, c.kind)})
  }

  /**
   * The counters agree with the actions: `prior` are the actions of earlier phases,
   * `st.picks` those of the current phase.
   */
  ghost predicate Consistent(st: PickState, prior: seq<Action>, cands: seq<Candidate>, p: nat, phaseTime: int, types: seq<string>)
  {
    && (forall i :: 0 <= i < |cands| ==> cands[i].zone in st.zoneTotal && cands[i].zone in st.zonePhase)
    && (forall z :: z in st.zonePhase ==> st.zonePhase[z] == CountZone(st.picks, z) <= MaxActionsPerZonePerPhase)
    && (forall z :: z in st.zoneTotal ==> st.zoneTotal[z] == CountZone(prior + st.picks, z))
    && st.used == PairSet(prior + st.picks)
    && PairsDistinct(prior + st.picks)
    && st.covered == ZonesOf(st.picks)
    && (forall k :: 0 <= k < |st.picks| ==> ActionFits(st.picks[k], p, phaseTime, types) && st.picks[k].zone in st.zonePhase)
  }

  lemma CountZoneAppend(acts: seq<Action>, a: Action, z: string)
    ensures CountZone(acts + [a], z) == CountZone(acts, z) + (if a.zone == z then 1 else 0)
  {
    assert (acts + [a])[..|acts|] == acts;
  }

  lemma SumCostAppend(acts: seq<Action>, a: Action)
    ensures SumCost(acts + [a]) == SumCost(acts) + a.cost
  {
    assert (acts + [a])[..|acts|] == acts;
  }

  /** The cost of two lists of actions is the sum of their costs. */
  lemma {:induction false} SumCostConcat(a: seq<Action>, b: seq<Action>)
    ensures SumCost(a + b) == SumCost(a) + SumCost(b)
  {
    if b == [] {
      assert a + b == a;
    } else {
      var init := b[..|b| - 1];
      SumCostConcat(a, init);
      assert a + b == (a + init) + [b[|b| - 1]];
      SumCostAppend(a + init, b[|b| - 1]);
    }
  }

  lemma PairSetAppend(acts: seq<Action>, a: Action)
    ensures PairSet(acts + [a]) == PairSet(acts) + {(a.zone, a.kind)}
    ensures ZonesOf(acts + [a]) == ZonesOf(acts) + {a.zone}
  {
    var s := acts + [a];
    assert s[|acts|] == a;
    forall x | x in PairSet(acts) ensures x in PairSet(s) {
      var k :| 0 <= k < |acts| && x == (acts[k].zone, acts[k].kind);
      assert s[k] == acts[k];
    }
    forall x | x in ZonesOf(acts) ensures x in ZonesOf(s) {
      var k :| 0 <= k < |acts| && x == acts[k].zone;
      assert s[k] == acts[k];
    }
  }

  /** Taking an eligible candidate keeps every counter in agreement with the actions. */
  lemma TakeKeepsConsistent(st: PickState, c: Candidate, p: nat, phaseTime: int, types: seq<string>,
                            mode: PassMode, wF: real, prior: seq<Action>, cands: seq<Candidate>)
    requires p < 3
    requires Consistent(st, prior, cands, p, phaseTime, types)
    requires Eligible(c, st, p, phaseTime, types, mode)
    requires c.cost == UnitCost(c.kind) && c.zone in st.zoneTotal
    ensures Consistent(Take(st, c, p, wF), prior, cands, p, phaseTime, types)
  {
    TakeKeepsCounts(st, c, p, phaseTime, types, mode, wF, prior, cands);
    TakeKeepsPairs(st, c, p, phaseTime, types, mode, wF, prior, cands);
    TakeKeepsFits(st, c, p, phaseTime, types, mode, wF, prior, cands);
  }

  /** Helper: the per-zone counters still count the actions. */
  lemma TakeKeepsCounts(st: PickState, c: Candidate, p: nat, phaseTime: int, types: seq<string>,
                        mode: PassMode, wF: real, prior: seq<Action>, cands: seq<Candidate>)
    requires p < 3
    requires Consistent(st, prior, cands, p, phaseTime, types)
    requires Eligible(c, st, p, phaseTime, types, mode)
    requires c.zone in st.zoneTotal
    ensures var next := Take(st, c, p, wF);
      && (forall z :: z in next.zonePhase ==> next.zonePhase[z] == CountZone(next.picks, z) <= MaxActionsPerZonePerPhase)
      && (forall z :: z in next.zoneTotal ==> next.zoneTotal[z] == CountZone(prior + next.picks, z))
  {
    var next := Take(st, c, p, wF);
    var a := ScoreAction(c, p, st.zoneTotal[c.zone], wF);
    var before := prior + st.picks;
    assert next.picks == st.picks + [a];
    assert prior + next.picks == before + [a];
    forall z | z in next.zonePhase ensures next.zonePhase[z] == CountZone(next.picks, z) <= MaxActionsPerZonePerPhase {
      CountZoneAppend(st.picks, a, z);
    }
    forall z | z in next.zoneTotal ensures next.zoneTotal[z] == CountZone(prior + next.picks, z) {
      CountZoneAppend(before, a, z);
    }
  }

  /** Helper: the used pairs and covered zones still match the actions, and no pair repeats. */
  lemma TakeKeepsPairs(st: PickState, c: Candidate, p: nat, phaseTime: int, types: seq<string>,
                       mode: PassMode, wF: real, prior: seq<Action>, cands: seq<Candidate>)
    requires p < 3
    requires Consistent(st, prior, cands, p, phaseTime, types)
    requires Eligible(c, st, p, phaseTime, types, mode)
    requires c.zone in st.zoneTotal
    ensures var next := Take(st, c, p, wF);
      && next.used == PairSet(prior + next.picks)
      && PairsDistinct(prior + next.picks)
      && next.covered == ZonesOf(next.picks)
  {
    var next := Take(st, c, p, wF);
    var a := ScoreAction(c, p, st.zoneTotal[c.zone], wF);
    var before := prior + st.picks;
    assert next.picks == st.picks + [a];
    assert prior + next.picks == before + [a];
    PairSetAppend(before, a);
    PairSetAppend(st.picks, a);
    var all := before + [a];
    forall i, j | 0 <= i < j < |all| ensures (all[i].zone, all[i].kind) != (all[j].zone, all[j].kind) {
      if j == |before| {
        assert all[i] == before[i];
        assert (before[i].zone, before[i].kind) in PairSet(before);
      } else {
        assert all[i] == before[i] && all[j] == before[j];
      }
    }
  }

  /** Helper: every action of the phase still fits the phase. */
  lemma TakeKeepsFits(st: PickState, c: Candidate, p: nat, phaseTime: int, types: seq<string>,
                      mode: PassMode, wF: real, prior: seq<Action>, cands: seq<Candidate>)
    requires p < 3
    requires Consistent(st, prior, cands, p, phaseTime, types)
    requires Eligible(c, st, p, phaseTime, types, mode)
    requires c.cost == UnitCost(c.kind) && c.zone in st.zoneTotal
    ensures var next := Take(st, c, p, wF);
      forall k :: 0 <= k < |next.picks| ==> ActionFits(next.picks[k], p, phaseTime, types) && next.picks[k].zone in next.zonePhase
  {
    var next := Take(st, c, p, wF);
    var a := ScoreAction(c, p, st.zoneTotal[c.zone], wF);
    assert next.picks == st.picks + [a];
    forall k | 0 <= k < |next.picks| ensures ActionFits(next.picks[k], p, phaseTime, types) && next.picks[k].zone in next.zonePhase {
      if k < |st.picks| {
        assert next.picks[k] == st.picks[k];
      }
    }
  }

  /** `next` continues `st`: its actions extend st's and the budget pays exactly for the new ones. */
  predicate Extends(st: PickState, next: PickState)
  {
    && |st.picks| <= |next.picks|
    && next.picks[..|st.picks|] == st.picks
    && next.budget == st.budget - SumCost(next.picks[|st.picks|..])
    && next.zoneTotal.Keys == st.zoneTotal.Keys
    && next.zonePhase.Keys == st.zonePhase.Keys
  }

  /**
   * After scanning candidates below `bound`, `next` continues `st` by the actions of the
   * candidates at the increasing indices `scanned`; the budget never went below zero
   * once an action was taken; a coverage pass took each action in a new zone.
   */
  ghost predicate Scanned(st: PickState, next: PickState, scanned: seq<nat>, bound: int, cands: seq<Candidate>, mode: PassMode)
  {
    && Extends(st, next)
    && (|next.picks| > |st.picks| ==> next.budget >= 0)
    && |scanned| == |next.picks| - |st.picks|
    && (forall k :: 0 <= k < |scanned| ==>
          scanned[k] < bound && bound <= |cands| && FromCandidate(next.picks[|st.picks| + k], cands[scanned[k]]))
    && (forall k, l :: 0 <= k < l < |scanned| ==> scanned[k] < scanned[l])
    && st.covered <= next.covered
    && (mode == Coverage ==> forall k :: |st.picks| <= k < |next.picks| ==> next.picks[k].zone !in st.covered)
    && (mode == Coverage ==> |next.covered| == |st.covered| + |scanned|)
  }

  /** Taking candidate `i` after scanning those below it keeps `Scanned`. */
  lemma ScannedStep(st: PickState, mid: PickState, scanned: seq<nat>, i: nat, cands: seq<Candidate>,
                    mode: PassMode, p: nat, phaseTime: int, types: seq<string>, wF: real)
    requires p < 3 && i < |cands|
    requires Scanned(st, mid, scanned, i, cands, mode)
    requires Eligible(cands[i], mid, p, phaseTime, types, mode)
    requires cands[i].zone in mid.zoneTotal && mid.zoneTotal[cands[i].zone] >= 0
    ensures Scanned(st, Take(mid, cands[i], p, wF), scanned + [i], i + 1, cands, mode)
  {
    ScannedStepExtends(st, mid, scanned, i, cands, mode, p, phaseTime, types, wF);
    ScannedStepIndices(st, mid, scanned, i, cands, mode, p, phaseTime, types, wF);
    ScannedStepCoverage(st, mid, scanned, i, cands, mode, p, phaseTime, types, wF);
  }

  /** Helper: the new state still extends the old one and the budget stays non-negative. */
  lemma ScannedStepExtends(st: PickState, mid: PickState, scanned: seq<nat>, i: nat, cands: seq<Candidate>,
                    mode: PassMode, p: nat, phaseTime: int, types: seq<string>, wF: real)
    requires p < 3 && i < |cands|
    requires Scanned(st, mid, scanned, i, cands, mode)
    requires Eligible(cands[i], mid, p, phaseTime, types, mode)
    requires cands[i].zone in mid.zoneTotal && mid.zoneTotal[cands[i].zone] >= 0
    ensures var next := Take(mid, cands[i], p, wF);
      Extends(st, next) && next.budget >= 0
  {
    var c := cands[i];
    var a := ScoreAction(c, p, mid.zoneTotal[c.zone], wF);
    var next := Take(mid, c, p, wF);
    var m := |st.picks|;
    assert next.picks[m..] == mid.picks[m..] + [a];
    SumCostAppend(mid.picks[m..], a);
    assert next.picks[..m] == mid.picks[..m];
  }

  /** Helper: the scanned indices still increase and name the candidates taken. */
  lemma ScannedStepIndices(st: PickState, mid: PickState, scanned: seq<nat>, i: nat, cands: seq<Candidate>,
                    mode: PassMode, p: nat, phaseTime: int, types: seq<string>, wF: real)
    requires p < 3 && i < |cands|
    requires Scanned(st, mid, scanned, i, cands, mode)
    requires Eligible(cands[i], mid, p, phaseTime, types, mode)
    requires cands[i].zone in mid.zoneTotal && mid.zoneTotal[cands[i].zone] >= 0
    ensures var next, sc := Take(mid, cands[i], p, wF), scanned + [i];
      && |sc| == |next.picks| - |st.picks|
      && (forall k :: 0 <= k < |sc| ==>
            sc[k] < i + 1 && i + 1 <= |cands| && FromCandidate(next.picks[|st.picks| + k], cands[sc[k]]))
      && (forall k, l :: 0 <= k < l < |sc| ==> sc[k] < sc[l])
  {
    var c := cands[i];
    var next := Take(mid, c, p, wF);
    var m := |st.picks|;
    var sc := scanned + [i];
    forall k | 0 <= k < |sc| ensures sc[k] < i + 1 && FromCandidate(next.picks[m + k], cands[sc[k]]) {
      if k < |scanned| {
        assert next.picks[m + k] == mid.picks[m + k];
      }
    }
  }

  /** Helper: the covered zones only grow, and a coverage pass adds one new zone. */
  lemma ScannedStepCoverage(st: PickState, mid: PickState, scanned: seq<nat>, i: nat, cands: seq<Candidate>,
                    mode: PassMode, p: nat, phaseTime: int, types: seq<string>, wF: real)
    requires p < 3 && i < |cands|
    requires Scanned(st, mid, scanned, i, cands, mode)
    requires Eligible(cands[i], mid, p, phaseTime, types, mode)
    requires cands[i].zone in mid.zoneTotal && mid.zoneTotal[cands[i].zone] >= 0
    ensures var next := Take(mid, cands[i], p, wF);
      && st.covered <= next.covered
      && (mode == Coverage ==> forall k :: |st.picks| <= k < |next.picks| ==> next.picks[k].zone !in st.covered)
      && (mode == Coverage ==> |next.covered| == |st.covered| + |scanned + [i]|)
  {
    var c := cands[i];
    var next := Take(mid, c, p, wF);
    var m := |st.picks|;
    assert next.covered == mid.covered + {c.zone};
    if mode == Coverage {
      assert c.zone !in mid.covered;
      assert |next.covered| == |mid.covered| + 1;
      forall k | m <= k < |next.picks| ensures next.picks[k].zone !in st.covered {
        if k < |mid.picks| {
          assert next.picks[k] == mid.picks[k];
        }
      }
    }
  }

  /**
   * The state `try_pick` reaches from `st` by scanning the candidates from index `i` on:
   * it stops once the budget is spent, takes every candidate that passes each test, and in
   * the coverage pass stops right after a take that brings the covered zones to `target`.
   */
  function Scan(cands: seq<Candidate>, i: nat, p: nat, phaseTime: int, types: seq<string>, mode: PassMode,
                target: int, wF: real, st: PickState): (r: PickState)
    requires p < 3 && i <= |cands|
    requires forall k :: 0 <= k < |cands| ==> cands[k].zone in st.zoneTotal
    requires forall z :: z in st.zoneTotal ==> st.zoneTotal[z] >= 0
    ensures r.zoneTotal.Keys == st.zoneTotal.Keys && r.zonePhase.Keys == st.zonePhase.Keys
    ensures forall z :: z in r.zoneTotal ==> r.zoneTotal[z] >= 0
    decreases |cands| - i
  {
    if i == |cands| || st.budget <= 0 then st
    else if !Eligible(cands[i], st, p, phaseTime, types, mode) then
      Scan(cands, i + 1, p, phaseTime, types, mode, target, wF, st)
    else
      var next := Take(st, cands[i], p, wF);
      if mode == Coverage && |next.covered| >= target then next
      else Scan(cands, i + 1, p, phaseTime, types, mode, target, wF, next)
  }

  /** `later` follows `st` in a scan: the budget only falls, and the used pairs, the
      covered zones and the per-phase zone counts only grow. */
  predicate Grown(st: PickState, later: PickState)
  {
    && later.budget <= st.budget
    && st.used <= later.used
    && st.covered <= later.covered
    && later.zonePhase.Keys == st.zonePhase.Keys
    && (forall z :: z in st.zonePhase ==> st.zonePhase[z] <= later.zonePhase[z])
  }

  /** A candidate that passes every test in a later state passed them in the earlier one. */
  lemma EligibleEarlier(c: Candidate, st: PickState, later: PickState, p: nat, phaseTime: int,
                        types: seq<string>, mode: PassMode)
    requires Grown(st, later)
    requires Eligible(c, later, p, phaseTime, types, mode)
    ensures Eligible(c, st, p, phaseTime, types, mode)
  {
  }

  /** With costs that are never negative, a scan only moves forward. */
  lemma {:induction false} ScanGrows(cands: seq<Candidate>, i: nat, p: nat, phaseTime: int, types: seq<string>,
                                     mode: PassMode, target: int, wF: real, st: PickState)
    requires p < 3 && i <= |cands|
    requires forall k :: 0 <= k < |cands| ==> cands[k].zone in st.zoneTotal
    requires forall z :: z in st.zoneTotal ==> st.zoneTotal[z] >= 0
    requires forall k :: 0 <= k < |cands| ==> cands[k].cost >= 0
    ensures Grown(st, Scan(cands, i, p, phaseTime, types, mode, target, wF, st))
    decreases |cands| - i
  {
    if i == |cands| || st.budget <= 0 {
    } else if !Eligible(cands[i], st, p, phaseTime, types, mode) {
      ScanGrows(cands, i + 1, p, phaseTime, types, mode, target, wF, st);
    } else {
      var next := Take(st, cands[i], p, wF);
      assert Grown(st, next);
      if !(mode == Coverage && |next.covered| >= target) {
        ScanGrows(cands, i + 1, p, phaseTime, types, mode, target, wF, next);
      }
    }
  }

  /** Helper: a candidate that was not eligible before a scan is not eligible after it. */
  lemma StaysIneligible(c: Candidate, st: PickState, later: PickState, p: nat, phaseTime: int, types: seq<string>,
                        mode: PassMode)
    requires Grown(st, later)
    requires !Eligible(c, st, p, phaseTime, types, mode)
    ensures !Eligible(c, later, p, phaseTime, types, mode)
  {
    if Eligible(c, later, p, phaseTime, types, mode) {
      EligibleEarlier(c, st, later, p, phaseTime, types, mode);
    }
  }

  /** Helper: once the budget is spent, no candidate of positive cost is eligible. */
  lemma NoneAffordable(cands: seq<Candidate>, st: PickState, p: nat, phaseTime: int, types: seq<string>,
                       mode: PassMode)
    requires st.budget <= 0
    requires forall k :: 0 <= k < |cands| ==> cands[k].cost > 0
    ensures forall k :: 0 <= k < |cands| ==> !Eligible(cands[k], st, p, phaseTime, types, mode)
  {
  }

  /**
   * The scan is greedy to the end: unless a coverage pass stopped at its target, no
   * candidate from `i` on still passes every test in the final state. In particular the
   * fill pass leaves nothing that could still be taken.
   */
  lemma {:induction false} ScanMaximal(cands: seq<Candidate>, i: nat, p: nat, phaseTime: int, types: seq<string>,
                                       mode: PassMode, target: int, wF: real, st: PickState)
    requires p < 3 && i <= |cands|
    requires forall k :: 0 <= k < |cands| ==> cands[k].zone in st.zoneTotal
    requires forall z :: z in st.zoneTotal ==> st.zoneTotal[z] >= 0
    requires forall k :: 0 <= k < |cands| ==> cands[k].cost > 0
    ensures var r := Scan(cands, i, p, phaseTime, types, mode, target, wF, st);
      || (mode == Coverage && |r.covered| >= target)
      || (forall k :: i <= k < |cands| ==> !Eligible(cands[k], r, p, phaseTime, types, mode))
    decreases |cands| - i
  {
    if i == |cands| || st.budget <= 0 {
      ScanDone(cands, i, p, phaseTime, types, mode, target, wF, st);
      if st.budget <= 0 {
        NoneAffordable(cands, st, p, phaseTime, types, mode);
      }
    } else {
      var taken := Eligible(cands[i], st, p, phaseTime, types, mode);
      var next := if taken then Take(st, cands[i], p, wF) else st;
      ScanStep(cands, i, p, phaseTime, types, mode, target, wF, st, next, taken);
      if !(taken && mode == Coverage && |next.covered| >= target) {
        var r := Scan(cands, i + 1, p, phaseTime, types, mode, target, wF, next);
        ScanMaximal(cands, i + 1, p, phaseTime, types, mode, target, wF, next);
        ScanGrows(cands, i + 1, p, phaseTime, types, mode, target, wF, next);
        if taken {
          assert (cands[i].zone, cands[i].kind) in r.used;
        } else {
          StaysIneligible(cands[i], st, r, p, phaseTime, types, mode);
        }
      }
    }
  }

  /** Helper: a scan with no budget left, or no candidate left, changes nothing. */
  lemma ScanDone(cands: seq<Candidate>, i: nat, p: nat, phaseTime: int, types: seq<string>, mode: PassMode,
                 target: int, wF: real, st: PickState)
    requires p < 3 && i <= |cands|
    requires forall k :: 0 <= k < |cands| ==> cands[k].zone in st.zoneTotal
    requires forall z :: z in st.zoneTotal ==> st.zoneTotal[z] >= 0
    requires i == |cands| || st.budget <= 0
    ensures Scan(cands, i, p, phaseTime, types, mode, target, wF, st) == st
  {
  }

  /** Helper: one step of `Scan`, after candidate `i` was taken or skipped. */
  lemma ScanStep(cands: seq<Candidate>, i: nat, p: nat, phaseTime: int, types: seq<string>, mode: PassMode,
                 target: int, wF: real, cur: PickState, next: PickState, taken: bool)
    requires p < 3 && i < |cands| && cur.budget > 0
    requires forall k :: 0 <= k < |cands| ==> cands[k].zone in cur.zoneTotal
    requires forall z :: z in cur.zoneTotal ==> cur.zoneTotal[z] >= 0
    requires taken == Eligible(cands[i], cur, p, phaseTime, types, mode)
    requires taken ==> next == Take(cur, cands[i], p, wF)
    requires !taken ==> next == cur
    ensures forall k :: 0 <= k < |cands| ==> cands[k].zone in next.zoneTotal
    ensures forall z :: z in next.zoneTotal ==> next.zoneTotal[z] >= 0
    ensures taken && mode == Coverage && |next.covered| >= target ==>
      Scan(cands, i, p, phaseTime, types, mode, target, wF, cur) == next
    ensures !(taken && mode == Coverage && |next.covered| >= target) ==>
      Scan(cands, i, p, phaseTime, types, mode, target, wF, cur) == Scan(cands, i + 1, p, phaseTime, types, mode, target, wF, next)
  {
  }

  /** One step of `try_pick`'s scan: take candidate `i` exactly when it passes every test. */
  method Visit(cands: seq<Candidate>, i: nat, p: nat, phaseTime: int, types: seq<string>, mode: PassMode,
               wF: real, st: PickState, cur: PickState, ghost scanned: seq<nat>, ghost prior: seq<Action>)
    returns (next: PickState, taken: bool, ghost scanned': seq<nat>)
    requires p < 3 && i < |cands| && cands[i].cost == UnitCost(cands[i].kind)
    requires Consistent(cur, prior, cands, p, phaseTime, types)
    requires Scanned(st, cur, scanned, i, cands, mode)
    ensures taken == Eligible(cands[i], cur, p, phaseTime, types, mode)
    ensures taken ==> next == Take(cur, cands[i], p, wF) && scanned' == scanned + [i]
    ensures !taken ==> next == cur && scanned' == scanned
    ensures Consistent(next, prior, cands, p, phaseTime, types)
    ensures Scanned(st, next, scanned', i + 1, cands, mode)
  {
    var c := cands[i];
    taken := Eligible(c, cur, p, phaseTime, types, mode);
    if taken {
      TakeKeepsConsistent(cur, c, p, phaseTime, types, mode, wF, prior, cands);
      ScannedStep(st, cur, scanned, i, cands, mode, p, phaseTime, types, wF);
      next := Take(cur, c, p, wF);
      scanned' := scanned + [i];
    } else {
      next, scanned' := cur, scanned;
    }
  }

  /**
   * The body of `try_pick`'s loop for candidate `i`: visit it, and report whether the
   * coverage pass stops here because the take reached the target.
   */
  method Advance(cands: seq<Candidate>, i: nat, p: nat, phaseTime: int, types: seq<string>, mode: PassMode,
                 target: int, wF: real, st: PickState, cur: PickState, ghost scanned: seq<nat>, ghost prior: seq<Action>)
    returns (next: PickState, stop: bool, ghost scanned': seq<nat>)
    requires p < 3 && i < |cands| && cur.budget > 0
    requires forall k :: 0 <= k < |cands| ==> cands[k].cost == UnitCost(cands[k].kind)
    requires forall k :: 0 <= k < |cands| ==> cands[k].zone in cur.zoneTotal
    requires forall z :: z in cur.zoneTotal ==> cur.zoneTotal[z] >= 0
    requires Consistent(cur, prior, cands, p, phaseTime, types)
    requires Scanned(st, cur, scanned, i, cands, mode)
    requires mode == Coverage && |st.covered| < target ==> |cur.covered| < target
    ensures forall k :: 0 <= k < |cands| ==> cands[k].zone in next.zoneTotal
    ensures forall z :: z in next.zoneTotal ==> next.zoneTotal[z] >= 0
    ensures stop ==> Scan(cands, i, p, phaseTime, types, mode, target, wF, cur) == next
    ensures !stop ==> (Scan(cands, i, p, phaseTime, types, mode, target, wF, cur)
                       == Scan(cands, i + 1, p, phaseTime, types, mode, target, wF, next))
    ensures Consistent(next, prior, cands, p, phaseTime, types)
    ensures Scanned(st, next, scanned', i + 1, cands, mode)
    ensures mode == Coverage && |st.covered| < target ==> |next.covered| <= target
    ensures !stop && mode == Coverage && |st.covered| < target ==> |next.covered| < target
  {
    var taken;
    next, taken, scanned' := Visit(cands, i, p, phaseTime, types, mode, wF, st, cur, scanned, prior);
    ScanStep(cands, i, p, phaseTime, types, mode, target, wF, cur, next, taken);
    stop := taken && mode == Coverage && |next.covered| >= target;
  }

  /**
   * `try_pick`: scan the candidates in order and take each that passes every test,
   * stopping when the budget is spent or, in the coverage pass, once `target` zones are
   * covered. The result is `Scan` from the first candidate; `scanned` are the indices of
   * the candidates taken.
   */
  method TryPick(cands: seq<Candidate>, p: nat, phaseTime: int, types: seq<string>, mode: PassMode,
                 target: int, wF: real, st: PickState, ghost prior: seq<Action>)
    returns (next: PickState, ghost scanned: seq<nat>)
    requires p < 3
    requires forall i :: 0 <= i < |cands| ==> cands[i].cost == UnitCost(cands[i].kind)
    requires Consistent(st, prior, cands, p, phaseTime, types)
    ensures next == Scan(cands, 0, p, phaseTime, types, mode, target, wF, st)
    ensures Consistent(next, prior, cands, p, phaseTime, types)
    ensures Scanned(st, next, scanned, |cands|, cands, mode)
    ensures mode == Coverage && |st.covered| < target ==> |next.covered| <= target
    ensures st.budget <= 0 ==> next == st
  {
    next := st;
    scanned := [];
    assert next.picks[|st.picks|..] == [];
    ghost var final := Scan(cands, 0, p, phaseTime, types, mode, target, wF, st);
    for i := 0 to |cands|
      invariant forall k :: 0 <= k < |cands| ==> cands[k].zone in next.zoneTotal
      invariant forall z :: z in next.zoneTotal ==> next.zoneTotal[z] >= 0
      invariant final == Scan(cands, i, p, phaseTime, types, mode, target, wF, next)
      invariant Consistent(next, prior, cands, p, phaseTime, types)
      invariant Scanned(st, next, scanned, i, cands, mode)
      invariant st.budget <= 0 ==> next == st
      invariant mode == Coverage && |st.covered| < target ==> |next.covered| < target
    {
      if next.budget <= 0 {
        ScanDone(cands, i, p, phaseTime, types, mode, target, wF, next);
        break;
      }
      var stop;
      next, stop, scanned := Advance(cands, i, p, phaseTime, types, mode, target, wF, st, next, scanned, prior);
      if stop {
        break;
      }
      if i + 1 == |cands| {
        ScanDone(cands, i + 1, p, phaseTime, types, mode, target, wF, next);
      }
    }
  }

  // ---------------------------------------------------------------------
  // The phase loop of `generate_plan`
  // ---------------------------------------------------------------------

  /** The counters `generate_plan` carries from phase to phase agree with the plan so far. */
  ghost predicate Carried(zoneTotal: map<string, int>, zonePhase: map<string, int>, used: set<(string, ProjectType)>,
                          plan: seq<Action>, zones: set<string>)
  {
    && zoneTotal.Keys == zones && zonePhase.Keys == zones
    && (forall z :: z in zoneTotal ==> zoneTotal[z] == CountZone(plan, z))
    && used == PairSet(plan)
    && PairsDistinct(plan)
  }

  /** What every phase of a plan satisfies. */
  predicate PhaseOk(ph: Phase, p: nat, totalBudget: int, horizon: int, types: seq<string>, zones: set<string>)
  {
    && p < 3
    && ph.name == PhaseName(p)
    && ph.budget == PhaseBudget(totalBudget, p)
    && ph.time == PhaseTime(horizon, p)
    && ph.remaining == ph.budget - SumCost(ph.actions)
    && (ph.remaining >= 0 || ph.actions == [])
    && (ph.budget <= 0 ==> ph.actions == [])
    && (forall k :: 0 <= k < |ph.actions| ==>
          && ActionFits(ph.actions[k], p, ph.time, types)
          && ph.actions[k].zone in zones
          && CountZone(ph.actions, ph.actions[k].zone) <= MaxActionsPerZonePerPhase)
  }

  /** Helper: after the two passes the budget has paid for every action of the phase. */
  lemma TwoPasses(st: PickState, st1: PickState, st2: PickState)
    requires st.picks == []
    requires Extends(st, st1) && (|st1.picks| > 0 ==> st1.budget >= 0)
    requires Extends(st1, st2) && (|st2.picks| > |st1.picks| ==> st2.budget >= 0)
    ensures st2.budget == st.budget - SumCost(st2.picks)
    ensures st2.budget >= 0 || st2.picks == []
  {
    var m := |st1.picks|;
    assert st1.picks[0..] == st1.picks;
    assert st2.picks == st1.picks + st2.picks[m..];
    SumCostConcat(st1.picks, st2.picks[m..]);
    if |st2.picks| == m {
      assert st2.picks[m..] == [];
    }
  }

  /** Helper: counters consistent with a phase's actions give the carried counters and
      the per-action facts of `PhaseOk`. */
  lemma PassesKeepCounters(st: PickState, plan: seq<Action>, cands: seq<Candidate>, p: nat, phaseTime: int,
                           types: seq<string>, zones: set<string>)
    requires Consistent(st, plan, cands, p, phaseTime, types)
    requires st.zoneTotal.Keys == zones && st.zonePhase.Keys == zones
    ensures Carried(st.zoneTotal, st.zonePhase, st.used, plan + st.picks, zones)
    ensures forall k :: 0 <= k < |st.picks| ==>
      && ActionFits(st.picks[k], p, phaseTime, types)
      && st.picks[k].zone in zones
      && CountZone(st.picks, st.picks[k].zone) <= MaxActionsPerZonePerPhase
  {
  }

  /** Helper: at the start of a phase, with the per-phase counts reset, the counters agree. */
  lemma FreshPhase(st: PickState, plan: seq<Action>, cands: seq<Candidate>, p: nat, phaseTime: int,
                   types: seq<string>, zones: set<string>)
    requires Carried(st.zoneTotal, st.zonePhase, st.used, plan, zones)
    requires st.picks == [] && st.covered == {}
    requires forall z :: z in st.zonePhase ==> st.zonePhase[z] == 0
    requires forall i :: 0 <= i < |cands| ==> cands[i].zone in zones
    ensures Consistent(st, plan, cands, p, phaseTime, types)
  {
    assert plan + st.picks == plan;
  }

  /**
   * The state after the two passes of phase `p`: the budget is the phase's share, the
   * per-phase counts start at zero, and the coverage pass feeds the fill pass.
   */
  function Passes(cands: seq<Candidate>, zoneCount: nat, types: seq<string>, p: nat, totalBudget: int, horizon: int,
                  wF: real, zoneTotal: map<string, int>, zonePhase: map<string, int>,
                  used: set<(string, ProjectType)>): (r: PickState)
    requires p < 3
    requires forall k :: 0 <= k < |cands| ==> cands[k].zone in zoneTotal
    requires forall z :: z in zoneTotal ==> zoneTotal[z] >= 0
    ensures r.zoneTotal.Keys == zoneTotal.Keys && r.zonePhase.Keys == zonePhase.Keys
    ensures forall z :: z in r.zoneTotal ==> r.zoneTotal[z] >= 0
  {
    var phaseTime := PhaseTime(horizon, p);
    var target := CoverTarget(zoneCount, p);
    var reset := map z | z in zonePhase :: 0;
    var start := PickState(PhaseBudget(totalBudget, p), [], {}, zoneTotal, reset, used);
    var st1 := Scan(cands, 0, p, phaseTime, types, Coverage, target, wF, start);
    Scan(cands, 0, p, phaseTime, types, Fill, target, wF, st1)
  }

  /** After the fill pass of a phase no candidate passes every test any more: the greedy
      phase is maximal, for candidates of positive cost. */
  lemma PassesMaximal(cands: seq<Candidate>, zoneCount: nat, types: seq<string>, p: nat, totalBudget: int,
                      horizon: int, wF: real, zoneTotal: map<string, int>, zonePhase: map<string, int>,
                      used: set<(string, ProjectType)>)
    requires p < 3
    requires forall k :: 0 <= k < |cands| ==> cands[k].zone in zoneTotal && cands[k].cost > 0
    requires forall z :: z in zoneTotal ==> zoneTotal[z] >= 0
    ensures var r := Passes(cands, zoneCount, types, p, totalBudget, horizon, wF, zoneTotal, zonePhase, used);
            forall k :: 0 <= k < |cands| ==> !Eligible(cands[k], r, p, PhaseTime(horizon, p), types, Fill)
  {
    var phaseTime := PhaseTime(horizon, p);
    var target := CoverTarget(zoneCount, p);
    var reset := map z | z in zonePhase :: 0;
    var start := PickState(PhaseBudget(totalBudget, p), [], {}, zoneTotal, reset, used);
    var st1 := Scan(cands, 0, p, phaseTime, types, Coverage, target, wF, start);
    ScanMaximal(cands, 0, p, phaseTime, types, Fill, target, wF, st1);
  }

  /** One phase: reset the per-phase counts, run the coverage pass, then the fill pass. */
  method RunPhase(cands: seq<Candidate>, zoneCount: nat, types: seq<string>, p: nat, totalBudget: int, horizon: int,
                  wF: real, zoneTotal: map<string, int>, zonePhase: map<string, int>,
                  used: set<(string, ProjectType)>, ghost plan: seq<Action>, ghost zones: set<string>)
    returns (ph: Phase, zoneTotal': map<string, int>, zonePhase': map<string, int>, used': set<(string, ProjectType)>)
    requires p < 3
    requires forall i :: 0 <= i < |cands| ==> cands[i].cost == UnitCost(cands[i].kind) && cands[i].zone in zones
    requires Carried(zoneTotal, zonePhase, used, plan, zones)
    ensures PhaseOk(ph, p, totalBudget, horizon, types, zones)
    ensures Carried(zoneTotal', zonePhase', used', plan + ph.actions, zones)
    ensures var r := Passes(cands, zoneCount, types, p, totalBudget, horizon, wF, zoneTotal, zonePhase, used);
            && ph == Phase(PhaseName(p), PhaseBudget(totalBudget, p), PhaseTime(horizon, p), r.picks, r.budget)
            && zoneTotal' == r.zoneTotal && zonePhase' == r.zonePhase && used' == r.used
  {
    var phaseBudget := PhaseBudget(totalBudget, p);
    var phaseTime := PhaseTime(horizon, p);
    var target := CoverTarget(zoneCount, p);
    var reset := map z | z in zonePhase :: 0;
    var st := PickState(phaseBudget, [], {}, zoneTotal, reset, used);
    FreshPhase(st, plan, cands, p, phaseTime, types, zones);
    ghost var sc1, sc2;
    var st1, st2;
    st1, sc1 := TryPick(cands, p, phaseTime, types, Coverage, target, wF, st, plan);
    st2, sc2 := TryPick(cands, p, phaseTime, types, Fill, target, wF, st1, plan);
    TwoPasses(st, st1, st2);
    PassesKeepCounters(st2, plan, cands, p, phaseTime, types, zones);
    ph := Phase(PhaseName(p), phaseBudget, phaseTime, st2.picks, st2.budget);
    zoneTotal', zonePhase', used' := st2.zoneTotal, st2.zonePhase, st2.used;
  }

  /** The actions of all phases, in phase order. */
  function Flatten(phases: seq<Phase>): seq<Action>
  {
    if phases == [] then [] else Flatten(phases[..|phases| - 1]) + phases[|phases| - 1].actions
  }

  /** The budgets of the first `p` phases together. */
  function BudgetsUpTo(total: int, p: nat): int
    requires p <= 3
  {
    if p == 0 then 0 else BudgetsUpTo(total, p - 1) + PhaseBudget(total, p - 1)
  }

  /** The truncated phase budgets never exceed the total; each is non-negative when the
      total is, and none is positive when the total is not. */
  lemma PhaseBudgetsWithinTotal(total: int)
    ensures total >= 0 ==> BudgetsUpTo(total, 3) <= total
    ensures total >= 0 ==> forall p :: 0 <= p < 3 ==> PhaseBudget(total, p) >= 0
    ensures total <= 0 ==> forall p :: 0 <= p < 3 ==> PhaseBudget(total, p) <= 0
  {
    var t := total as real;
    var b0, b1, b2 := PhaseBudget(total, 0), PhaseBudget(total, 1), PhaseBudget(total, 2);
    assert BudgetsUpTo(total, 1) == b0;
    assert BudgetsUpTo(total, 2) == b0 + b1;
    if total >= 0 {
      assert b0 as real <= t * 0.45 && b1 as real <= t * 0.35 && b2 as real <= t * 0.20;
      assert (b0 + b1 + b2) as real <= t;
    }
  }

  /** Every sorted candidate has its type's unit cost and belongs to a zone of the table. */
  lemma SortedCandidatesFit(rows: seq<ZoneRow>, types: seq<string>, w: VariantWeights, cands: seq<Candidate>)
    requires cands == SortByScore(AllCandidates(rows, types, w.wImpact, w.wSpeed))
    ensures forall i :: 0 <= i < |cands| ==> cands[i].cost == UnitCost(cands[i].kind) && cands[i].zone in ZoneSet(rows)
  {
    var built := AllCandidates(rows, types, w.wImpact, w.wSpeed);
    AllCandidatesExact(rows, types, w.wImpact, w.wSpeed);
    SortByScoreCorrect(built);
    forall i | 0 <= i < |cands| ensures cands[i].cost == UnitCost(cands[i].kind) && cands[i].zone in ZoneSet(rows) {
      assert cands[i] in multiset(cands);
      assert cands[i] in built;
      var r :| r in rows && CandidateOf(cands[i], r, types, w.wImpact, w.wSpeed);
    }
  }

  /** The candidate list of `generate_plan`, sorted by descending base score. */
  method SortedCandidates(rows: seq<ZoneRow>, types: seq<string>, w: VariantWeights) returns (cands: seq<Candidate>)
    ensures cands == SortByScore(AllCandidates(rows, types, w.wImpact, w.wSpeed))
    ensures ScoreDescending(cands)
    ensures multiset(cands) == multiset(AllCandidates(rows, types, w.wImpact, w.wSpeed))
    ensures forall v :: WithScore(cands, v) == WithScore(AllCandidates(rows, types, w.wImpact, w.wSpeed), v)
    ensures forall i :: 0 <= i < |cands| ==> cands[i].cost == UnitCost(cands[i].kind) && cands[i].zone in ZoneSet(rows)
  {
    var built := BuildCandidates(rows, types, w.wImpact, w.wSpeed);
    cands := SortByScore(built);
    SortByScoreCorrect(built);
    SortedCandidatesFit(rows, types, w, cands);
  }

  /** Helper: one more phase keeps the plan's cost within the budgets so far. */
  lemma PhaseWithinBudget(plan: seq<Action>, ph: Phase, p: nat, totalBudget: int, horizon: int,
                          types: seq<string>, zones: set<string>)
    requires p < 3 && PhaseOk(ph, p, totalBudget, horizon, types, zones)
    requires totalBudget >= 0 ==> SumCost(plan) <= BudgetsUpTo(totalBudget, p)
    requires totalBudget <= 0 ==> plan == []
    ensures totalBudget >= 0 ==> SumCost(plan + ph.actions) <= BudgetsUpTo(totalBudget, p + 1)
    ensures totalBudget <= 0 ==> plan + ph.actions == []
  {
    PhaseBudgetsWithinTotal(totalBudget);
    SumCostConcat(plan, ph.actions);
  }

  /** Helper: appending a well-formed phase keeps every phase well-formed and flattens
      to the plan followed by the new phase's actions. */
  lemma PhasesGrow(phases: seq<Phase>, ph: Phase, totalBudget: int, horizon: int,
                   types: seq<string>, zones: set<string>)
    requires |phases| < 3
    requires forall q :: 0 <= q < |phases| ==> PhaseOk(phases[q], q, totalBudget, horizon, types, zones)
    requires PhaseOk(ph, |phases|, totalBudget, horizon, types, zones)
    ensures forall q :: 0 <= q < |phases| + 1 ==> PhaseOk((phases + [ph])[q], q, totalBudget, horizon, types, zones)
    ensures Flatten(phases + [ph]) == Flatten(phases) + ph.actions
  {
    var grown := phases + [ph];
    assert grown[..|phases|] == phases;
    forall q | 0 <= q < |phases| + 1 ensures PhaseOk(grown[q], q, totalBudget, horizon, types, zones) {
      if q < |phases| {
        assert grown[q] == phases[q];
      }
    }
  }

  /** Helper: `Flatten` of three phases. */
  lemma FlattenThree(phases: seq<Phase>)
    requires |phases| == 3
    ensures Flatten(phases) == phases[0].actions + phases[1].actions + phases[2].actions
  {
    var two := phases[..2];
    var one := two[..1];
    assert one[..0] == [] && one[0] == phases[0];
    assert Flatten(one) == phases[0].actions;
    assert Flatten(two) == Flatten(one) + phases[1].actions;
  }

  /** The phases built so far, with the counters carried into the next phase. */
  datatype PlanState = PlanState(phases: seq<Phase>, zoneTotal: map<string, int>, zonePhase: map<string, int>,
                                 used: set<(string, ProjectType)>)

  /** The first `n` phases of the plan over the candidate list `cands`, each phase running
      `Passes` from the counters the previous phases left. */
  function PlanPhases(cands: seq<Candidate>, zoneCount: nat, types: seq<string>, totalBudget: int, horizon: int,
                      wF: real, zones: set<string>, n: nat): (r: PlanState)
    requires n <= 3
    requires forall k :: 0 <= k < |cands| ==> cands[k].zone in zones
    ensures |r.phases| == n
    ensures r.zoneTotal.Keys == zones && r.zonePhase.Keys == zones
    ensures forall z :: z in r.zoneTotal ==> r.zoneTotal[z] >= 0
  {
    if n == 0 then PlanState([], map z | z in zones :: 0, map z | z in zones :: 0, {})
    else
      var prev := PlanPhases(cands, zoneCount, types, totalBudget, horizon, wF, zones, n - 1);
      var r := Passes(cands, zoneCount, types, n - 1, totalBudget, horizon, wF, prev.zoneTotal, prev.zonePhase, prev.used);
      var ph := Phase(PhaseName(n - 1), PhaseBudget(totalBudget, n - 1), PhaseTime(horizon, n - 1), r.picks, r.budget);
      PlanState(prev.phases + [ph], r.zoneTotal, r.zonePhase, r.used)
  }

  /** Helper: the plan state one phase further. */
  lemma PlanPhasesStep(cands: seq<Candidate>, zoneCount: nat, types: seq<string>, totalBudget: int, horizon: int,
                       wF: real, zones: set<string>, n: nat, prev: PlanState)
    requires n < 3
    requires forall k :: 0 <= k < |cands| ==> cands[k].zone in zones
    requires prev == PlanPhases(cands, zoneCount, types, totalBudget, horizon, wF, zones, n)
    ensures forall k :: 0 <= k < |cands| ==> cands[k].zone in prev.zoneTotal
    ensures forall z :: z in prev.zoneTotal ==> prev.zoneTotal[z] >= 0
    ensures var r := Passes(cands, zoneCount, types, n, totalBudget, horizon, wF, prev.zoneTotal, prev.zonePhase, prev.used);
            PlanPhases(cands, zoneCount, types, totalBudget, horizon, wF, zones, n + 1)
            == PlanState(prev.phases + [Phase(PhaseName(n), PhaseBudget(totalBudget, n), PhaseTime(horizon, n), r.picks, r.budget)],
                         r.zoneTotal, r.zonePhase, r.used)
  {
  }

  /** The three phases `generate_plan` returns for a zone table, a type list, a budget,
      a horizon and a variant's weights. */
  function GreedyPhases(rows: seq<ZoneRow>, types: seq<string>, totalBudget: int, horizon: int,
                        w: VariantWeights): (r: seq<Phase>)
    ensures |r| == 3
  {
    var cands := SortByScore(AllCandidates(rows, types, w.wImpact, w.wSpeed));
    SortedCandidatesFit(rows, types, w, cands);
    PlanPhases(cands, |rows|, types, totalBudget, horizon, w.wFair, ZoneSet(rows), 3).phases
  }

  /** Helper: before the first phase nothing is planned, every zone's counters are zero,
      and that state is `PlanPhases` of no phase. */
  lemma PlanStart(cands: seq<Candidate>, zoneCount: nat, types: seq<string>, totalBudget: int, horizon: int,
                  wF: real, zones: set<string>)
    requires forall k :: 0 <= k < |cands| ==> cands[k].zone in zones
    ensures PlanPhases(cands, zoneCount, types, totalBudget, horizon, wF, zones, 0)
            == PlanState([], map z | z in zones :: 0, map z | z in zones :: 0, {})
    ensures Flatten([]) == []
    ensures Carried(map z | z in zones :: 0, map z | z in zones :: 0, {}, [], zones)
    ensures BudgetsUpTo(totalBudget, 0) == 0 && SumCost([]) == 0
  {
  }

  /** Helper: the three phases over the sorted candidates are `GreedyPhases`. */
  lemma GreedyPhasesAre(rows: seq<ZoneRow>, types: seq<string>, totalBudget: int, horizon: int, w: VariantWeights,
                        cands: seq<Candidate>, st: PlanState)
    requires cands == SortByScore(AllCandidates(rows, types, w.wImpact, w.wSpeed))
    requires forall k :: 0 <= k < |cands| ==> cands[k].zone in ZoneSet(rows)
    requires st == PlanPhases(cands, |rows|, types, totalBudget, horizon, w.wFair, ZoneSet(rows), 3)
    ensures st.phases == GreedyPhases(rows, types, totalBudget, horizon, w)
  {
  }

  /** One iteration of `generate_plan`'s phase loop: run phase `p` and append it. */
  method PlanStep(cands: seq<Candidate>, rows: seq<ZoneRow>, types: seq<string>, totalBudget: int, horizon: int,
                  w: VariantWeights, p: nat, phases: seq<Phase>, plan: seq<Action>, zoneTotal: map<string, int>,
                  zonePhase: map<string, int>, used: set<(string, ProjectType)>)
    returns (phases': seq<Phase>, plan': seq<Action>, zoneTotal': map<string, int>, zonePhase': map<string, int>,
             used': set<(string, ProjectType)>)
    requires p < 3
    requires forall i :: 0 <= i < |cands| ==> cands[i].cost == UnitCost(cands[i].kind) && cands[i].zone in ZoneSet(rows)
    requires PlanState(phases, zoneTotal, zonePhase, used)
             == PlanPhases(cands, |rows|, types, totalBudget, horizon, w.wFair, ZoneSet(rows), p)
    requires forall q :: 0 <= q < p ==> PhaseOk(phases[q], q, totalBudget, horizon, types, ZoneSet(rows))
    requires plan == Flatten(phases)
    requires Carried(zoneTotal, zonePhase, used, plan, ZoneSet(rows))
    requires totalBudget >= 0 ==> SumCost(plan) <= BudgetsUpTo(totalBudget, p)
    requires totalBudget <= 0 ==> plan == []
    ensures PlanState(phases', zoneTotal', zonePhase', used')
            == PlanPhases(cands, |rows|, types, totalBudget, horizon, w.wFair, ZoneSet(rows), p + 1)
    ensures forall q :: 0 <= q < p + 1 ==> PhaseOk(phases'[q], q, totalBudget, horizon, types, ZoneSet(rows))
    ensures plan' == Flatten(phases')
    ensures Carried(zoneTotal', zonePhase', used', plan', ZoneSet(rows))
    ensures totalBudget >= 0 ==> SumCost(plan') <= BudgetsUpTo(totalBudget, p + 1)
    ensures totalBudget <= 0 ==> plan' == []
  {
    var zones := ZoneSet(rows);
    PlanPhasesStep(cands, |rows|, types, totalBudget, horizon, w.wFair, zones, p,
                   PlanState(phases, zoneTotal, zonePhase, used));
    var ph;
    ph, zoneTotal', zonePhase', used' := RunPhase(cands, |rows|, types, p, totalBudget, horizon, w.wFair,
                                                  zoneTotal, zonePhase, used, plan, zones);
    PhaseWithinBudget(plan, ph, p, totalBudget, horizon, types, zones);
    PhasesGrow(phases, ph, totalBudget, horizon, types, zones);
    phases' := phases + [ph];
    plan' := plan + ph.actions;
  }

  /**
   * `generate_plan`: build and sort the candidates, then run the three phases.
   * Every phase keeps to its allowed types, its time slack, its per-zone cap and (in the
   * first phase) the deficit floor; no (zone, type) pair is planned twice; the plan
   * never spends more than the total budget, and nothing is planned without a budget.
   */
  method GeneratePlan(rows: seq<ZoneRow>, types: seq<string>, totalBudget: int, horizon: int, w: VariantWeights)
    returns (phases: seq<Phase>, plan: seq<Action>)
    ensures phases == GreedyPhases(rows, types, totalBudget, horizon, w)
    ensures forall p :: 0 <= p < 3 ==> PhaseOk(phases[p], p, totalBudget, horizon, types, ZoneSet(rows))
    ensures plan == phases[0].actions + phases[1].actions + phases[2].actions
    ensures PairsDistinct(plan)
    ensures totalBudget >= 0 ==> SumCost(plan) <= totalBudget
    ensures totalBudget <= 0 ==> plan == []
  {
    var cands := SortedCandidates(rows, types, w);
    var zones := ZoneSet(rows);
    var zoneTotal := map z | z in zones :: 0;
    var zonePhase := map z | z in zones :: 0;
    var used: set<(string, ProjectType)> := {};
    phases := [];
    plan := [];
    PlanStart(cands, |rows|, types, totalBudget, horizon, w.wFair, zones);
    for p := 0 to 3
      invariant PlanState(phases, zoneTotal, zonePhase, used)
                == PlanPhases(cands, |rows|, types, totalBudget, horizon, w.wFair, zones, p)
      invariant forall q :: 0 <= q < p ==> PhaseOk(phases[q], q, totalBudget, horizon, types, zones)
      invariant plan == Flatten(phases)
      invariant Carried(zoneTotal, zonePhase, used, plan, zones)
      invariant totalBudget >= 0 ==> SumCost(plan) <= BudgetsUpTo(totalBudget, p)
      invariant totalBudget <= 0 ==> plan == []
    {
      phases, plan, zoneTotal, zonePhase, used := PlanStep(cands, rows, types, totalBudget, horizon, w, p,
                                                           phases, plan, zoneTotal, zonePhase, used);
    }
    GreedyPhasesAre(rows, types, totalBudget, horizon, w, cands, PlanState(phases, zoneTotal, zonePhase, used));
    FlattenThree(phases);
    PhaseBudgetsWithinTotal(totalBudget);
  }
}
