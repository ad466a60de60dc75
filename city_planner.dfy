/**
 * The city-level planner's tables and candidate list: project types with their
 * unit cost and time, the per-zone deficit lookup, candidate scoring, the
 * descending score order, the three plan variants and `norm_series`.
 */
module CityPlanner {
  import opened Wrappers
  import opened Numeric

  datatype ProjectType =
    | Housing | Hospitals | Schools | Infrastructure
    | Roads | WaterSanitation | PowerGrid | PublicSpaces

  /** The name the user interface and the tables use for a project type. */
  function TypeName(t: ProjectType): string
  {
    match t
    case Housing => "Housing"
    case Hospitals => "Hospitals"
    case Schools => "Schools"
    case Infrastructure => "Infrastructure"
    case Roads => "Roads"
    case WaterSanitation => "Water & Sanitation"
    case PowerGrid => "Power Grid"
    case PublicSpaces => "Public Spaces"
  }

  /** `t in DEF_COL`: the project type a name denotes, if any. */
  function ParseType(s: string): (r: Option<ProjectType>)
    ensures r.Some? ==> TypeName(r.value) == s
  {
    if s == "Housing" then Some(Housing)
    else if s == "Hospitals" then Some(Hospitals)
    else if s == "Schools" then Some(Schools)
    else if s == "Infrastructure" then Some(Infrastructure)
    else if s == "Roads" then Some(Roads)
    else if s == "Water & Sanitation" then Some(WaterSanitation)
    else if s == "Power Grid" then Some(PowerGrid)
    else if s == "Public Spaces" then Some(PublicSpaces)
    else None
  }

  /** Every type name is recognised, so a name is skipped exactly when it names no type. */
  lemma ParseTypeName(t: ProjectType)
    ensures ParseType(TypeName(t)) == Some(t)
  {
  }

  /** `PROJECT_META[t]["unit_cost"]` in million USD. */
  function UnitCost(t: ProjectType): (r: int)
    ensures 10 <= r <= 40
  {
    match t
    case Housing => 18
    case Hospitals => 40
    case Schools => 22
    case Infrastructure => 30
    case Roads => 16
    case WaterSanitation => 22
    case PowerGrid => 32
    case PublicSpaces => 10
  }

  /** `PROJECT_META[t]["unit_time"]` in weeks. */
  function UnitTime(t: ProjectType): (r: int)
    ensures 8 <= r <= 16
  {
    match t
    case Housing => 10
    case Hospitals => 16
    case Schools => 12
    case Infrastructure => 14
    case Roads => 10
    case WaterSanitation => 12
    case PowerGrid => 14
    case PublicSpaces => 8
  }

  /** `PHASE_ALLOWED[p]` for the three phases 0, 1, 2. */
  predicate PhaseAllowed(p: nat, t: ProjectType)
  {
    if p == 0 then t in {Housing, Hospitals, WaterSanitation}
    else if p == 1 then t in {Housing, Hospitals, Schools, Roads, Infrastructure, WaterSanitation}
    else if p == 2 then t in {Schools, Roads, Infrastructure, PowerGrid, PublicSpaces, WaterSanitation}
    else false
  }

  /** Water & Sanitation is allowed in every phase; Power Grid and Public Spaces only in
      the last; Housing and Hospitals never in the last; Schools, Roads and Infrastructure
      never in the first. */
  lemma PhaseAllowedTable()
    ensures forall p :: 0 <= p < 3 ==> PhaseAllowed(p, WaterSanitation)
    ensures forall p :: 0 <= p < 3 ==> (PhaseAllowed(p, PowerGrid) <==> p == 2)
    ensures forall p :: 0 <= p < 3 ==> (PhaseAllowed(p, PublicSpaces) <==> p == 2)
    ensures forall p :: 0 <= p < 3 ==> (PhaseAllowed(p, Housing) <==> p < 2)
    ensures forall p :: 0 <= p < 3 ==> (PhaseAllowed(p, Hospitals) <==> p < 2)
    ensures forall p :: 0 <= p < 3 ==> (PhaseAllowed(p, Schools) <==> p > 0)
    ensures forall p :: 0 <= p < 3 ==> (PhaseAllowed(p, Roads) <==> p > 0)
    ensures forall p :: 0 <= p < 3 ==> (PhaseAllowed(p, Infrastructure) <==> p > 0)
  {
  }

  /** One zone row with the columns the planner reads. */
  datatype ZoneRow = ZoneRow(
    zone: string,
    needScore: real,
    popW: real,
    housingDef: real,
    hospitalDef: real,
    schoolDef: real,
    infraDef: real,
    roadDef: real,
    waterSanDef: real,
    powerDef: real,
    publicDef: real)

  /** `row[DEF_COL[t]]`. */
  function Deficit(row: ZoneRow, t: ProjectType): real
  {
    match t
    case Housing => row.housingDef
    case Hospitals => row.hospitalDef
    case Schools => row.schoolDef
    case Infrastructure => row.infraDef
    case Roads => row.roadDef
    case WaterSanitation => row.waterSanDef
    case PowerGrid => row.powerDef
    case PublicSpaces => row.publicDef
  }

  /** The per-zone inputs of the deficit columns; the shortages are whole counts. */
  datatype ZoneStats = ZoneStats(
    zone: string,
    damagePct: real,
    population: real,
    serviceAvail: real,
    displacedRatio: real,
    roadIndexBase: real,
    hospitalsShortage: real,
    schoolsShortage: real,
    housingShortage: real)

  /** The derived columns of one zone, given its population weight and the three
      normalised shortages. */
  function DeriveZoneRow(z: ZoneStats, popW: real, hospShortW: real, schoolShortW: real, houseShortW: real): (r: ZoneRow)
    ensures r.zone == z.zone && r.popW == popW
    ensures 0.0 <= r.needScore <= 1.0
    ensures forall t :: 0.0 <= Deficit(r, t) <= 1.0
  {
    var damageW := z.damagePct / 100.0;
    var serviceGap := 1.0 - z.serviceAvail / 5.0;
    var dr := z.displacedRatio;
    ZoneRow(
      z.zone,
      Clip01(0.40 * damageW + 0.28 * popW + 0.12 * serviceGap + 0.20 * dr),
      popW,
      Clip01(0.35 * damageW + 0.30 * dr + 0.20 * popW + 0.15 * houseShortW),
      Clip01(0.40 * damageW + 0.25 * serviceGap + 0.15 * popW + 0.20 * hospShortW),
      Clip01(0.25 * damageW + 0.25 * popW + 0.25 * dr + 0.25 * schoolShortW),
      Clip01(0.55 * damageW + 0.45 * serviceGap),
      Clip01(0.55 * damageW + 0.35 * serviceGap + 0.10 * (1.0 - z.roadIndexBase)),
      Clip01(0.55 * damageW + 0.45 * serviceGap),
      Clip01(0.65 * damageW + 0.35 * serviceGap),
      Clip01(0.20 * damageW + 0.40 * popW + 0.40 * dr))
  }

  function Populations(stats: seq<ZoneStats>): seq<real>
  {
    seq(|stats|, i requires 0 <= i < |stats| => stats[i].population)
  }

  /** The module-level column assignments over the whole zone table: population weight
      against the largest population, and shortages through `norm_series`. */
  function DeriveZoneRows(stats: seq<ZoneStats>): (r: seq<ZoneRow>)
    requires stats != [] ==> Max(Populations(stats)) != 0.0
    ensures |r| == |stats|
    ensures forall i :: 0 <= i < |stats| ==> r[i].zone == stats[i].zone
  {
    if stats == [] then []
    else
      var maxPop := Max(Populations(stats));
      var hosp := NormSeries(seq(|stats|, i requires 0 <= i < |stats| => stats[i].hospitalsShortage));
      var school := NormSeries(seq(|stats|, i requires 0 <= i < |stats| => stats[i].schoolsShortage));
      var house := NormSeries(seq(|stats|, i requires 0 <= i < |stats| => stats[i].housingShortage));
      seq(|stats|, i requires 0 <= i < |stats| =>
        DeriveZoneRow(stats[i], stats[i].population / maxPop, hosp[i], school[i], house[i]))
  }

  /** Helper: 0 ≤ x ≤ d with d > 0 gives x / d in [0, 1]. */
  lemma RatioInUnit(x: real, d: real)
    requires 0.0 <= x <= d && d > 0.0
    ensures 0.0 <= x / d <= 1.0
  {
    var q := x / d;
    assert q * d == x;
  }

  /** On a table with non-negative populations, not all zero, every derived column lies in
      [0, 1], so every candidate built from it has an impact in [0, 1]. */
  lemma DerivedRowsInUnit(stats: seq<ZoneStats>, types: seq<string>, wI: real, wS: real)
    requires forall i :: 0 <= i < |stats| ==> stats[i].population >= 0.0
    requires stats != [] ==> Max(Populations(stats)) != 0.0
    ensures forall i :: 0 <= i < |stats| ==> 0.0 <= DeriveZoneRows(stats)[i].popW <= 1.0
    ensures forall c :: c in AllCandidates(DeriveZoneRows(stats), types, wI, wS) ==> 0.0 <= c.impact <= 1.0
  {
    var rows := DeriveZoneRows(stats);
    if stats != [] {
      var pops := Populations(stats);
      var maxPop := Max(pops);
      forall i | 0 <= i < |stats| ensures 0.0 <= rows[i].popW <= 1.0 {
        assert pops[i] == stats[i].population <= maxPop;
        RatioInUnit(stats[i].population, maxPop);
      }
    }
    AllCandidatesExact(rows, types, wI, wS);
    forall c | c in AllCandidates(rows, types, wI, wS) ensures 0.0 <= c.impact <= 1.0 {
      var r :| r in rows && CandidateOf(c, r, types, wI, wS);
      CandidateScores(r, c.kind, wI, wS);
    }
  }

  /** `[base_score, impact, speed, zone, t, cost, ttime, deficit, need]`. */
  datatype Candidate = Candidate(
    baseScore: real,
    impact: real,
    speed: real,
    zone: string,
    kind: ProjectType,
    cost: int,
    time: int,
    deficit: real,
    need: real)

  /** Python's two-argument `max` on reals. */
  function MaxReal(a: real, b: real): (r: real)
    ensures r >= a && r >= b && (r == a || r == b)
  {
    if b > a then b else a
  }

  /** The candidate for one zone and one project type. */
  function MakeCandidate(row: ZoneRow, t: ProjectType, wI: real, wS: real): (c: Candidate)
    ensures c.zone == row.zone && c.kind == t && c.cost == UnitCost(t) && c.time == UnitTime(t)
    ensures c.deficit == Deficit(row, t) && c.need == row.needScore
    ensures c.baseScore == wI * c.impact + wS * c.speed
    ensures 0.0 < c.speed <= 1.0
    ensures row.needScore >= 0.0 && c.deficit >= 0.0 && row.popW >= 0.0 ==> c.impact >= 0.0
  {
    var deficit := Deficit(row, t);
    var impact := row.needScore * deficit * (0.55 + 0.45 * row.popW);
    var speed := 1.0 / MaxReal(1.0, UnitTime(t) as real);
    Candidate(wI * impact + wS * speed, impact, speed, row.zone, t, UnitCost(t), UnitTime(t), deficit, row.needScore)
  }

  /** The candidates of one zone, one per recognised type name, in the order of `types`. */
  function ZoneCandidates(row: ZoneRow, types: seq<string>, wI: real, wS: real): seq<Candidate>
  {
    if types == [] then []
    else
      var t := ParseType(types[|types| - 1]);
      ZoneCandidates(row, types[..|types| - 1], wI, wS) + (if t.Some? then [MakeCandidate(row, t.value, wI, wS)] else [])
  }

  /** All candidates, zone by zone. */
  function AllCandidates(rows: seq<ZoneRow>, types: seq<string>, wI: real, wS: real): seq<Candidate>
  {
    if rows == [] then []
    else AllCandidates(rows[..|rows| - 1], types, wI, wS) + ZoneCandidates(rows[|rows| - 1], types, wI, wS)
  }

  /** The candidate loops of `generate_plan`: for every zone, for every type name. */
  method BuildCandidates(rows: seq<ZoneRow>, types: seq<string>, wI: real, wS: real) returns (cands: seq<Candidate>)
    ensures cands == AllCandidates(rows, types, wI, wS)
  {
    cands := [];
    for r := 0 to |rows|
      invariant cands == AllCandidates(rows[..r], types, wI, wS)
    {
      var row := rows[r];
      ghost var before := cands;
      for k := 0 to |types|
        invariant cands == before + ZoneCandidates(row, types[..k], wI, wS)
      {
        assert types[..k + 1][..k] == types[..k];
        var t := ParseType(types[k]);
        if t.None? {
          continue;
        }
        cands := cands + [MakeCandidate(row, t.value, wI, wS)];
      }
      assert types[..|types|] == types;
      assert rows[..r + 1][..r] == rows[..r];
    }
    assert rows[..|rows|] == rows;
  }

  /** The zones the rows name. */
  function ZoneSet(rows: seq<ZoneRow>): set<string>
  {
    set r | r in rows :: r.zone
  }

  /** What every candidate of a zone satisfies. */
  ghost predicate CandidateOf(c: Candidate, row: ZoneRow, types: seq<string>, wI: real, wS: real)
  {
    TypeName(c.kind) in types && c == MakeCandidate(row, c.kind, wI, wS)
  }

  lemma {:induction false} ZoneCandidatesExact(row: ZoneRow, types: seq<string>, wI: real, wS: real)
    ensures forall c :: c in ZoneCandidates(row, types, wI, wS) ==> CandidateOf(c, row, types, wI, wS)
    ensures forall t :: TypeName(t) in types ==> MakeCandidate(row, t, wI, wS) in ZoneCandidates(row, types, wI, wS)
  {
    if types != [] {
      var init := types[..|types| - 1];
      ZoneCandidatesExact(row, init, wI, wS);
      assert types == init + [types[|types| - 1]];
      forall t | TypeName(t) in types ensures MakeCandidate(row, t, wI, wS) in ZoneCandidates(row, types, wI, wS) {
        if TypeName(t) !in init {
          ParseTypeName(t);
        }
      }
    }
  }

  /**
   * Every candidate belongs to one of the zones and a recognised type name of `types`,
   * with that type's unit cost and time, and every (zone, recognised type) pair has
   * its candidate.
   */
  lemma {:induction false} AllCandidatesExact(rows: seq<ZoneRow>, types: seq<string>, wI: real, wS: real)
    ensures forall c :: c in AllCandidates(rows, types, wI, wS) ==>
      exists r :: r in rows && CandidateOf(c, r, types, wI, wS)
    ensures forall r, t :: r in rows && TypeName(t) in types ==> MakeCandidate(r, t, wI, wS) in AllCandidates(rows, types, wI, wS)
  {
    if rows != [] {
      var init, last := rows[..|rows| - 1], rows[|rows| - 1];
      AllCandidatesExact(init, types, wI, wS);
      ZoneCandidatesExact(last, types, wI, wS);
      assert rows == init + [last];
      var all := AllCandidates(rows, types, wI, wS);
      assert all == AllCandidates(init, types, wI, wS) + ZoneCandidates(last, types, wI, wS);
      forall r, t | r in rows && TypeName(t) in types ensures MakeCandidate(r, t, wI, wS) in all {
        if r in init {
          assert MakeCandidate(r, t, wI, wS) in AllCandidates(init, types, wI, wS);
        } else {
          assert r == last;
        }
      }
      forall c | c in all ensures exists r :: r in rows && CandidateOf(c, r, types, wI, wS) {
        if c in AllCandidates(init, types, wI, wS) {
          var r :| r in init && CandidateOf(c, r, types, wI, wS);
          assert r in rows;
        } else {
          assert CandidateOf(c, last, types, wI, wS);
        }
      }
    }
  }

  /** Helper: need, deficit and population weight in [0, 1] give an impact in [0, 1]. */
  lemma ImpactInUnit(need: real, deficit: real, popW: real)
    requires 0.0 <= need <= 1.0 && 0.0 <= deficit <= 1.0 && 0.0 <= popW <= 1.0
    ensures 0.0 <= need * deficit * (0.55 + 0.45 * popW) <= 1.0
  {
    var f := 0.55 + 0.45 * popW;
    UnitProduct(need, deficit);
    UnitProduct(need * deficit, f);
  }

  /** A candidate's speed is 1/unit_time, and its impact lies in [0, 1] when need, deficit
      and population weight do. */
  lemma CandidateScores(row: ZoneRow, t: ProjectType, wI: real, wS: real)
    ensures MakeCandidate(row, t, wI, wS).speed == 1.0 / UnitTime(t) as real
    ensures 0.0 <= row.needScore <= 1.0 && 0.0 <= Deficit(row, t) <= 1.0 && 0.0 <= row.popW <= 1.0
      ==> 0.0 <= MakeCandidate(row, t, wI, wS).impact <= 1.0
  {
    if 0.0 <= row.needScore <= 1.0 && 0.0 <= Deficit(row, t) <= 1.0 && 0.0 <= row.popW <= 1.0 {
      ImpactInUnit(row.needScore, Deficit(row, t), row.popW);
    }
  }

  // ---------------------------------------------------------------------
  // `candidates.sort(key=base_score, reverse=True)`
  // ---------------------------------------------------------------------

  predicate ScoreDescending(s: seq<Candidate>)
  {
    forall a, b :: 0 <= a < b < |s| ==> s[a].baseScore >= s[b].baseScore
  }

  /** Insert c after every element whose score is at least c's (keeps equal scores in
      their original order). */
  function InsertByScore(s: seq<Candidate>, c: Candidate): (r: seq<Candidate>)
    ensures multiset(r) == multiset(s) + multiset{c}
    ensures |r| == |s| + 1
  {
    if s == [] then [c]
    else if s[0].baseScore >= c.baseScore then
      var rest := InsertByScore(s[1..], c);
      assert s == [s[0]] + s[1..];
      [s[0]] + rest
    else [c] + s
  }

  /** The candidate list in non-increasing score order. */
  function SortByScore(s: seq<Candidate>): (r: seq<Candidate>)
    ensures multiset(r) == multiset(s)
    ensures |r| == |s|
  {
    if s == [] then []
    else
      var init := s[..|s| - 1];
      assert s == init + [s[|s| - 1]];
      InsertByScore(SortByScore(init), s[|s| - 1])
  }

  /** Helper: inserting below a common upper bound keeps every score below it. */
  lemma {:induction false} InsertBounded(s: seq<Candidate>, c: Candidate, v: real)
    requires forall i :: 0 <= i < |s| ==> s[i].baseScore <= v
    requires c.baseScore <= v
    ensures forall i :: 0 <= i < |InsertByScore(s, c)| ==> InsertByScore(s, c)[i].baseScore <= v
  {
    if s != [] && s[0].baseScore >= c.baseScore {
      var tail := s[1..];
      InsertBounded(tail, c, v);
      var r := InsertByScore(s, c);
      assert r == [s[0]] + InsertByScore(tail, c);
      forall i | 0 <= i < |r| ensures r[i].baseScore <= v {
        if i > 0 {
          assert r[i] == InsertByScore(tail, c)[i - 1];
        }
      }
    }
  }

  lemma {:induction false} InsertKeepsOrder(s: seq<Candidate>, c: Candidate)
    requires ScoreDescending(s)
    ensures ScoreDescending(InsertByScore(s, c))
  {
    if s != [] && s[0].baseScore >= c.baseScore {
      var tail := s[1..];
      InsertKeepsOrder(tail, c);
      InsertBounded(tail, c, s[0].baseScore);
      var rest := InsertByScore(tail, c);
      var r := [s[0]] + rest;
      assert InsertByScore(s, c) == r;
      forall a, b | 0 <= a < b < |r| ensures r[a].baseScore >= r[b].baseScore {
        if a == 0 {
          assert r[b] == rest[b - 1];
        } else {
          assert r[a] == rest[a - 1] && r[b] == rest[b - 1];
        }
      }
    }
  }

  /** The candidates of `s` whose base score is `v`, in their order in `s`. */
  function WithScore(s: seq<Candidate>, v: real): seq<Candidate>
  {
    if s == [] then [] else Keep(s[0], v) + WithScore(s[1..], v)
  }

  /** The candidate alone when its base score is `v`, nothing otherwise. */
  function Keep(c: Candidate, v: real): seq<Candidate>
  {
    if c.baseScore == v then [c] else []
  }

  /** Filtering by score distributes over concatenation. */
  lemma {:induction false} WithScoreConcat(a: seq<Candidate>, b: seq<Candidate>, v: real)
    ensures WithScore(a + b, v) == WithScore(a, v) + WithScore(b, v)
  {
    if a == [] {
      assert a + b == b;
    } else {
      assert (a + b)[0] == a[0] && (a + b)[1..] == a[1..] + b;
      WithScoreConcat(a[1..], b, v);
      calc {
        WithScore(a + b, v);
        Keep(a[0], v) + WithScore(a[1..] + b, v);
        Keep(a[0], v) + (WithScore(a[1..], v) + WithScore(b, v));
        (Keep(a[0], v) + WithScore(a[1..], v)) + WithScore(b, v);
      }
    }
  }

  /** No candidate of score `v` leaves nothing to filter. */
  lemma {:induction false} WithScoreNone(s: seq<Candidate>, v: real)
    requires forall k :: 0 <= k < |s| ==> s[k].baseScore != v
    ensures WithScore(s, v) == []
  {
    if s != [] {
      WithScoreNone(s[1..], v);
    }
  }

  /** Helper: in a descending list whose first score is below `w`, no candidate scores `w`. */
  lemma WithScoreBelow(s: seq<Candidate>, w: real)
    requires ScoreDescending(s) && s != [] && s[0].baseScore < w
    ensures WithScore(s, w) == []
  {
    forall k | 0 <= k < |s| ensures s[k].baseScore < w {
      if k > 0 {
        assert s[0].baseScore >= s[k].baseScore;
      }
    }
    WithScoreNone(s, w);
  }

  /** Inserting into a descending list puts the new candidate after every candidate of
      the same score, so the candidates of each score keep their order. */
  lemma {:induction false} InsertByScoreStable(s: seq<Candidate>, c: Candidate, v: real)
    requires ScoreDescending(s)
    ensures WithScore(InsertByScore(s, c), v) == WithScore(s, v) + Keep(c, v)
  {
    if s == [] {
      assert InsertByScore(s, c) == [c] && [c][1..] == [];
    } else if s[0].baseScore >= c.baseScore {
      assert ScoreDescending(s[1..]);
      InsertByScoreStable(s[1..], c, v);
      InsertStableBehind(s, c, v);
    } else {
      InsertStableInFront(s, c, v);
    }
  }

  /** Helper: the candidate goes behind the head, which keeps its place in the filter. */
  lemma InsertStableBehind(s: seq<Candidate>, c: Candidate, v: real)
    requires s != [] && s[0].baseScore >= c.baseScore
    requires WithScore(InsertByScore(s[1..], c), v) == WithScore(s[1..], v) + Keep(c, v)
    ensures WithScore(InsertByScore(s, c), v) == WithScore(s, v) + Keep(c, v)
  {
    InsertByScoreBehind(s, c);
    WithScoreHead(s, v);
    ConsStable(s[0], InsertByScore(s[1..], c), WithScore(s[1..], v), Keep(c, v), v);
  }

  /** Helper: a candidate put in front of a list is filtered in front of it. */
  lemma ConsStable(x: Candidate, rest: seq<Candidate>, tail: seq<Candidate>, more: seq<Candidate>, v: real)
    requires WithScore(rest, v) == tail + more
    ensures WithScore([x] + rest, v) == (Keep(x, v) + tail) + more
  {
    var r := [x] + rest;
    assert r[0] == x && r[1..] == rest;
    WithScoreHead(r, v);
  }

  /** Helper: one unfolding of `WithScore`. */
  lemma WithScoreHead(s: seq<Candidate>, v: real)
    requires s != []
    ensures WithScore(s, v) == Keep(s[0], v) + WithScore(s[1..], v)
  {
  }

  /** Helper: one unfolding of `InsertByScore` past the head. */
  lemma InsertByScoreBehind(s: seq<Candidate>, c: Candidate)
    requires s != [] && s[0].baseScore >= c.baseScore
    ensures InsertByScore(s, c) == [s[0]] + InsertByScore(s[1..], c)
  {
  }

  /** Helper: the candidate goes in front of a list whose scores are all below its own. */
  lemma InsertStableInFront(s: seq<Candidate>, c: Candidate, v: real)
    requires ScoreDescending(s) && s != [] && s[0].baseScore < c.baseScore
    ensures WithScore(InsertByScore(s, c), v) == WithScore(s, v) + Keep(c, v)
  {
    var r := [c] + s;
    assert InsertByScore(s, c) == r;
    assert r[0] == c && r[1..] == s;
    assert WithScore(r, v) == Keep(c, v) + WithScore(s, v);
    if c.baseScore == v {
      WithScoreBelow(s, v);
    } else {
      assert Keep(c, v) == [];
    }
  }

  /** Sorting is stable: the candidates of each score appear in the same order before and after. */
  lemma {:induction false} SortByScoreStable(s: seq<Candidate>, v: real)
    ensures WithScore(SortByScore(s), v) == WithScore(s, v)
  {
    if s != [] {
      var init, last := s[..|s| - 1], s[|s| - 1];
      assert s == init + [last];
      SortByScoreStable(init, v);
      SortByScoreCorrect(init);
      InsertByScoreStable(SortByScore(init), last, v);
      WithScoreConcat(init, [last], v);
      assert WithScore([last], v) == Keep(last, v) by {
        assert [last][1..] == [];
      }
    }
  }

  /** The sorted list is in non-increasing score order and is a permutation of the input. */
  lemma {:induction false} SortByScoreCorrect(s: seq<Candidate>)
    ensures ScoreDescending(SortByScore(s))
    ensures multiset(SortByScore(s)) == multiset(s)
    ensures forall c :: c in SortByScore(s) <==> c in s
    ensures forall v :: WithScore(SortByScore(s), v) == WithScore(s, v)
  {
    if s != [] {
      SortByScoreCorrect(s[..|s| - 1]);
      InsertKeepsOrder(SortByScore(s[..|s| - 1]), s[|s| - 1]);
    }
    forall v ensures WithScore(SortByScore(s), v) == WithScore(s, v) {
      SortByScoreStable(s, v);
    }
    forall c ensures c in SortByScore(s) <==> c in s {
      assert c in SortByScore(s) <==> c in multiset(SortByScore(s));
      assert c in s <==> c in multiset(s);
    }
  }

  // ---------------------------------------------------------------------
  // Plan variants and normalisation
  // ---------------------------------------------------------------------

  datatype VariantWeights = VariantWeights(wImpact: real, wSpeed: real, wFair: real)

  /** `plan_variant_weights`: two named variants, every other name gets the balanced one. */
  function PlanVariantWeights(name: string): (w: VariantWeights)
    ensures w.wImpact + w.wSpeed + w.wFair == 1.0
    ensures 0.0 <= w.wImpact <= 1.0 && 0.0 <= w.wSpeed <= 1.0 && 0.0 <= w.wFair <= 1.0
    ensures name == "Plan A \U{2014} Max Impact" ==> w.wImpact > w.wFair
    ensures name == "Plan C \U{2014} Fairness First" ==> w.wFair == w.wImpact
  {
    if name == "Plan A \U{2014} Max Impact" then VariantWeights(0.70, 0.15, 0.15)
    else if name == "Plan C \U{2014} Fairness First" then VariantWeights(0.45, 0.10, 0.45)
    else VariantWeights(0.55, 0.15, 0.30)
  }

  /** `max(1.0, float(s.max()))`; an empty series gives NaN, which `max` passes over. */
  function NormDivisor(s: seq<real>): (r: real)
    ensures r >= 1.0
  {
    if s == [] then 1.0 else MaxReal(1.0, Max(s))
  }

  /** `norm_series`: divide by the larger of 1 and the series maximum, then clip to [0, 1]. */
  function NormSeries(s: seq<real>): (r: seq<real>)
    ensures |r| == |s|
    ensures forall i :: 0 <= i < |r| ==> 0.0 <= r[i] <= 1.0
  {
    seq(|s|, i requires 0 <= i < |s| => Clip01(s[i] / NormDivisor(s)))
  }

  /** Helper: 0 ≤ x ≤ d with d ≥ 1 gives x / d in [0, 1], and d / d == 1. */
  lemma DivInUnit(x: real, d: real)
    requires 0.0 <= x <= d && d >= 1.0
    ensures 0.0 <= x / d <= 1.0 && d / d == 1.0
  {
    var q := x / d;
    assert q * d == x;
  }

  /** On a non-negative series no value is clipped: each is divided by max(1, max(s)),
      and when the maximum is at least 1 it maps to exactly 1. */
  lemma NormSeriesScales(s: seq<real>)
    requires forall i :: 0 <= i < |s| ==> s[i] >= 0.0
    ensures forall i :: 0 <= i < |s| ==> NormSeries(s)[i] == s[i] / NormDivisor(s)
    ensures forall i :: 0 <= i < |s| && s[i] == NormDivisor(s) ==> NormSeries(s)[i] == 1.0
  {
    var d := NormDivisor(s);
    forall i | 0 <= i < |s|
      ensures NormSeries(s)[i] == s[i] / d
      ensures s[i] == d ==> NormSeries(s)[i] == 1.0
    {
      if |s| > 0 {
        assert s[i] <= Max(s) <= d;
      }
      DivInUnit(s[i], d);
    }
  }
}
