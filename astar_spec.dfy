/** route_planner/a_star.py, the rules behind MultiCriteriaAStar: the
    heuristic, the five-criterion edge cost, the neighbour rule, the
    waypoint suitability score and its first-maximum choice, the
    alternative weights, the number of segments of the long-distance path,
    the metrics of a path, and the search state (an arena of nodes with
    integer parent links, the node index, the open list and the closed set)
    with its relaxation step. */
module AStarSpec {
  import opened Base
  import opened Geo
  import opened Criteria
  import opened CostModel
  import Utils
  import T = Terrain

  // ---------------------------------------------------------------
  // What the engine is given

  /** The answers of the terrain analyzer the engine consults, one per
      position. The analyzer's write-once cache is what makes a repeated
      question get the first answer again. */
  datatype Env = Env(
    valid: Pos -> bool,
    difficulty: Pos -> real,
    accessibility: Pos -> real,
    road: Pos -> T.Feature,
    water: Pos -> T.Feature,
    protection: Pos -> T.Feature,
    settlement: Pos -> T.Feature)

  /** The analyzer's difficulty and accessibility scores lie in [0, 1]. */
  ghost predicate ScoresInRange(env: Env)
  {
    forall p: Pos :: 0.0 <= env.difficulty(p) <= 1.0 && 0.0 <= env.accessibility(p) <= 1.0
  }

  /** The terrain analyzer seen through its rules: every answer is the
      analyzer's own function of the map, with the slope, which comes from
      the random elevation noise, given per position. */
  function AnalyzerEnv(w: T.World, slope: Pos -> real): Env
  {
    Env(
      p => T.IsValidAt(w, p),
      p => T.DifficultyOf(slope(p), T.SoilAt(w, p), T.ProtectedAreaAt(w, p), T.WaterCrossingAt(w, p), T.NearSettlementAt(w, p)),
      p => T.AccessibilityOf(T.DifficultyOf(slope(p), T.SoilAt(w, p), T.ProtectedAreaAt(w, p), T.WaterCrossingAt(w, p), T.NearSettlementAt(w, p)), T.NearRoadAt(w, p)),
      p => T.NearRoadAt(w, p),
      p => T.WaterCrossingAt(w, p),
      p => T.ProtectedAreaAt(w, p),
      p => T.NearSettlementAt(w, p))
  }

  /** The analyzer's rules keep both scores in [0, 1], whatever the slope. */
  lemma AnalyzerEnvScores(w: T.World, slope: Pos -> real)
    ensures ScoresInRange(AnalyzerEnv(w, slope))
  {
    var env := AnalyzerEnv(w, slope);
    forall p: Pos ensures 0.0 <= env.difficulty(p) <= 1.0 && 0.0 <= env.accessibility(p) <= 1.0 {
      var d := T.DifficultyOf(slope(p), T.SoilAt(w, p), T.ProtectedAreaAt(w, p), T.WaterCrossingAt(w, p), T.NearSettlementAt(w, p));
      assert env.difficulty(p) == d;
      assert env.accessibility(p) == T.AccessibilityOf(d, T.NearRoadAt(w, p));
    }
  }

  datatype Pipe = Pipe(diameter: real, material: string, pipeType: string)

  /** The constructor arguments of the engine that never change, with the
      haversine distance, atan2, and the (sin, cos) pairs of the sampling
      angles. The planner samples the eight angles 0, 45, ..., 315 degrees;
      the model takes the list of pairs as given, of any length, and
      every property proved about the waypoint samples holds for each
      such list. */
  datatype Setup = Setup(
    start: Pos,
    goal: Pos,
    env: Env,
    pipe: Pipe,
    hav: Distance,
    atan2: (real, real) -> real,
    compass: seq<(real, real)>)

  const GridSize: real := 0.0005
  const MaxIterations: nat := 20000

  // ---------------------------------------------------------------
  // Heuristic and edge cost

  /** calculate_h_score: the distance to the goal inflated by up to 30 %
      for difficult terrain. */
  function HScore(distance: real, terrainFactor: real): real
  {
    distance * (1.0 + terrainFactor * 0.3)
  }

  /** The heuristic lies between the plain distance and 1.3 times it. */
  lemma HScoreBounds(distance: real, terrainFactor: real)
    requires distance >= 0.0 && 0.0 <= terrainFactor <= 1.0
    ensures distance <= HScore(distance, terrainFactor) <= 1.3 * distance
  {
    assert HScore(distance, terrainFactor) == distance + 0.3 * (distance * terrainFactor);
    assert 0.0 <= distance * terrainFactor <= distance;
  }

  /** calculate_edge_cost for a step of the given length into a position of
      the given difficulty and accessibility. */
  function EdgeCosts(pipe: Pipe, distance: real, td: real, access: real): CostVector
  {
    CostVector(
      distance,
      distance * (1.0 + td),
      EnvironmentalImpact(pipe.pipeType, pipe.diameter, td),
      ConstructionCost(distance, pipe.diameter, pipe.material, td, pipe.pipeType),
      distance * (1.0 + (1.0 - access)))
  }

  /** The edge cost of the step from a to b. */
  function Edge(s: Setup, a: Pos, b: Pos): CostVector
  {
    EdgeCosts(s.pipe, s.hav(a, b), s.env.difficulty(b), s.env.accessibility(b))
  }

  /** All five edge costs are non-negative for a non-negative step and
      scores in [0, 1]. */
  lemma EdgeCostsNonNegative(pipe: Pipe, distance: real, td: real, access: real)
    requires distance >= 0.0 && pipe.diameter >= 0.0 && 0.0 <= td <= 1.0 && 0.0 <= access <= 1.0
    ensures EdgeCosts(pipe, distance, td, access).NonNegative()
  {
    ConstructionCostNonNegative(distance, pipe.diameter, pipe.material, td, pipe.pipeType);
    assert distance * (1.0 + td) >= 0.0;
    assert distance * (1.0 + (1.0 - access)) >= 0.0;
  }

  /** A step of length zero costs nothing except its environmental impact,
      which does not scale with the distance. */
  lemma EdgeCostsOfNoStep(pipe: Pipe, td: real, access: real)
    ensures var c := EdgeCosts(pipe, 0.0, td, access);
      c.distance == 0.0 && c.terrainDifficulty == 0.0 && c.constructionCost == 0.0 && c.maintenanceAccess == 0.0 &&
      c.environmentalImpact == EnvironmentalImpact(pipe.pipeType, pipe.diameter, td)
  {
  }

  /** The criterion-wise sum of the edge costs along a path. */
  function PathCost(s: Setup, path: seq<Pos>): CostVector
  {
    if |path| < 2 then ZeroCosts
    else PathCost(s, path[..|path| - 1]).Plus(Edge(s, path[|path| - 2], path[|path| - 1]))
  }

  lemma PathCostAppend(s: Setup, path: seq<Pos>, p: Pos)
    requires |path| >= 1
    ensures PathCost(s, path + [p]) == PathCost(s, path).Plus(Edge(s, path[|path| - 1], p))
  {
    assert (path + [p])[..|path|] == path;
  }

  lemma ZeroPlus(c: CostVector)
    ensures ZeroCosts.Plus(c) == c
  {
  }

  /** With non-negative edge costs, the cost of a path is non-negative. */
  lemma {:induction false} PathCostNonNegative(s: Setup, path: seq<Pos>)
    requires IsDistance(s.hav) && ScoresInRange(s.env) && s.pipe.diameter >= 0.0
    ensures PathCost(s, path).NonNegative()
    decreases |path|
  {
    if |path| >= 2 {
      PathCostNonNegative(s, path[..|path| - 1]);
      var a, b := path[|path| - 2], path[|path| - 1];
      EdgeCostsNonNegative(s.pipe, s.hav(a, b), s.env.difficulty(b), s.env.accessibility(b));
    }
  }

  // ---------------------------------------------------------------
  // Neighbours

  function Offsets(step: real): seq<real>
  {
    [-step, 0.0, step]
  }

  function Shifted(p: Pos, dlat: real, dlng: real): Pos
  {
    Pos(p.lat + dlat, p.lng + dlng)
  }

  /** A candidate is kept when it is a valid position, or, failing that,
      when it lies within three steps of the goal. */
  predicate Admitted(s: Setup, q: Pos, step: real)
  {
    s.env.valid(q) || s.hav(q, s.goal) < step * 3.0
  }

  /** The candidate at offset (dlat, dlng), if it is kept: the zero offset
      is never a candidate. */
  function Candidate(s: Setup, p: Pos, step: real, dlat: real, dlng: real): seq<Pos>
  {
    if dlat == 0.0 && dlng == 0.0 then []
    else if Admitted(s, Shifted(p, dlat, dlng), step) then [Shifted(p, dlat, dlng)]
    else []
  }

  /** The kept candidates of one row (fixed dlat), in dlng order. */
  function RowScan(s: Setup, p: Pos, step: real, dlat: real, dlngs: seq<real>): seq<Pos>
  {
    if dlngs == [] then []
    else RowScan(s, p, step, dlat, dlngs[..|dlngs| - 1]) + Candidate(s, p, step, dlat, dlngs[|dlngs| - 1])
  }

  /** The kept candidates of the given rows, in lat-major order. */
  function GridScan(s: Setup, p: Pos, step: real, dlats: seq<real>): seq<Pos>
  {
    if dlats == [] then []
    else GridScan(s, p, step, dlats[..|dlats| - 1]) + RowScan(s, p, step, dlats[|dlats| - 1], Offsets(step))
  }

  /** get_neighbors: the kept grid candidates, then the goal itself when
      the position is within four steps of it and it is not already there. */
  function Neighbors(s: Setup, p: Pos, step: real): seq<Pos>
  {
    var grid := GridScan(s, p, step, Offsets(step));
    if s.hav(p, s.goal) < step * 4.0 && s.goal !in grid then grid + [s.goal] else grid
  }

  lemma {:induction false} RowScanLength(s: Setup, p: Pos, step: real, dlat: real, dlngs: seq<real>)
    ensures |RowScan(s, p, step, dlat, dlngs)| <= |dlngs|
    decreases |dlngs|
  {
    if dlngs != [] {
      RowScanLength(s, p, step, dlat, dlngs[..|dlngs| - 1]);
    }
  }

  /** At most eight grid candidates plus the goal. */
  lemma NeighborsCount(s: Setup, p: Pos, step: real)
    ensures |GridScan(s, p, step, Offsets(step))| <= 8
    ensures |Neighbors(s, p, step)| <= 9
  {
    var o := Offsets(step);
    assert o[..2][..1] == [-step] && o[..1][..0] == [];
    RowScanLength(s, p, step, -step, o);
    RowScanLength(s, p, step, step, o);
    RowScanLength(s, p, step, 0.0, o[..2]);
    assert o[..2] == [-step, 0.0];
    assert Candidate(s, p, step, 0.0, 0.0) == [];
    assert RowScan(s, p, step, 0.0, o[..2]) == RowScan(s, p, step, 0.0, [-step]) by {
      assert o[..2][..1] == [-step];
    }
    assert RowScan(s, p, step, 0.0, [-step]) == Candidate(s, p, step, 0.0, -step) by {
      assert [-step][..0] == [];
    }
    assert |RowScan(s, p, step, 0.0, o)| <= 2;
    assert o[..2][..1] == o[..1];
    assert GridScan(s, p, step, o[..1]) == RowScan(s, p, step, -step, o);
    assert GridScan(s, p, step, o[..2]) == GridScan(s, p, step, o[..1]) + RowScan(s, p, step, 0.0, o);
    assert GridScan(s, p, step, o) == GridScan(s, p, step, o[..2]) + RowScan(s, p, step, step, o);
  }

  /** A position is in a row's scan iff it is the kept candidate at one of
      the row's offsets. */
  lemma {:induction false} RowScanMembers(s: Setup, p: Pos, step: real, dlat: real, dlngs: seq<real>, q: Pos)
    ensures q in RowScan(s, p, step, dlat, dlngs) <==>
      exists j :: 0 <= j < |dlngs| && q in Candidate(s, p, step, dlat, dlngs[j])
    decreases |dlngs|
  {
    if dlngs != [] {
      var init := dlngs[..|dlngs| - 1];
      RowScanMembers(s, p, step, dlat, init, q);
      if q in RowScan(s, p, step, dlat, dlngs) {
        if q in RowScan(s, p, step, dlat, init) {
          var j :| 0 <= j < |init| && q in Candidate(s, p, step, dlat, init[j]);
          assert dlngs[j] == init[j];
        }
      } else {
        forall j | 0 <= j < |dlngs| ensures q !in Candidate(s, p, step, dlat, dlngs[j]) {
          if j < |init| { assert dlngs[j] == init[j]; }
        }
      }
    }
  }

  lemma {:induction false} GridScanMembers(s: Setup, p: Pos, step: real, dlats: seq<real>, q: Pos)
    ensures q in GridScan(s, p, step, dlats) <==>
      exists i, j :: 0 <= i < |dlats| && 0 <= j < 3 && q in Candidate(s, p, step, dlats[i], Offsets(step)[j])
    decreases |dlats|
  {
    if dlats != [] {
      var init := dlats[..|dlats| - 1];
      var last := dlats[|dlats| - 1];
      GridScanMembers(s, p, step, init, q);
      RowScanMembers(s, p, step, last, Offsets(step), q);
      if q in GridScan(s, p, step, dlats) {
        if q in GridScan(s, p, step, init) {
          var i, j :| 0 <= i < |init| && 0 <= j < 3 && q in Candidate(s, p, step, init[i], Offsets(step)[j]);
          assert dlats[i] == init[i];
        } else {
          var j :| 0 <= j < 3 && q in Candidate(s, p, step, last, Offsets(step)[j]);
          assert dlats[|dlats| - 1] == last;
        }
      } else {
        forall i, j | 0 <= i < |dlats| && 0 <= j < 3 ensures q !in Candidate(s, p, step, dlats[i], Offsets(step)[j]) {
          if i < |init| { assert dlats[i] == init[i]; }
        }
      }
    }
  }

  /** get_neighbors returns exactly the kept candidates at the eight
      non-zero offsets, and the goal when within four steps. */
  lemma NeighborsMembers(s: Setup, p: Pos, step: real, q: Pos)
    ensures q in Neighbors(s, p, step) <==>
      (exists i, j :: 0 <= i < 3 && 0 <= j < 3 && !(Offsets(step)[i] == 0.0 && Offsets(step)[j] == 0.0) &&
                      q == Shifted(p, Offsets(step)[i], Offsets(step)[j]) && Admitted(s, q, step)) ||
      (q == s.goal && s.hav(p, s.goal) < step * 4.0)
  {
    GridScanMembers(s, p, step, Offsets(step), q);
  }

  /** The goal is appended exactly when the position is within four steps
      and the grid scan did not already produce it; nothing else is
      appended. */
  lemma NeighborsGoalRule(s: Setup, p: Pos, step: real)
    ensures var grid := GridScan(s, p, step, Offsets(step));
      (Neighbors(s, p, step) == grid + [s.goal] <==> s.hav(p, s.goal) < step * 4.0 && s.goal !in grid) &&
      (Neighbors(s, p, step) != grid + [s.goal] ==> Neighbors(s, p, step) == grid)
  {
    var grid := GridScan(s, p, step, Offsets(step));
    assert |grid + [s.goal]| != |grid|;
  }

  // ---------------------------------------------------------------
  // Waypoint suitability

  /** The road, water, environment and cost weights of the suitability
      score: three times the criteria weight, with 0.15, 0.2, 0.15, 0.2 for a
      missing key. */
  function RoadWeight(w: Weights): real { GetOr(w, AccessKey, 0.15) * 3.0 }
  function WaterWeight(w: Weights): real { GetOr(w, TerrainKey, 0.2) * 3.0 }
  function EnvWeight(w: Weights): real { GetOr(w, EnvironmentKey, 0.15) * 3.0 }
  function CostWeight(w: Weights): real { GetOr(w, CostKey, 0.2) * 3.0 }

  /** The factor of a feature when it is found, 0 otherwise. */
  function Found(f: T.Feature): real
  {
    if f.found then f.factor else 0.0
  }

  /** The score of a valid position before the final clamp: 0.7, plus the
      weighted road bonus, minus the weighted water, terrain, protected-area
      and settlement penalties. */
  function RawSuitability(env: Env, w: Weights, p: Pos): real
  {
    0.7 + Found(env.road(p)) * RoadWeight(w)
        - Found(env.water(p)) * WaterWeight(w)
        - env.difficulty(p) * (WaterWeight(w) + CostWeight(w)) / 2.0
        - Found(env.protection(p)) * EnvWeight(w)
        - Found(env.settlement(p)) * EnvWeight(w)
  }

  /** _evaluate_point_suitability. */
  function Suitability(env: Env, w: Weights, p: Pos): (r: real)
    ensures 0.01 <= r <= 1.0
    ensures !env.valid(p) ==> r == 0.01
  {
    if !env.valid(p) then 0.01 else Max(0.01, Min(RawSuitability(env, w, p), 1.0))
  }

  /** On a valid position the score is the raw score whenever that lies in
      [0.01, 1]. */
  lemma SuitabilityUnclamped(env: Env, w: Weights, p: Pos)
    requires env.valid(p) && 0.01 <= RawSuitability(env, w, p) <= 1.0
    ensures Suitability(env, w, p) == RawSuitability(env, w, p)
  {
  }

  /** A valid position scores at least as much as an invalid one: 0.01 is
      the least score. */
  lemma InvalidScoresLeast(env: Env, w: Weights, p: Pos, q: Pos)
    requires !env.valid(q)
    ensures Suitability(env, w, q) <= Suitability(env, w, p)
  {
  }

  /** `max(alternatives, key=score)`: the index of the first maximal
      score, found by the left-to-right scan that replaces the best only on
      a strictly greater score. */
  function FirstMax(alts: seq<(Pos, real)>): (m: nat)
    requires |alts| >= 1
    ensures m < |alts|
  {
    if |alts| == 1 then 0
    else
      var k := FirstMax(alts[..|alts| - 1]);
      if alts[|alts| - 1].1 > alts[k].1 then |alts| - 1 else k
  }

  /** The entry FirstMax picks has the greatest score, and every entry
      before it scores strictly less. */
  lemma {:induction false} FirstMaxIsFirstGreatest(alts: seq<(Pos, real)>)
    requires |alts| >= 1
    ensures forall j :: 0 <= j < |alts| ==> alts[j].1 <= alts[FirstMax(alts)].1
    ensures forall j :: 0 <= j < FirstMax(alts) ==> alts[j].1 < alts[FirstMax(alts)].1
  {
    if |alts| > 1 {
      var front := alts[..|alts| - 1];
      FirstMaxIsFirstGreatest(front);
      assert forall j :: 0 <= j < |alts| - 1 ==> front[j] == alts[j];
    }
  }

  /** The point 0.002 degrees from c in the direction with the given sine
      and cosine. */
  function Sample(c: Pos, dir: (real, real)): Pos
  {
    Pos(c.lat + 0.002 * dir.0, c.lng + 0.002 * dir.1)
  }

  /** The scored alternatives of one waypoint, the waypoint itself first. */
  function Alternatives(s: Setup, w: Weights, c: Pos): (r: seq<(Pos, real)>)
    ensures |r| == |s.compass| + 1
  {
    [(c, Suitability(s.env, w, c))] +
      seq(|s.compass|, k requires 0 <= k < |s.compass| =>
        (Sample(c, s.compass[k]), Suitability(s.env, w, Sample(c, s.compass[k]))))
  }

  /** The waypoint comes first, then one sample per compass direction, each
      with its score. */
  lemma AlternativesScored(s: Setup, w: Weights, c: Pos)
    ensures Alternatives(s, w, c)[0] == (c, Suitability(s.env, w, c))
    ensures forall k :: 0 <= k < |s.compass| ==>
      Alternatives(s, w, c)[k + 1] == (Sample(c, s.compass[k]), Suitability(s.env, w, Sample(c, s.compass[k])))
  {
  }

  /** The point that replaces waypoint c. */
  function BestPoint(s: Setup, w: Weights, c: Pos): Pos
  {
    var alts := Alternatives(s, w, c);
    alts[FirstMax(alts)].0
  }

  /** The chosen point scores at least as well as every sampled point, and
      the waypoint itself is kept unless some sample scores strictly
      better. */
  lemma BestPointRule(s: Setup, w: Weights, c: Pos)
    ensures forall k :: 0 <= k < |s.compass| ==>
      Suitability(s.env, w, Sample(c, s.compass[k])) <= Suitability(s.env, w, BestPoint(s, w, c))
    ensures Suitability(s.env, w, c) <= Suitability(s.env, w, BestPoint(s, w, c))
    ensures (forall k :: 0 <= k < |s.compass| ==>
              Suitability(s.env, w, Sample(c, s.compass[k])) <= Suitability(s.env, w, c)) ==>
            BestPoint(s, w, c) == c
  {
    var alts := Alternatives(s, w, c);
    var m := FirstMax(alts);
    AlternativesScored(s, w, c);
    FirstMaxIsFirstGreatest(alts);
    assert alts[m].1 == Suitability(s.env, w, alts[m].0) by {
      if m > 0 { assert alts[m] == (Sample(c, s.compass[m - 1]), Suitability(s.env, w, Sample(c, s.compass[m - 1]))); }
    }
    forall k | 0 <= k < |s.compass|
      ensures Suitability(s.env, w, Sample(c, s.compass[k])) <= Suitability(s.env, w, BestPoint(s, w, c))
    {
      assert alts[k + 1].1 <= alts[m].1;
    }
    assert alts[0].1 <= alts[m].1;
  }

  /** No two neighbouring entries are equal. */
  predicate NoAdjacentDuplicates(path: seq<Pos>)
  {
    forall k :: 0 < k < |path| ==> path[k - 1] != path[k]
  }

  // ---------------------------------------------------------------
  // Alternative weights

  predicate Has(w: Weights, key: string)
  {
    Get(w, key).Some?
  }

  /** The weights an alternative is searched with, before normalisation:
      the first alternative favours terrain and environment, the second
      distance and cost; any other number changes nothing. */
  function Adjusted(w: Weights, i: int): Weights
    requires i == 1 ==> Has(w, TerrainKey) && Has(w, EnvironmentKey) && Has(w, DistanceKey)
    requires i == 2 ==> Has(w, DistanceKey) && Has(w, CostKey) && Has(w, EnvironmentKey)
  {
    if i == 1 then
      var w1 := Put(w, TerrainKey, Min(0.8, Get(w, TerrainKey).value * 2.0));
      var w2 := Put(w1, EnvironmentKey, Min(0.8, Get(w, EnvironmentKey).value * 2.0));
      Put(w2, DistanceKey, Max(0.1, Get(w, DistanceKey).value * 0.5))
    else if i == 2 then
      var w1 := Put(w, DistanceKey, Min(0.8, Get(w, DistanceKey).value * 2.0));
      var w2 := Put(w1, CostKey, Min(0.8, Get(w, CostKey).value * 2.0));
      Put(w2, EnvironmentKey, Max(0.1, Get(w, EnvironmentKey).value * 0.5))
    else w
  }

  /** _get_alternative_weights: the adjusted weights divided by their sum. */
  function AlternativeWeights(w: Weights, i: int): (r: Weights)
    requires i == 1 ==> Has(w, TerrainKey) && Has(w, EnvironmentKey) && Has(w, DistanceKey)
    requires i == 2 ==> Has(w, DistanceKey) && Has(w, CostKey) && Has(w, EnvironmentKey)
    requires Sum(Adjusted(w, i)) != 0.0
    ensures Sum(r) == 1.0
    ensures Keys(r) == Keys(w)
  {
    NormalisedSumsToOne(Adjusted(w, i));
    AdjustedKeys(w, i);
    Scaled(Adjusted(w, i), Sum(Adjusted(w, i)))
  }

  lemma AdjustedKeys(w: Weights, i: int)
    requires i == 1 ==> Has(w, TerrainKey) && Has(w, EnvironmentKey) && Has(w, DistanceKey)
    requires i == 2 ==> Has(w, DistanceKey) && Has(w, CostKey) && Has(w, EnvironmentKey)
    ensures Keys(Adjusted(w, i)) == Keys(w)
    ensures Keys(Scaled(Adjusted(w, i), 1.0)) == Keys(w)
  {
  }

  /** The weights the planner works with: each key once, the four keys the
      alternatives adjust present, and no negative weight. */
  ghost predicate WellFormedWeights(w: Weights)
  {
    && DistinctKeys(w)
    && Has(w, DistanceKey) && Has(w, TerrainKey) && Has(w, EnvironmentKey) && Has(w, CostKey)
    && forall k :: 0 <= k < |w| ==> w[k].1 >= 0.0
  }

  lemma PutWellFormed(w: Weights, key: string, v: real)
    requires WellFormedWeights(w) && Has(w, key) && v >= 0.0
    ensures WellFormedWeights(Put(w, key, v))
    ensures forall k :: k != key ==> Get(Put(w, key, v), k) == Get(w, k)
    ensures Get(Put(w, key, v), key) == Some(v)
  {
    var r := Put(w, key, v);
    forall k ensures Get(r, k) == if k != key then Get(w, k) else Some(v) {
      GetPut(w, key, v, k);
    }
    assert forall i, j :: 0 <= i < j < |r| ==> r[i].0 == w[i].0 && r[j].0 == w[j].0;
  }

  /** Dividing by a positive total keeps the weights well formed. */
  lemma ScaledWellFormed(w: Weights, total: real)
    requires WellFormedWeights(w) && total > 0.0
    ensures WellFormedWeights(Scaled(w, total))
  {
    var r := Scaled(w, total);
    forall k | 0 <= k < |w| ensures r[k].1 >= 0.0 {
      assert r[k].1 == w[k].1 / total;
    }
    forall key | Has(w, key) ensures Has(r, key) {
      GetFindsFirst(w, key);
      GetFindsFirst(r, key);
      var i :| 0 <= i < |w| && w[i].0 == key && w[i].1 == Get(w, key).value && forall j :: 0 <= j < i ==> w[j].0 != key;
      assert r[i].0 == key;
    }
  }

  /** Every weight read from well-formed weights is non-negative, and the
      total is at least that weight. */
  lemma GetWithinSum(w: Weights, key: string)
    requires WellFormedWeights(w) && Has(w, key)
    ensures 0.0 <= Get(w, key).value <= Sum(w)
  {
    GetFindsFirst(w, key);
    var i :| 0 <= i < |w| && w[i].0 == key && w[i].1 == Get(w, key).value && forall j :: 0 <= j < i ==> w[j].0 != key;
    SumAtLeastEntry(w, i);
  }

  /** For well-formed weights, the first two alternatives always have a
      positive total (a weight of at least 0.1 survives), and every
      alternative is well formed again. */
  lemma AlternativeWeightsWellFormed(w: Weights, i: int)
    requires WellFormedWeights(w) && (i != 1 && i != 2 ==> Sum(w) > 0.0)
    ensures Sum(Adjusted(w, i)) > 0.0
    ensures WellFormedWeights(AlternativeWeights(w, i))
  {
    GetWithinSum(w, DistanceKey);
    GetWithinSum(w, EnvironmentKey);
    GetWithinSum(w, TerrainKey);
    GetWithinSum(w, CostKey);
    var a := Adjusted(w, i);
    if i == 1 {
      var w1 := Put(w, TerrainKey, Min(0.8, Get(w, TerrainKey).value * 2.0));
      PutWellFormed(w, TerrainKey, Min(0.8, Get(w, TerrainKey).value * 2.0));
      var w2 := Put(w1, EnvironmentKey, Min(0.8, Get(w, EnvironmentKey).value * 2.0));
      PutWellFormed(w1, EnvironmentKey, Min(0.8, Get(w, EnvironmentKey).value * 2.0));
      PutWellFormed(w2, DistanceKey, Max(0.1, Get(w, DistanceKey).value * 0.5));
      assert a == Put(w2, DistanceKey, Max(0.1, Get(w, DistanceKey).value * 0.5));
      GetWithinSum(a, DistanceKey);
    } else if i == 2 {
      var w1 := Put(w, DistanceKey, Min(0.8, Get(w, DistanceKey).value * 2.0));
      PutWellFormed(w, DistanceKey, Min(0.8, Get(w, DistanceKey).value * 2.0));
      var w2 := Put(w1, CostKey, Min(0.8, Get(w, CostKey).value * 2.0));
      PutWellFormed(w1, CostKey, Min(0.8, Get(w, CostKey).value * 2.0));
      PutWellFormed(w2, EnvironmentKey, Max(0.1, Get(w, EnvironmentKey).value * 0.5));
      assert a == Put(w2, EnvironmentKey, Max(0.1, Get(w, EnvironmentKey).value * 0.5));
      GetWithinSum(a, EnvironmentKey);
    }
    ScaledWellFormed(a, Sum(a));
  }

  /** The values the first alternative searches with, before normalisation:
      terrain and environment doubled up to 0.8, distance halved down to
      0.1, the others as they were. */
  lemma AdjustedFirst(w: Weights)
    requires Has(w, TerrainKey) && Has(w, EnvironmentKey) && Has(w, DistanceKey)
    ensures Get(Adjusted(w, 1), TerrainKey) == Some(Min(0.8, Get(w, TerrainKey).value * 2.0))
    ensures Get(Adjusted(w, 1), EnvironmentKey) == Some(Min(0.8, Get(w, EnvironmentKey).value * 2.0))
    ensures Get(Adjusted(w, 1), DistanceKey) == Some(Max(0.1, Get(w, DistanceKey).value * 0.5))
    ensures forall k :: k != TerrainKey && k != EnvironmentKey && k != DistanceKey ==> Get(Adjusted(w, 1), k) == Get(w, k)
  {
    KeysDiffer();
    var v1, v2, v3 := Min(0.8, Get(w, TerrainKey).value * 2.0), Min(0.8, Get(w, EnvironmentKey).value * 2.0),
                      Max(0.1, Get(w, DistanceKey).value * 0.5);
    assert Adjusted(w, 1) == Put(Put(Put(w, TerrainKey, v1), EnvironmentKey, v2), DistanceKey, v3);
    PutThree(w, TerrainKey, EnvironmentKey, DistanceKey, v1, v2, v3);
  }

  /** The values the second alternative searches with, before
      normalisation: distance and cost doubled up to 0.8, environment halved
      down to 0.1, the others as they were. */
  lemma AdjustedSecond(w: Weights)
    requires Has(w, DistanceKey) && Has(w, CostKey) && Has(w, EnvironmentKey)
    ensures Get(Adjusted(w, 2), DistanceKey) == Some(Min(0.8, Get(w, DistanceKey).value * 2.0))
    ensures Get(Adjusted(w, 2), CostKey) == Some(Min(0.8, Get(w, CostKey).value * 2.0))
    ensures Get(Adjusted(w, 2), EnvironmentKey) == Some(Max(0.1, Get(w, EnvironmentKey).value * 0.5))
    ensures forall k :: k != DistanceKey && k != CostKey && k != EnvironmentKey ==> Get(Adjusted(w, 2), k) == Get(w, k)
  {
    KeysDiffer();
    var v1, v2, v3 := Min(0.8, Get(w, DistanceKey).value * 2.0), Min(0.8, Get(w, CostKey).value * 2.0),
                      Max(0.1, Get(w, EnvironmentKey).value * 0.5);
    assert Adjusted(w, 2) == Put(Put(Put(w, DistanceKey, v1), CostKey, v2), EnvironmentKey, v3);
    PutThree(w, DistanceKey, CostKey, EnvironmentKey, v1, v2, v3);
  }

  /** Three assignments in a row to three different present keys: each
      key holds its new value and every other key is untouched. */
  lemma PutThree(w: Weights, k1: string, k2: string, k3: string, v1: real, v2: real, v3: real)
    requires k1 != k2 && k1 != k3 && k2 != k3
    requires Has(w, k1) && Has(w, k2) && Has(w, k3)
    ensures var r := Put(Put(Put(w, k1, v1), k2, v2), k3, v3);
      && Get(r, k1) == Some(v1) && Get(r, k2) == Some(v2) && Get(r, k3) == Some(v3)
      && forall k :: k != k1 && k != k2 && k != k3 ==> Get(r, k) == Get(w, k)
  {
    var w1 := Put(w, k1, v1);
    var w2 := Put(w1, k2, v2);
    forall k {
      ThreePuts(w, w1, w2, k1, k2, k3, v1, v2, v3, k);
    }
  }

  /** Three assignments to three different present keys. */
  lemma ThreePuts(w: Weights, w1: Weights, w2: Weights, k1: string, k2: string, k3: string, v1: real, v2: real, v3: real, k: string)
    requires k1 != k2 && k1 != k3 && k2 != k3
    requires Has(w, k1) && Has(w, k2) && Has(w, k3)
    requires w1 == Put(w, k1, v1) && w2 == Put(w1, k2, v2)
    ensures Get(Put(w2, k3, v3), k) ==
      if k == k3 then Some(v3) else if k == k2 then Some(v2) else if k == k1 then Some(v1) else Get(w, k)
  {
    GetPut(w, k1, v1, k);
    GetPut(w1, k2, v2, k);
    GetPut(w2, k3, v3, k);
    GetPut(w, k1, v1, k2);
    GetPut(w, k1, v1, k3);
    GetPut(w1, k2, v2, k3);
  }

  // ---------------------------------------------------------------
  // The long-distance path

  /** int(distance / 0.3), kept within [5, 40]. */
  function NumSegments(distance: real): (n: int)
    ensures 5 <= n <= 40
  {
    var k := Trunc(distance / 0.3);
    if k < 5 then 5 else if k > 40 then 40 else k
  }

  /** A route longer than 2 km is cut into at least six segments. */
  lemma NumSegmentsOfLongRoute(distance: real)
    requires distance > 2.0
    ensures 6 <= NumSegments(distance)
    ensures distance <= 12.0 ==> NumSegments(distance) as real <= distance / 0.3 < NumSegments(distance) as real + 1.0
  {
  }

  /** The point at ratio r of the way from a to b. */
  function Interpolate(a: Pos, b: Pos, r: real): Pos
  {
    Pos(a.lat + (b.lat - a.lat) * r, a.lng + (b.lng - a.lng) * r)
  }

  /** The n + 1 evenly spaced waypoints on the straight line. */
  function InitialWaypoints(a: Pos, b: Pos, n: nat): (r: seq<Pos>)
    requires n >= 1
    ensures |r| == n + 1 && r[0] == a && r[n] == b
    ensures forall i :: 0 <= i <= n ==> r[i] == Interpolate(a, b, i as real / n as real)
  {
    assert n as real / n as real == 1.0;
    assert Interpolate(a, b, 1.0) == b;
    seq(n + 1, i requires 0 <= i <= n => Interpolate(a, b, i as real / n as real))
  }

  /** The best point of every waypoint. */
  function BestPoints(s: Setup, w: Weights, wps: seq<Pos>): (r: seq<Pos>)
    ensures |r| == |wps|
  {
    seq(|wps|, i requires 0 <= i < |wps| => BestPoint(s, w, wps[i]))
  }

  /** The optimised list after waypoints 1 .. k-1 were replaced by their
      best points bests[1 .. k-1], a best point being dropped when it
      repeats the last one kept. */
  function OptScan(first: Pos, bests: seq<Pos>, k: nat): (r: seq<Pos>)
    requires 1 <= k && (k < |bests| || k == 1)
    ensures |r| >= 1 && |r| <= k && r[0] == first
    decreases k
  {
    if k == 1 then [first]
    else
      var o := OptScan(first, bests, k - 1);
      if bests[k - 1] != o[|o| - 1] then o + [bests[k - 1]] else o
  }

  /** _optimize_waypoints_for_terrain: every interior waypoint replaced by
      its best point, the first and last waypoints kept. */
  function Optimized(s: Setup, w: Weights, wps: seq<Pos>): seq<Pos>
    requires |wps| >= 1
  {
    WithLast(OptScan(wps[0], BestPoints(s, w, wps), if |wps| >= 2 then |wps| - 1 else 1), wps[|wps| - 1])
  }

  /** The last point appended unless it is already the last one. */
  function WithLast(o: seq<Pos>, last: Pos): (r: seq<Pos>)
    requires |o| >= 1
    ensures |r| >= 1 && r[0] == o[0] && r[|r| - 1] == last
  {
    if last != o[|o| - 1] then o + [last] else o
  }

  /** One pass of the optimisation loop. */
  lemma OptScanNext(first: Pos, bests: seq<Pos>, i: nat, o: seq<Pos>)
    requires 1 <= i < |bests| - 1 && o == OptScan(first, bests, i)
    ensures bests[i] != o[|o| - 1] ==> OptScan(first, bests, i + 1) == o + [bests[i]]
    ensures bests[i] == o[|o| - 1] ==> OptScan(first, bests, i + 1) == o
  {
  }

  /** The last-point rule after the optimisation loop. */
  lemma OptimizedEnd(s: Setup, w: Weights, wps: seq<Pos>, i: nat, o: seq<Pos>)
    requires |wps| >= 1 && 1 <= i && (i <= |wps| - 1 || i == 1) && i >= |wps| - 1
    requires o == OptScan(wps[0], BestPoints(s, w, wps), i)
    ensures wps[|wps| - 1] != o[|o| - 1] ==> Optimized(s, w, wps) == o + [wps[|wps| - 1]]
    ensures wps[|wps| - 1] == o[|o| - 1] ==> Optimized(s, w, wps) == o
  {
    var k := if |wps| >= 2 then |wps| - 1 else 1;
    assert k == i;
    var r := Optimized(s, w, wps);
    if wps[|wps| - 1] != o[|o| - 1] {
      assert r == o + [wps[|wps| - 1]];
    } else {
      assert r == o;
    }
  }

  /** The partial list never repeats a point twice in a row, and each entry
      after the first is one of bests[1 .. k-1]. */
  lemma {:induction false} OptScanShape(first: Pos, bests: seq<Pos>, k: nat)
    requires 1 <= k && (k < |bests| || k == 1)
    ensures NoAdjacentDuplicates(OptScan(first, bests, k))
    ensures forall j :: 1 <= j < |OptScan(first, bests, k)| ==> OptScan(first, bests, k)[j] in bests[1..k]
    decreases k
  {
    if k > 1 {
      OptScanShape(first, bests, k - 1);
      var o := OptScan(first, bests, k - 1);
      if bests[k - 1] != o[|o| - 1] {
        var r := o + [bests[k - 1]];
        assert OptScan(first, bests, k) == r;
        forall j | 1 <= j < |r| ensures r[j] in bests[1..k] {
          if j < |o| {
            assert r[j] == o[j] && o[j] in bests[1..k - 1];
            assert bests[1..k - 1] <= bests[1..k];
          } else {
            assert r[j] == bests[1..k][k - 2];
          }
        }
      }
    }
  }

  /** The last-point rule applied to a partial list: the result runs from
      first to last, never repeats a point twice in a row, and its interior
      entries are among bests[1 .. k-1]. */
  lemma ScanWithLast(first: Pos, last: Pos, bests: seq<Pos>, k: nat)
    requires 1 <= k && (k < |bests| || k == 1)
    ensures var r := WithLast(OptScan(first, bests, k), last);
      |r| >= 1 && r[0] == first && r[|r| - 1] == last && |r| <= k + 1
    ensures k == 1 && last == first ==> |WithLast(OptScan(first, bests, k), last)| == 1
    ensures NoAdjacentDuplicates(WithLast(OptScan(first, bests, k), last))
    ensures var r := WithLast(OptScan(first, bests, k), last);
      forall j :: 1 <= j < |r| - 1 ==> r[j] in bests[1..k]
  {
    OptScanShape(first, bests, k);
    var o := OptScan(first, bests, k);
    if last != o[|o| - 1] {
      var r := o + [last];
      assert WithLast(o, last) == r;
      forall j | 0 < j < |r| ensures r[j - 1] != r[j] {
        if j < |o| {
          assert r[j - 1] == o[j - 1] && r[j] == o[j];
        }
      }
      forall j | 1 <= j < |r| - 1 ensures r[j] in bests[1..k] {
        assert r[j] == o[j];
      }
    } else {
      assert WithLast(o, last) == o;
    }
  }

  /** The optimised waypoints start and end where the waypoints do, never
      repeat a point twice in a row, are no more than the waypoints, and
      every interior one is the best point of some interior waypoint. */
  lemma OptimizedShape(s: Setup, w: Weights, wps: seq<Pos>)
    requires |wps| >= 1
    ensures var o := Optimized(s, w, wps);
      |o| >= 1 && o[0] == wps[0] && o[|o| - 1] == wps[|wps| - 1] && |o| <= |wps| &&
      NoAdjacentDuplicates(o) &&
      forall j :: 1 <= j < |o| - 1 ==> o[j] in BestPoints(s, w, wps)[1..|wps| - 1]
  {
    var k := if |wps| >= 2 then |wps| - 1 else 1;
    ScanWithLast(wps[0], wps[|wps| - 1], BestPoints(s, w, wps), k);
  }

  /** Entry i of BestPoints is the best point of waypoint i. */
  lemma BestPointsAt(s: Setup, w: Weights, wps: seq<Pos>, i: nat)
    requires i < |wps|
    ensures BestPoints(s, w, wps)[i] == BestPoint(s, w, wps[i])
  {
  }

  /** The segment loop of _find_path_adaptive over the first |opt| points:
      the path so far, which starts at the start and gains each segment end
      that differs from its last point, and the summed edge costs of the
      segments that are not a repeated point. */
  function Assembled(s: Setup, opt: seq<Pos>): (r: (seq<Pos>, CostVector))
    ensures |r.0| >= 1 && r.0[0] == s.start
  {
    if |opt| < 2 then ([s.start], ZeroCosts)
    else
      var (path, cost) := Assembled(s, opt[..|opt| - 1]);
      var a, b := opt[|opt| - 2], opt[|opt| - 1];
      if a == b then (path, cost)
      else (if b != path[|path| - 1] then path + [b] else path, cost.Plus(Edge(s, a, b)))
  }

  /** When the optimised waypoints start at the start and never repeat a
      point, the segment loop rebuilds exactly those waypoints and sums
      exactly their path cost. */
  lemma {:induction false} AssembledIsPath(s: Setup, opt: seq<Pos>)
    requires |opt| >= 1 && opt[0] == s.start && NoAdjacentDuplicates(opt)
    ensures Assembled(s, opt) == (opt, PathCost(s, opt))
    decreases |opt|
  {
    if |opt| >= 2 {
      var init := opt[..|opt| - 1];
      assert NoAdjacentDuplicates(init) by {
        forall k | 0 < k < |init| ensures init[k - 1] != init[k] {
          assert init[k - 1] == opt[k - 1] && init[k] == opt[k];
        }
      }
      AssembledIsPath(s, init);
      var a, b := opt[|opt| - 2], opt[|opt| - 1];
      assert init[|init| - 1] == a && a != b;
      assert init + [b] == opt;
      assert PathCost(s, opt) == PathCost(s, init).Plus(Edge(s, a, b));
      assert Assembled(s, opt) == (init + [b], PathCost(s, init).Plus(Edge(s, a, b)));
    } else {
      assert opt == [s.start];
    }
  }

  /** The sum of the terrain difficulty over the points of a path. */
  function DifficultySum(env: Env, path: seq<Pos>): real
  {
    if path == [] then 0.0 else DifficultySum(env, path[..|path| - 1]) + env.difficulty(path[|path| - 1])
  }

  /** The mean terrain difficulty of the points of a path. */
  function MeanDifficulty(env: Env, path: seq<Pos>): real
  {
    DifficultySum(env, path) / (if |path| > 0 then |path| as real else 1.0)
  }

  lemma {:induction false} DifficultySumBounds(env: Env, path: seq<Pos>)
    requires ScoresInRange(env)
    ensures 0.0 <= DifficultySum(env, path) <= |path| as real
    decreases |path|
  {
    if path != [] {
      DifficultySumBounds(env, path[..|path| - 1]);
    }
  }

  /** With scores in [0, 1], the mean difficulty lies in [0, 1]. */
  lemma MeanDifficultyBounds(env: Env, path: seq<Pos>)
    requires ScoresInRange(env)
    ensures 0.0 <= MeanDifficulty(env, path) <= 1.0
  {
    DifficultySumBounds(env, path);
  }

  // ---------------------------------------------------------------
  // Smoothing

  /** The keep rule of _smooth_path for the interior point i: a turn of
      more than 0.2 radians, a water crossing, a road, a difficulty above
      0.6, or a leg from the previous point longer than 0.8 km. */
  predicate KeepPoint(s: Setup, path: seq<Pos>, i: int)
    requires 1 <= i < |path| - 1
  {
    var prev, curr, next := path[i - 1], path[i], path[i + 1];
    var angle1 := s.atan2(curr.lat - prev.lat, curr.lng - prev.lng);
    var angle2 := s.atan2(next.lat - curr.lat, next.lng - curr.lng);
    Abs(angle1 - angle2) > 0.2 || s.env.water(curr).found || s.env.road(curr).found ||
    s.env.difficulty(curr) > 0.6 || s.hav(prev, curr) > 0.8
  }

  /** The keep rule at every position: false at the two end points. */
  function Keeps(s: Setup, path: seq<Pos>): (r: seq<bool>)
    ensures |r| == |path|
  {
    seq(|path|, i requires 0 <= i < |path| => 1 <= i < |path| - 1 && KeepPoint(s, path, i))
  }

  /** The smoothed list after the interior points 1 .. k-1 were considered:
      a point is kept when the keep rule holds there (keep) and it lies more
      than 0.05 km from the last kept point. */
  function SmoothScan(s: Setup, path: seq<Pos>, keep: seq<bool>, k: nat): (r: seq<Pos>)
    requires 1 <= k <= |path| - 1 && |keep| == |path|
    ensures |r| >= 1 && r[0] == path[0]
    decreases k
  {
    if k == 1 then [path[0]]
    else
      var sm := SmoothScan(s, path, keep, k - 1);
      if keep[k - 1] && s.hav(sm[|sm| - 1], path[k - 1]) > 0.05 then sm + [path[k - 1]] else sm
  }

  /** _smooth_path. */
  function Smoothed(s: Setup, path: seq<Pos>): seq<Pos>
  {
    if |path| <= 3 then path else SmoothScan(s, path, Keeps(s, path), |path| - 1) + [path[|path| - 1]]
  }

  /** r picks the entries idx of path, in increasing order. */
  ghost predicate Picks(path: seq<Pos>, r: seq<Pos>, idx: seq<int>)
  {
    && |idx| == |r|
    && (forall k :: 0 <= k < |idx| ==> 0 <= idx[k] < |path| && r[k] == path[idx[k]])
    && (forall k, l :: 0 <= k < l < |idx| ==> idx[k] < idx[l])
  }

  /** The positions in path of the points SmoothScan kept. */
  ghost function SmoothIndices(s: Setup, path: seq<Pos>, keep: seq<bool>, k: nat): seq<int>
    requires 1 <= k <= |path| - 1 && |keep| == |path|
    decreases k
  {
    if k == 1 then [0]
    else
      var sm := SmoothScan(s, path, keep, k - 1);
      if keep[k - 1] && s.hav(sm[|sm| - 1], path[k - 1]) > 0.05
      then SmoothIndices(s, path, keep, k - 1) + [k - 1]
      else SmoothIndices(s, path, keep, k - 1)
  }

  /** Picking one more entry, beyond those picked, keeps the picks in order. */
  lemma PicksAppend(path: seq<Pos>, r: seq<Pos>, idx: seq<int>, i: int)
    requires Picks(path, r, idx) && 0 <= i < |path|
    requires |idx| > 0 ==> idx[|idx| - 1] < i
    ensures Picks(path, r + [path[i]], idx + [i])
  {
    var r', idx' := r + [path[i]], idx + [i];
    assert forall k :: 0 <= k < |idx| ==> idx'[k] == idx[k] && r'[k] == r[k];
    assert forall k :: 0 <= k < |idx| ==> idx[k] <= idx[|idx| - 1];
  }

  /** One step of a scan that either picks entry i or skips it keeps the
      picks in order. */
  lemma PicksStep(path: seq<Pos>, r0: seq<Pos>, idx0: seq<int>, r: seq<Pos>, idx: seq<int>, i: int)
    requires Picks(path, r0, idx0) && 0 <= i < |path|
    requires |idx0| > 0 ==> idx0[|idx0| - 1] < i
    requires (r == r0 + [path[i]] && idx == idx0 + [i]) || (r == r0 && idx == idx0)
    ensures Picks(path, r, idx)
  {
    if r != r0 || idx != idx0 {
      PicksAppend(path, r0, idx0, i);
    }
  }

  /** One pass of the smoothing loop at interior point i. */
  lemma SmoothScanNext(s: Setup, path: seq<Pos>, keep: seq<bool>, i: nat, sm: seq<Pos>)
    requires 1 <= i < |path| - 1 && |keep| == |path| && sm == SmoothScan(s, path, keep, i)
    ensures keep[i] && s.hav(sm[|sm| - 1], path[i]) > 0.05 ==> SmoothScan(s, path, keep, i + 1) == sm + [path[i]]
    ensures !(keep[i] && s.hav(sm[|sm| - 1], path[i]) > 0.05) ==> SmoothScan(s, path, keep, i + 1) == sm
  {
  }

  /** One step of the smoothing scan and of its positions: entry k - 1 is
      either picked by both, where keep holds, or skipped by both. */
  lemma SmoothStep(s: Setup, path: seq<Pos>, keep: seq<bool>, k: nat)
    requires 2 <= k <= |path| - 1 && |keep| == |path|
    ensures || (SmoothScan(s, path, keep, k) == SmoothScan(s, path, keep, k - 1) + [path[k - 1]]
                && SmoothIndices(s, path, keep, k) == SmoothIndices(s, path, keep, k - 1) + [k - 1]
                && keep[k - 1])
            || (SmoothScan(s, path, keep, k) == SmoothScan(s, path, keep, k - 1)
                && SmoothIndices(s, path, keep, k) == SmoothIndices(s, path, keep, k - 1))
  {
  }

  /** The kept positions, one per kept point, start at the first point and
      lie below k. */
  lemma {:induction false} SmoothIndicesBounds(s: Setup, path: seq<Pos>, keep: seq<bool>, k: nat)
    requires 1 <= k <= |path| - 1 && |keep| == |path|
    ensures |SmoothIndices(s, path, keep, k)| == |SmoothScan(s, path, keep, k)|
    ensures SmoothIndices(s, path, keep, k)[0] == 0
    ensures SmoothIndices(s, path, keep, k)[|SmoothIndices(s, path, keep, k)| - 1] < k
    decreases k
  {
    if k > 1 {
      SmoothIndicesBounds(s, path, keep, k - 1);
      SmoothStep(s, path, keep, k);
    }
  }

  /** Each kept interior position lies below k and satisfies the keep rule. */
  lemma {:induction false} SmoothIndicesKeep(s: Setup, path: seq<Pos>, keep: seq<bool>, k: nat)
    requires 1 <= k <= |path| - 1 && |keep| == |path|
    ensures forall j :: 1 <= j < |SmoothIndices(s, path, keep, k)| ==>
      0 <= SmoothIndices(s, path, keep, k)[j] < k && keep[SmoothIndices(s, path, keep, k)[j]]
    decreases k
  {
    if k > 1 {
      SmoothIndicesKeep(s, path, keep, k - 1);
      SmoothStep(s, path, keep, k);
      var idx0 := SmoothIndices(s, path, keep, k - 1);
      var idx := SmoothIndices(s, path, keep, k);
      if idx != idx0 {
        forall j | 1 <= j < |idx| ensures 0 <= idx[j] < k && keep[idx[j]] {
          if j < |idx0| {
            assert idx[j] == idx0[j];
          } else {
            assert idx[j] == k - 1;
          }
        }
      }
    }
  }

  /** One step of the smoothing scan keeps the picks in order. */
  lemma SmoothPicksStep(s: Setup, path: seq<Pos>, keep: seq<bool>, k: nat)
    requires 2 <= k <= |path| - 1 && |keep| == |path|
    requires Picks(path, SmoothScan(s, path, keep, k - 1), SmoothIndices(s, path, keep, k - 1))
    ensures Picks(path, SmoothScan(s, path, keep, k), SmoothIndices(s, path, keep, k))
  {
    SmoothIndicesBounds(s, path, keep, k - 1);
    SmoothStep(s, path, keep, k);
    var sm0, idx0 := SmoothScan(s, path, keep, k - 1), SmoothIndices(s, path, keep, k - 1);
    var sm, idx := SmoothScan(s, path, keep, k), SmoothIndices(s, path, keep, k);
    PicksStep(path, sm0, idx0, sm, idx, k - 1);
  }

  /** The smoothed list picks the kept positions, in order. */
  lemma {:induction false} SmoothScanPicks(s: Setup, path: seq<Pos>, keep: seq<bool>, k: nat)
    requires 1 <= k <= |path| - 1 && |keep| == |path|
    ensures Picks(path, SmoothScan(s, path, keep, k), SmoothIndices(s, path, keep, k))
    decreases k
  {
    if k > 1 {
      SmoothScanPicks(s, path, keep, k - 1);
      SmoothPicksStep(s, path, keep, k);
    } else {
      assert SmoothScan(s, path, keep, 1) == [path[0]];
      assert SmoothIndices(s, path, keep, 1) == [0];
    }
  }

  /** The finished scan, with the last point appended, picks its positions
      in order, and each interior one is a position where keep holds. */
  lemma FinishedScanPicks(s: Setup, path: seq<Pos>, keep: seq<bool>)
    requires |path| > 3 && |keep| == |path|
    ensures var r := SmoothScan(s, path, keep, |path| - 1) + [path[|path| - 1]];
      var idx := SmoothIndices(s, path, keep, |path| - 1) + [|path| - 1];
      && Picks(path, r, idx) && |r| <= |path|
      && forall j :: 1 <= j < |idx| - 1 ==> 0 <= idx[j] < |path| && keep[idx[j]]
  {
    var k := |path| - 1;
    SmoothScanPicks(s, path, keep, k);
    SmoothIndicesBounds(s, path, keep, k);
    SmoothIndicesKeep(s, path, keep, k);
    var idx0 := SmoothIndices(s, path, keep, k);
    var idx := idx0 + [|path| - 1];
    var r := SmoothScan(s, path, keep, k) + [path[|path| - 1]];
    PicksAppend(path, SmoothScan(s, path, keep, k), idx0, |path| - 1);
    PicksLength(path, r, idx);
    assert forall j :: 1 <= j < |idx| - 1 ==> idx[j] == idx0[j];
  }

  /** A smoothed path of more than three points keeps the first and last
      point, picks the rest from the path in order, and keeps an interior
      point only when the keep rule holds there. */
  lemma SmoothedShape(s: Setup, path: seq<Pos>)
    requires |path| > 3
    ensures var r := Smoothed(s, path);
      |r| >= 2 && |r| <= |path| && r[0] == path[0] && r[|r| - 1] == path[|path| - 1]
    ensures exists idx ::
      Picks(path, Smoothed(s, path), idx) &&
      forall j :: 1 <= j < |idx| - 1 ==> 1 <= idx[j] < |path| - 1 && KeepPoint(s, path, idx[j])
  {
    var keep := Keeps(s, path);
    FinishedScanPicks(s, path, keep);
    var idx := SmoothIndices(s, path, keep, |path| - 1) + [|path| - 1];
    forall j | 1 <= j < |idx| - 1 ensures 1 <= idx[j] < |path| - 1 && KeepPoint(s, path, idx[j]) {
      assert keep[idx[j]];
    }
  }

  /** A strictly increasing choice of positions has at most |path| entries. */
  lemma {:induction false} PicksLength(path: seq<Pos>, r: seq<Pos>, idx: seq<int>)
    requires Picks(path, r, idx)
    ensures |r| <= |path|
    decreases |idx|
  {
    if |idx| > 0 {
      var n := |idx| - 1;
      assert forall k :: 0 <= k < n ==> idx[..n][k] == idx[k] < idx[n];
      PicksBelow(idx[..n], idx[n]);
      assert |r| == n + 1 && n <= idx[n] < |path|;
    }
  }

  /** m strictly increasing integers in [0, bound) need bound >= m. */
  lemma {:induction false} PicksBelow(idx: seq<int>, bound: int)
    requires bound >= 0
    requires forall k :: 0 <= k < |idx| ==> 0 <= idx[k] < bound
    requires forall k, l :: 0 <= k < l < |idx| ==> idx[k] < idx[l]
    ensures |idx| <= bound
    decreases |idx|
  {
    if |idx| > 0 {
      var n := |idx| - 1;
      assert forall k :: 0 <= k < n ==> idx[..n][k] == idx[k] < idx[n];
      PicksBelow(idx[..n], idx[n]);
    }
  }

  // ---------------------------------------------------------------
  // Metrics

  /** The metrics dictionary of a found path, or the error dictionary of a
      failed search. */
  datatype Metrics =
    | Metrics(totalDistance: real, estimatedCost: real, terrainDifficultyScore: real,
              environmentalImpactScore: real, estimatedConstructionTime: real,
              alternativeNum: Option<int>)
    | NoPath

  /** _reconstruct_path's metrics for a path of the given length and the
      cumulative costs of its end node; the construction time uses the
      terrain factor of the goal and a zero time is left unrounded. */
  function PathMetrics(total: real, g: CostVector, goalFactor: real): Metrics
  {
    var time := (total / 1000.0) * (1.0 + goalFactor * 0.5);
    Metrics(total, g.constructionCost, if total > 0.0 then g.terrainDifficulty / total else 0.0,
            g.environmentalImpact, if time != 0.0 then Round1(time) else 0.0, None)
  }

  /** _find_path_adaptive's metrics: the construction time uses the mean
      terrain factor of the final path and is always rounded. */
  function AdaptiveMetrics(total: real, cost: CostVector, meanFactor: real): Metrics
  {
    var time := (total / 1000.0) * (1.0 + meanFactor * 0.5);
    Metrics(total, cost.constructionCost, if total > 0.0 then cost.terrainDifficulty / total else 0.0,
            cost.environmentalImpact, Round1(time), None)
  }

  /** The terrain score is the terrain-weighted length per km of path; with
      difficulty in [0, 1] it lies in [1, 2] whenever the cost is the cost
      of the path itself. */
  lemma {:induction false} TerrainCostWithinLength(s: Setup, path: seq<Pos>)
    requires IsDistance(s.hav) && ScoresInRange(s.env)
    ensures Utils.PathLength(s.hav, path) <= PathCost(s, path).terrainDifficulty <= 2.0 * Utils.PathLength(s.hav, path)
    decreases |path|
  {
    if |path| >= 2 {
      TerrainCostWithinLength(s, path[..|path| - 1]);
      var a, b := path[|path| - 2], path[|path| - 1];
      var d, t := s.hav(a, b), s.env.difficulty(b);
      T.PortionWithin(d, t);
      assert d * (1.0 + t) == d + T.Portion(d, t);
      assert PathCost(s, path).terrainDifficulty == PathCost(s, path[..|path| - 1]).terrainDifficulty + d * (1.0 + t);
      assert Utils.PathLength(s.hav, path) == Utils.PathLength(s.hav, path[..|path| - 1]) + d;
    }
  }

  lemma TerrainScoreBounds(s: Setup, path: seq<Pos>)
    requires IsDistance(s.hav) && ScoresInRange(s.env) && Utils.PathLength(s.hav, path) > 0.0
    ensures var m := PathMetrics(Utils.PathLength(s.hav, path), PathCost(s, path), s.env.difficulty(s.goal));
      1.0 <= m.terrainDifficultyScore <= 2.0
  {
    TerrainCostWithinLength(s, path);
    var len := Utils.PathLength(s.hav, path);
    var t := PathCost(s, path).terrainDifficulty;
    assert len <= t <= 2.0 * len;
    DivisionWithin(t, len);
  }

  /** len <= t <= 2 len with len > 0 puts t / len in [1, 2]. */
  lemma DivisionWithin(t: real, len: real)
    requires len > 0.0 && len <= t <= 2.0 * len
    ensures 1.0 <= t / len <= 2.0
  {
    var q := t / len;
    assert q * len == t;
    assert (q - 1.0) * len == t - len;
    assert (2.0 - q) * len == 2.0 * len - t;
    FactorNonNegative(q - 1.0, len);
    FactorNonNegative(2.0 - q, len);
  }

  lemma FactorNonNegative(a: real, b: real)
    requires a * b >= 0.0 && b > 0.0
    ensures a >= 0.0
  {
    if a < 0.0 {
      SignOfProduct(a, b);
    }
  }

  lemma SignOfProduct(a: real, b: real)
    requires a < 0.0 && b > 0.0
    ensures a * b < 0.0
  {
  }
}
