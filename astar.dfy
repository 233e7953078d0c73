/** route_planner/a_star.py: the MultiCriteriaAStar engine as a class whose
    state is the criteria weights and the terrain-factor cache, with the
    grid search, the long-distance approach and the alternatives loop as
    methods, each proved against the specification in AStarSpec and
    SearchState. The terrain analyzer is the Env oracle of the engine's
    Setup. */
module AStar {
  import opened Base
  import opened Geo
  import opened Criteria
  import opened CostModel
  import opened AStarSpec
  import opened SearchState
  import Utils

  /** The weights after the first k alternatives were computed: each
      alternative starts from the weights the previous one left behind. */
  function WeightsAfter(w: Weights, k: nat): (r: Weights)
    requires WellFormedWeights(w)
    ensures WellFormedWeights(r) && Keys(r) == Keys(w)
    ensures k >= 1 ==> Sum(r) == 1.0
    decreases k
  {
    if k == 0 then w
    else
      var prev := WeightsAfter(w, k - 1);
      AlternativeWeightsWellFormed(prev, k);
      AlternativeWeights(prev, k)
  }

  /** The number of an alternative; 0 on the main route. */
  function Tag(m: Metrics): int
  {
    if m.Metrics? && m.alternativeNum.Some? then m.alternativeNum.value else 0
  }

  /** What a search after k weight adjustments may return. */
  type Outcome = (nat, seq<Pos>, Metrics) -> bool

  /** _find_single_path's outcome with the weights after k adjustments of
      the weights w. */
  ghost function SingleSearch(s: Setup, w: Weights): Outcome
  {
    (k: nat, p: seq<Pos>, m: Metrics) => WellFormedWeights(w) && SearchOutcome(s, WeightsAfter(w, k), p, m)
  }

  /** The alternatives that follow the main route: the last one has a
      non-empty path and a number in 1 .. n, is what a search found with
      the weights after that many adjustments, and those before it are
      numbered below it. */
  ghost predicate Numbered(found: Outcome, n: int, alts: seq<(seq<Pos>, Metrics)>)
    decreases |alts|
  {
    alts == [] ||
    var last := alts[|alts| - 1];
    && last.0 != [] && last.1.Metrics? && 1 <= Tag(last.1) <= n
    && found(Tag(last.1), last.0, last.1.(alternativeNum := None))
    && Numbered(found, Tag(last.1) - 1, alts[..|alts| - 1])
  }

  /** The alternatives loop after n searches, exactly: search k either
      came back empty and added nothing, or added its path, numbered k. */
  ghost predicate Collected(found: Outcome, n: int, alts: seq<(seq<Pos>, Metrics)>)
    decreases n
  {
    if n <= 0 then alts == []
    else
      || (found(n, [], NoPath) && Collected(found, n - 1, alts))
      || (alts != [] &&
          var last := alts[|alts| - 1];
          && last.0 != [] && last.1.Metrics? && Tag(last.1) == n
          && found(n, last.0, last.1.(alternativeNum := None))
          && Collected(found, n - 1, alts[..|alts| - 1]))
  }

  /** What find_paths returns, for the weights w it starts with: nothing
      when the main search fails; otherwise the main route first, then
      every alternative the n further searches found. */
  ghost predicate PathsOutcome(s: Setup, w: Weights, n: int, paths: seq<(seq<Pos>, Metrics)>)
    requires WellFormedWeights(w)
  {
    && (paths == [] ==> SearchOutcome(s, w, [], NoPath))
    && (paths != [] ==> paths[0].0 != [] && SearchOutcome(s, w, paths[0].0, paths[0].1)
                        && Collected(SingleSearch(s, w), if n > 0 then n else 0, paths[1..]))
  }

  /** There are at most n numbered alternatives. */
  lemma {:induction false} NumberedBound(found: Outcome, n: int, alts: seq<(seq<Pos>, Metrics)>)
    requires Numbered(found, n, alts)
    ensures |alts| <= if n > 0 then n else 0
    decreases |alts|
  {
    if alts != [] {
      var last := alts[|alts| - 1];
      NumberedBound(found, Tag(last.1) - 1, alts[..|alts| - 1]);
    }
  }

  /** Each numbered alternative was found, has a number in 1 .. n and was
      searched with the weights after that many adjustments. */
  lemma {:induction false} NumberedAt(found: Outcome, n: int, alts: seq<(seq<Pos>, Metrics)>, j: nat)
    requires Numbered(found, n, alts) && j < |alts|
    ensures alts[j].0 != [] && alts[j].1.Metrics? && 1 <= Tag(alts[j].1) <= n
    ensures found(Tag(alts[j].1), alts[j].0, alts[j].1.(alternativeNum := None))
    decreases |alts|
  {
    var init, last := alts[..|alts| - 1], alts[|alts| - 1];
    if j < |alts| - 1 {
      assert alts[j] == init[j];
      NumberedAt(found, Tag(last.1) - 1, init, j);
    }
  }

  /** The numbers of the alternatives increase strictly. */
  lemma {:induction false} NumberedOrder(found: Outcome, n: int, alts: seq<(seq<Pos>, Metrics)>, j: nat, l: nat)
    requires Numbered(found, n, alts) && j < l < |alts|
    ensures Tag(alts[j].1) < Tag(alts[l].1)
    decreases |alts|
  {
    var init, last := alts[..|alts| - 1], alts[|alts| - 1];
    assert alts[j] == init[j];
    if l < |alts| - 1 {
      assert alts[l] == init[l];
      NumberedOrder(found, Tag(last.1) - 1, init, j, l);
    } else {
      NumberedAt(found, Tag(last.1) - 1, init, j);
    }
  }

  /** A numbered list stays numbered under a larger bound. */
  lemma NumberedWiden(found: Outcome, n: int, alts: seq<(seq<Pos>, Metrics)>)
    requires Numbered(found, n, alts)
    ensures Numbered(found, n + 1, alts)
  {
  }

  /** An outcome that accepts, as alternative k, whatever a search with
      the weights after k adjustments of w0 may return. */
  ghost predicate Accepts(found: Outcome, s: Setup, w0: Weights)
  {
    && WellFormedWeights(w0)
    && forall k: nat, p: seq<Pos>, m: Metrics {:trigger SearchOutcome(s, WeightsAfter(w0, k), p, m)} ::
         SearchOutcome(s, WeightsAfter(w0, k), p, m) ==> found(k, p, m)
  }

  /** SingleSearch accepts every search it describes. */
  lemma SingleSearchAccepts(s: Setup, w0: Weights)
    requires WellFormedWeights(w0)
    ensures Accepts(SingleSearch(s, w0), s, w0)
  {
  }

  /** Before any search nothing is collected. */
  lemma CollectedNone(found: Outcome)
    ensures Collected(found, 0, [])
  {
  }

  /** The collected alternatives are numbered. */
  lemma {:induction false} CollectedNumbered(found: Outcome, n: nat, alts: seq<(seq<Pos>, Metrics)>)
    requires Collected(found, n, alts)
    ensures Numbered(found, n, alts)
    decreases n
  {
    if n > 0 {
      if found(n, [], NoPath) && Collected(found, n - 1, alts) {
        CollectedNumbered(found, n - 1, alts);
        NumberedWiden(found, n - 1, alts);
      } else {
        CollectedNumbered(found, n - 1, alts[..|alts| - 1]);
      }
    }
  }

  /** When no search k in 1 .. n can come back empty, every one of them
      contributes its alternative: there are exactly n. */
  lemma {:induction false} CollectedAll(found: Outcome, n: nat, alts: seq<(seq<Pos>, Metrics)>)
    requires Collected(found, n, alts)
    requires forall k: nat :: 1 <= k <= n ==> !found(k, [], NoPath)
    ensures |alts| == n
    decreases n
  {
    if n > 0 {
      assert !found(n, [], NoPath);
      CollectedAll(found, n - 1, alts[..|alts| - 1]);
    }
  }

  /** An accepted path, numbered i + 1 and appended, is search i + 1's
      contribution. */
  lemma CollectedAppend(found: Outcome, i: nat, alts: seq<(seq<Pos>, Metrics)>, p: seq<Pos>, m: Metrics)
    requires Collected(found, i, alts)
    requires p != [] && m.Metrics? && m.alternativeNum.None? && found(i + 1, p, m)
    ensures Collected(found, i + 1, alts + [(p, m.(alternativeNum := Some(i + 1)))])
  {
    var tagged := m.(alternativeNum := Some(i + 1));
    assert tagged.(alternativeNum := None) == m;
    var r := alts + [(p, tagged)];
    assert r[..|r| - 1] == alts;
  }

  /** A found alternative i + 1, numbered and appended, is collected. */
  lemma AlternativeFound(s: Setup, w0: Weights, found: Outcome, i: nat, alts: seq<(seq<Pos>, Metrics)>, p: seq<Pos>, m: Metrics)
    requires Accepts(found, s, w0) && Collected(found, i, alts)
    requires p != [] && m.Metrics? && m.alternativeNum.None? && SearchOutcome(s, WeightsAfter(w0, i + 1), p, m)
    ensures Collected(found, i + 1, alts + [(p, m.(alternativeNum := Some(i + 1)))])
  {
    CollectedAppend(found, i, alts, p, m);
  }

  /** An empty search always reports no path. */
  lemma EmptyIsNoPath(s: Setup, w: Weights, m: Metrics)
    requires SearchOutcome(s, w, [], m)
    ensures m == NoPath
  {
    if s.hav(s.start, s.goal) > 2.0 {
      AdaptiveEmpty(s, w, m);
    }
  }

  /** A search i + 1 that came back empty adds nothing. */
  lemma AlternativeMissing(s: Setup, w0: Weights, found: Outcome, i: nat, alts: seq<(seq<Pos>, Metrics)>, m: Metrics)
    requires Accepts(found, s, w0) && Collected(found, i, alts)
    requires SearchOutcome(s, WeightsAfter(w0, i + 1), [], m)
    ensures Collected(found, i + 1, alts)
  {
    EmptyIsNoPath(s, WeightsAfter(w0, i + 1), m);
  }

  /** Neither the direct path nor the long-distance approach ever comes
      back empty, whatever the weights. */
  lemma NeverEmpty(s: Setup, w: Weights)
    requires s.hav(s.start, s.goal) < 0.5 || s.hav(s.start, s.goal) > 2.0
    ensures !SearchOutcome(s, w, [], NoPath)
  {
    if s.hav(s.start, s.goal) > 2.0 {
      AdaptiveEmpty(s, w, NoPath);
    }
  }

  /** A search comes back empty, with the no-path error, exactly when it is
      the grid search and its loop runs out. */
  lemma SearchEmpty(s: Setup, w: Weights, m: Metrics)
    ensures SearchOutcome(s, w, [], m) <==> RunsOut(s, w) && m == NoPath
  {
    if s.hav(s.start, s.goal) > 2.0 {
      AdaptiveEmpty(s, w, m);
    }
  }

  /** A search that returns a path did not run out. */
  lemma SearchDecisive(s: Setup, w: Weights, p: seq<Pos>, m: Metrics)
    requires p != [] && SearchOutcome(s, w, p, m)
    ensures !RunsOut(s, w)
  {
  }

  /** No search both returns a path and comes back empty. */
  ghost predicate Decisive(found: Outcome)
  {
    forall k: nat, p: seq<Pos>, m: Metrics {:trigger found(k, p, m)} ::
      p != [] && found(k, p, m) ==> !found(k, [], NoPath)
  }

  lemma SingleSearchDecisive(s: Setup, w: Weights)
    requires WellFormedWeights(w)
    ensures Decisive(SingleSearch(s, w))
  {
    forall k: nat, p: seq<Pos>, m: Metrics | p != [] && SingleSearch(s, w)(k, p, m)
      ensures !SingleSearch(s, w)(k, [], NoPath)
    {
      SearchDecisive(s, WeightsAfter(w, k), p, m);
      SearchEmpty(s, WeightsAfter(w, k), NoPath);
    }
  }

  /** The numbers the alternatives carry. */
  ghost function Tags(alts: seq<(seq<Pos>, Metrics)>): set<int>
  {
    set j | 0 <= j < |alts| :: Tag(alts[j].1)
  }

  lemma TagsAppend(alts: seq<(seq<Pos>, Metrics)>, last: (seq<Pos>, Metrics))
    ensures Tags(alts + [last]) == Tags(alts) + {Tag(last.1)}
  {
    var r := alts + [last];
    assert r[|alts|] == last;
    forall j | 0 <= j < |alts| ensures r[j] == alts[j] {
    }
  }

  /** With decisive searches, alternative k is collected exactly when
      search k did not come back empty, and no other number occurs. */
  lemma {:induction false} CollectedTags(found: Outcome, n: nat, alts: seq<(seq<Pos>, Metrics)>)
    requires Collected(found, n, alts) && Decisive(found)
    ensures forall k :: k in Tags(alts) ==> 1 <= k <= n
    ensures forall k: nat :: 1 <= k <= n ==> (k in Tags(alts) <==> !found(k, [], NoPath))
    decreases n
  {
    if n > 0 {
      if found(n, [], NoPath) && Collected(found, n - 1, alts) {
        CollectedTags(found, n - 1, alts);
      } else {
        var front, last := alts[..|alts| - 1], alts[|alts| - 1];
        CollectedTags(found, n - 1, front);
        assert alts == front + [last];
        TagsAppend(front, last);
        assert found(n, last.0, last.1.(alternativeNum := None));
      }
    }
  }

  /** find_paths returns nothing exactly when the main search's grid loop
      runs out, and otherwise alternative k is among the routes exactly
      when search k did not run out. */
  lemma PathsExact(s: Setup, w: Weights, n: int, paths: seq<(seq<Pos>, Metrics)>)
    requires WellFormedWeights(w) && PathsOutcome(s, w, n, paths)
    ensures paths == [] <==> RunsOut(s, w)
    ensures paths != [] ==> forall k: nat :: 1 <= k <= n ==> (k in Tags(paths[1..]) <==> !RunsOut(s, WeightsAfter(w, k)))
  {
    if paths == [] {
      SearchEmpty(s, w, NoPath);
    } else {
      SearchDecisive(s, w, paths[0].0, paths[0].1);
      SingleSearchDecisive(s, w);
      var k0: nat := if n > 0 then n else 0;
      CollectedTags(SingleSearch(s, w), k0, paths[1..]);
      forall k: nat | 1 <= k <= n
        ensures k in Tags(paths[1..]) <==> !RunsOut(s, WeightsAfter(w, k))
      {
        SearchEmpty(s, WeightsAfter(w, k), NoPath);
      }
    }
  }

  /** find_paths on the direct and long-distance branches: the main route
      and exactly one alternative per requested one, numbered 1 .. n in
      order; in general the alternatives are numbered and at most n. */
  lemma PathsCount(s: Setup, w: Weights, n: int, paths: seq<(seq<Pos>, Metrics)>)
    requires WellFormedWeights(w) && PathsOutcome(s, w, n, paths)
    ensures paths != [] ==> Numbered(SingleSearch(s, w), n, paths[1..]) && |paths| <= 1 + (if n > 0 then n else 0)
    ensures s.hav(s.start, s.goal) < 0.5 || s.hav(s.start, s.goal) > 2.0 ==>
      paths != [] && |paths| == 1 + (if n > 0 then n else 0)
  {
    var k: nat := if n > 0 then n else 0;
    if paths != [] {
      CollectedNumbered(SingleSearch(s, w), k, paths[1..]);
      NumberedBound(SingleSearch(s, w), k, paths[1..]);
      assert Numbered(SingleSearch(s, w), n, paths[1..]) by {
        if n <= 0 { assert paths[1..] == []; }
      }
    }
    if s.hav(s.start, s.goal) < 0.5 || s.hav(s.start, s.goal) > 2.0 {
      NeverEmpty(s, w);
      forall j: nat | 1 <= j <= k ensures !SingleSearch(s, w)(j, [], NoPath) {
        NeverEmpty(s, WeightsAfter(w, j));
      }
      CollectedAll(SingleSearch(s, w), k, paths[1..]);
    }
  }

  /** The positions of a parent chain, empty for no node. */
  ghost function ChainOf(nodes: seq<SearchNode>, rank: seq<nat>, cur: Option<nat>): seq<Pos>
    requires Ranked(nodes, rank) && (cur.Some? ==> cur.value < |nodes|)
  {
    match cur
    case None => []
    case Some(i) => ChainPath(nodes, rank, i)
  }

  class MultiCriteriaAStar {
    const setup: Setup
    var criteriaWeights: Weights
    /** terrain_cache: the terrain factors looked up so far, by position. */
    var terrainCache: map<Pos, real>

    /** Every cached factor is the analyzer's answer for its position. */
    ghost predicate Valid()
      reads this
    {
      forall p :: p in terrainCache ==> terrainCache[p] == setup.env.difficulty(p)
    }

    constructor(setup: Setup, criteriaWeights: Weights)
      ensures Valid()
      ensures this.setup == setup && this.criteriaWeights == criteriaWeights && terrainCache == map[]
    {
      this.setup := setup;
      this.criteriaWeights := criteriaWeights;
      terrainCache := map[];
    }

    /** _get_terrain_factor: the cached factor, or the analyzer's
        difficulty, which is then cached. */
    method GetTerrainFactor(position: Pos) returns (tf: real)
      requires Valid()
      modifies this`terrainCache
      ensures Valid()
      ensures tf == setup.env.difficulty(position)
      ensures terrainCache == old(terrainCache)[position := tf]
    {
      if position in terrainCache {
        tf := terrainCache[position];
        assert terrainCache[position := tf] == terrainCache;
        return;
      }
      tf := setup.env.difficulty(position);
      terrainCache := terrainCache[position := tf];
    }

    /** calculate_h_score. */
    method CalculateHScore(position: Pos) returns (h: real)
      requires Valid()
      modifies this`terrainCache
      ensures Valid()
      ensures h == H(setup, position)
    {
      var distanceToGoal := setup.hav(position, setup.goal);
      var terrainFactor := GetTerrainFactor(position);
      h := distanceToGoal * (1.0 + terrainFactor * 0.3);
    }

    /** calculate_edge_cost: the step's distance, the neighbour's terrain
        factor through the cache and its accessibility, combined by the
        five formulas of EdgeCosts. */
    method CalculateEdgeCost(current: Pos, neighbor: Pos) returns (costs: CostVector)
      requires Valid()
      modifies this`terrainCache
      ensures Valid()
      ensures costs == Edge(setup, current, neighbor)
    {
      var distance := setup.hav(current, neighbor);
      var terrainDifficulty := GetTerrainFactor(neighbor);
      var accessibility := setup.env.accessibility(neighbor);
      costs := EdgeCosts(setup.pipe, distance, terrainDifficulty, accessibility);
    }

    /** combine_costs: the loop over the weights in their order. */
    method CombineCosts(costs: CostVector) returns (combined: real)
      ensures combined == Combine(criteriaWeights, costs)
    {
      combined := 0.0;
      var i := 0;
      while i < |criteriaWeights|
        invariant 0 <= i <= |criteriaWeights|
        invariant combined == Combine(criteriaWeights[..i], costs)
      {
        var (criterion, weight) := criteriaWeights[i];
        var entry := Lookup(costs, criterion);
        if entry.Some? {
          combined := combined + entry.value * weight;
        }
        CombineAppend(criteriaWeights[..i], criterion, weight, costs);
        assert criteriaWeights[..i + 1] == criteriaWeights[..i] + [(criterion, weight)];
        i := i + 1;
      }
      assert criteriaWeights[..i] == criteriaWeights;
    }

    /** get_neighbors: the eight grid moves of the given step (the base
        grid size when none is given) in lat-major order, each kept when
        valid or close to the goal, then the goal when it is near. */
    method GetNeighbors(position: Pos, gridSize: Option<real>) returns (neighbors: seq<Pos>)
      ensures neighbors == Neighbors(setup, position, if gridSize.Some? then gridSize.value else GridSize)
    {
      var s := setup;
      var step := GridSize;
      if gridSize.Some? {
        step := gridSize.value;
      }
      var offsets := [-step, 0.0, step];
      neighbors := [];
      var i := 0;
      while i < 3
        invariant 0 <= i <= 3
        invariant neighbors == GridScan(s, position, step, offsets[..i])
      {
        GridScanNext(s, position, step, offsets, i);
        neighbors := ScanRow(neighbors, position, step, offsets[i]);
        i := i + 1;
      }
      assert offsets[..3] == offsets;
      if s.hav(position, s.goal) < step * 4.0 {
        if s.goal !in neighbors {
          neighbors := neighbors + [s.goal];
        }
      }
    }

    /** The inner loop of get_neighbors for one latitude offset: the kept
        candidates of the row appended to the list. */
    method ScanRow(neighbors: seq<Pos>, position: Pos, step: real, dlat: real) returns (r: seq<Pos>)
      ensures r == neighbors + RowScan(setup, position, step, dlat, Offsets(step))
    {
      var s := setup;
      var offsets := [-step, 0.0, step];
      r := neighbors;
      var j := 0;
      while j < 3
        invariant 0 <= j <= 3
        invariant r == neighbors + RowScan(s, position, step, dlat, offsets[..j])
      {
        var dlng := offsets[j];
        RowScanNext(s, position, step, dlat, offsets, j);
        if !(dlat == 0.0 && dlng == 0.0) {
          var neighbor := Pos(position.lat + dlat, position.lng + dlng);
          if s.env.valid(neighbor) {
            r := r + [neighbor];
          } else if s.hav(neighbor, s.goal) < step * 3.0 {
            r := r + [neighbor];
          }
        }
        j := j + 1;
      }
      assert offsets[..3] == offsets;
    }

    /** One pass of the neighbour loop of the grid search. */
    method RelaxNeighbor(st: Search, c: nat, neighborPos: Pos) returns (r: Search)
      requires Valid() && c < |st.nodes| && IndexInRange(st)
      modifies this`terrainCache
      ensures Valid()
      ensures r == Relax(setup, criteriaWeights, st, c, neighborPos)
    {
      if neighborPos in st.closed {
        return st;
      }
      var current := st.nodes[c];
      var edgeCosts := CalculateEdgeCost(current.pos, neighborPos);
      var newG := current.g.Plus(edgeCosts);
      if neighborPos !in st.index {
        var combinedG := CombineCosts(newG);
        var h := CalculateHScore(neighborPos);
        var neighborNode := SearchNode(neighborPos, newG, combinedG + h, Some(c));
        r := Search(st.nodes + [neighborNode], st.index[neighborPos := |st.nodes|], st.open + [|st.nodes|], st.closed);
      } else {
        var m := st.index[neighborPos];
        var oldCombined := CombineCosts(st.nodes[m].g);
        var newCombined := CombineCosts(newG);
        if newCombined < oldCombined {
          var h := CalculateHScore(neighborPos);
          var neighborNode := SearchNode(neighborPos, newG, newCombined + h, Some(c));
          var open := if m in st.open then st.open else st.open + [m];
          r := Search(st.nodes[m := neighborNode], st.index, open, st.closed);
        } else {
          r := st;
        }
      }
    }

    /** The neighbour loop: every neighbour of the closed node c relaxed in
        turn, keeping the search invariants. */
    method ExpandNode(st: Search, ghost rank: seq<nat>, ghost clock: nat, c: nat, neighbors: seq<Pos>)
      returns (r: Search, ghost rank': seq<nat>)
      requires Valid() && Inv(setup, criteriaWeights, st, rank, clock)
      requires c < |st.nodes| && st.nodes[c].pos in st.closed
      requires forall q :: q in neighbors ==> Step(setup, st.nodes[c].pos, q)
      modifies this`terrainCache
      ensures Valid()
      ensures Inv(setup, criteriaWeights, r, rank', clock)
      ensures r == ExpandAll(setup, criteriaWeights, st, c, neighbors)
    {
      var s, w := setup, criteriaWeights;
      r := st;
      var i := 0;
      while i < |neighbors|
        invariant 0 <= i <= |neighbors|
        invariant Valid() && criteriaWeights == w
        invariant r == ExpandAll(s, w, st, c, neighbors[..i])
      {
        assert neighbors[..i + 1][..i] == neighbors[..i];
        r := RelaxNeighbor(r, c, neighbors[i]);
        i := i + 1;
      }
      assert neighbors[..i] == neighbors;
      rank' := ExpandAllInv(s, w, st, rank, clock, c, neighbors);
    }

    /** _reconstruct_path: the positions of the parent chain from the start
        down to end, with the metrics of that path and end's costs. */
    method ReconstructPath(nodes: seq<SearchNode>, ghost rank: seq<nat>, end: SearchNode)
      returns (path: seq<Pos>, metrics: Metrics)
      requires Valid() && Ranked(nodes, rank) && (end.parent.Some? ==> end.parent.value < |nodes|)
      modifies this`terrainCache
      ensures Valid()
      ensures path == ChainOf(nodes, rank, end.parent) + [end.pos]
      ensures metrics == PathMetrics(Utils.PathLength(setup.hav, path), end.g, setup.env.difficulty(setup.goal))
    {
      var s := setup;
      var backwards := [end.pos];
      var current: Option<nat> := end.parent;
      while current.Some?
        invariant Valid()
        invariant current.Some? ==> current.value < |nodes|
        invariant ChainOf(nodes, rank, current) + Reverse(backwards) == ChainOf(nodes, rank, end.parent) + [end.pos]
        decreases if current.Some? then rank[current.value] + 1 else 0
      {
        var node := nodes[current.value];
        ChainStep(nodes, rank, current.value, backwards);
        backwards := backwards + [node.pos];
        current := node.parent;
      }
      path := Reverse(backwards);
      var totalDistance := Utils.CalculateDistance(s.hav, path);
      var goalFactor := GetTerrainFactor(s.goal);
      metrics := PathMetrics(totalDistance, end.g, goalFactor);
    }

    /** The grid search of _find_single_path: pop the least f-score, stop
        within two grid steps of the goal, otherwise close the node and
        relax its neighbours; the step doubles at iteration 6000. */
    method GridSearch() returns (path: seq<Pos>, metrics: Metrics)
      requires Valid()
      modifies this`terrainCache
      ensures Valid()
      ensures GridResult(setup, criteriaWeights, path, metrics)
    {
      var s, w := setup, criteriaWeights;
      var startH := CalculateHScore(s.start);
      var st := Search([SearchNode(s.start, ZeroCosts, startH, None)], map[s.start := 0], [0], {});
      assert st == Initial(s);
      InitialInv(s, w);
      ghost var rank: seq<nat> := [0];
      ghost var clock: nat := 0;
      ghost var run := GridRun(s, w, Initial(s), 0);
      var iterations := 0;
      var currentGridSize := GridSize;
      while st.open != [] && iterations < MaxIterations
        invariant Valid() && w == criteriaWeights
        invariant Inv(s, w, st, rank, clock)
        invariant 0 <= iterations <= MaxIterations
        invariant currentGridSize == StepAt(iterations)
        invariant GridRun(s, w, st, iterations) == run
        decreases MaxIterations - iterations
      {
        var k, c, atGoal;
        iterations, currentGridSize, k, c, atGoal := PopStep(st, rank, clock, iterations, currentGridSize);
        if atGoal {
          path, metrics := GoalStop(st, rank, c);
          GridResultOf(s, w, run, path, metrics);
          return;
        }
        ghost var prev := st;
        st, rank := CloseAndExpand(st, rank, clock, k, currentGridSize);
        assert st == Expanded(s, w, prev, currentGridSize);
        clock := clock + 1;
      }
      GridRunDone(s, w, st, iterations);
      path, metrics := [], NoPath;
      GridResultOf(s, w, run, path, metrics);
    }

    /** The head of one grid-search iteration: the pop count goes up, the
        step doubles at the first multiple of 1000 past 5000, and the first
        open entry k of least f-score is popped; atGoal says whether its
        node c lies within two steps of the goal, which decides how the
        grid loop goes on. */
    method PopStep(st: Search, ghost rank: seq<nat>, ghost clock: nat, iterations: nat, currentGridSize: real)
      returns (next: nat, nextGridSize: real, k: nat, c: nat, atGoal: bool)
      requires Inv(setup, criteriaWeights, st, rank, clock)
      requires st.open != [] && iterations < MaxIterations && currentGridSize == StepAt(iterations)
      ensures next == iterations + 1 && nextGridSize == StepAt(next)
      ensures Poppable(st) && k == FirstMin(st.nodes, st.open) && c == st.open[k] && c < |st.nodes|
      ensures atGoal <==> setup.hav(st.nodes[c].pos, setup.goal) < nextGridSize * 2.0
      ensures atGoal ==> GridRun(setup, criteriaWeights, st, iterations) == Reached(st, c)
      ensures !atGoal ==>
        GridRun(setup, criteriaWeights, st, iterations) == GridRun(setup, criteriaWeights, Expanded(setup, criteriaWeights, st, nextGridSize), next)
    {
      var s, w := setup, criteriaWeights;
      InvPoppable(s, w, st, rank, clock);
      next := iterations + 1;
      nextGridSize := currentGridSize;
      if next % 1000 == 0 {
        if next > 5000 && nextGridSize == GridSize {
          nextGridSize := GridSize * 2.0;
        }
      }
      StepAtUpdate(next, currentGridSize);
      k := FirstMin(st.nodes, st.open);
      c := st.open[k];
      var current := st.nodes[c];
      var distToGoal := s.hav(current.pos, s.goal);
      atGoal := distToGoal < nextGridSize * 2.0;
      if atGoal {
        GridRunStops(s, w, st, iterations, nextGridSize, c);
      } else {
        GridRunGoesOn(s, w, st, iterations, nextGridSize, c);
      }
    }

    /** The goal branch of the grid search: the goal reached from node c,
        with the path and metrics rebuilt from the parent chain. */
    method GoalStop(st: Search, ghost rank: seq<nat>, c: nat) returns (path: seq<Pos>, metrics: Metrics)
      requires Valid() && LinksSound(setup, st) && Ranked(st.nodes, rank) && c < |st.nodes|
      requires setup.hav(st.nodes[c].pos, setup.goal) < 4.0 * GridSize
      modifies this`terrainCache
      ensures Valid()
      ensures criteriaWeights == old(criteriaWeights)
      ensures GoalRoute(setup, st, c, path, metrics) && GridRoute(setup, path, metrics)
    {
      var s := setup;
      var current := st.nodes[c];
      var finalEdgeCosts := CalculateEdgeCost(current.pos, s.goal);
      var goalNode := SearchNode(s.goal, current.g.Plus(finalEdgeCosts), 0.0, Some(c));
      path, metrics := ReconstructPath(st.nodes, rank, goalNode);
      GoalPath(s, st, rank, c, path, metrics);
    }

    /** The rest of one grid-search iteration: the least open entry k
        closed and its neighbours at the current step relaxed. */
    method CloseAndExpand(st: Search, ghost rank: seq<nat>, ghost clock: nat, k: nat, step: real)
      returns (r: Search, ghost rank': seq<nat>)
      requires Valid() && Inv(setup, criteriaWeights, st, rank, clock) && Poppable(st) && st.open != []
      requires k == FirstMin(st.nodes, st.open) && (step == GridSize || step == 2.0 * GridSize)
      modifies this`terrainCache
      ensures Valid()
      ensures criteriaWeights == old(criteriaWeights)
      ensures Inv(setup, criteriaWeights, r, rank', clock + 1)
      ensures r == Expanded(setup, criteriaWeights, st, step)
    {
      var s, w := setup, criteriaWeights;
      var c := st.open[k];
      var current := st.nodes[c];
      PopCloseInv(s, w, st, rank, clock, k);
      var closedSt := PopClose(st, k);
      var neighbors := GetNeighbors(current.pos, Some(step));
      r, rank' := ExpandNode(closedSt, rank, clock + 1, c, neighbors);
    }

    /** The evenly spaced waypoints of the long-distance approach. */
    method MakeWaypoints(a: Pos, b: Pos, numSegments: nat) returns (waypoints: seq<Pos>)
      requires numSegments >= 1
      ensures waypoints == InitialWaypoints(a, b, numSegments)
    {
      ghost var target := InitialWaypoints(a, b, numSegments);
      waypoints := [];
      var i := 0;
      while i < numSegments + 1
        invariant 0 <= i <= numSegments + 1
        invariant |waypoints| == i
        invariant forall j :: 0 <= j < i ==> waypoints[j] == target[j]
      {
        var ratio := i as real / numSegments as real;
        waypoints := waypoints + [Pos(a.lat + (b.lat - a.lat) * ratio, a.lng + (b.lng - a.lng) * ratio)];
        i := i + 1;
      }
    }

    /** The sampling loop of _optimize_waypoints_for_terrain for one
        waypoint: the waypoint and its compass samples, scored, and the
        first best of them. */
    method BestAlternative(current: Pos) returns (best: Pos)
      ensures best == BestPoint(setup, criteriaWeights, current)
    {
      var s, w := setup, criteriaWeights;
      ghost var target := Alternatives(s, w, current);
      AlternativesScored(s, w, current);
      var alternatives := [(current, Suitability(s.env, w, current))];
      var k := 0;
      while k < |s.compass|
        invariant 0 <= k <= |s.compass|
        invariant |alternatives| == k + 1
        invariant forall j :: 0 <= j <= k ==> alternatives[j] == target[j]
      {
        var altPoint := Sample(current, s.compass[k]);
        alternatives := alternatives + [(altPoint, Suitability(s.env, w, altPoint))];
        k := k + 1;
      }
      assert alternatives == target;
      best := alternatives[FirstMax(alternatives)].0;
    }

    /** _optimize_waypoints_for_terrain: the interior waypoints replaced,
        then the last waypoint appended unless it is already the last point. */
    method OptimizeWaypoints(waypoints: seq<Pos>) returns (optimized: seq<Pos>)
      requires |waypoints| >= 1
      ensures optimized == Optimized(setup, criteriaWeights, waypoints)
    {
      var s, w := setup, criteriaWeights;
      var i;
      optimized, i := OptimizeInterior(waypoints);
      OptimizedEnd(s, w, waypoints, i, optimized);
      if waypoints[|waypoints| - 1] != optimized[|optimized| - 1] {
        optimized := optimized + [waypoints[|waypoints| - 1]];
      }
    }

    /** The loop of _optimize_waypoints_for_terrain over the interior
        waypoints 1 .. |waypoints| - 2, and the index it stops at. */
    method OptimizeInterior(waypoints: seq<Pos>) returns (optimized: seq<Pos>, i: nat)
      requires |waypoints| >= 1
      ensures 1 <= i && (i <= |waypoints| - 1 || i == 1) && i >= |waypoints| - 1
      ensures optimized == OptScan(waypoints[0], BestPoints(setup, criteriaWeights, waypoints), i)
    {
      ghost var bests := BestPoints(setup, criteriaWeights, waypoints);
      optimized := [waypoints[0]];
      i := 1;
      while i < |waypoints| - 1
        invariant 1 <= i && (i <= |waypoints| - 1 || i == 1)
        invariant optimized == OptScan(waypoints[0], bests, i)
      {
        optimized := OptimizeStep(waypoints, i, optimized);
        i := i + 1;
      }
    }

    /** One pass of the loop of _optimize_waypoints_for_terrain: the best
        point of waypoint i appended unless it repeats the last one kept. */
    method OptimizeStep(waypoints: seq<Pos>, i: nat, optimized: seq<Pos>) returns (r: seq<Pos>)
      requires 1 <= i < |waypoints| - 1
      requires optimized == OptScan(waypoints[0], BestPoints(setup, criteriaWeights, waypoints), i)
      ensures r == OptScan(waypoints[0], BestPoints(setup, criteriaWeights, waypoints), i + 1)
    {
      var best := BestAlternative(waypoints[i]);
      BestPointsAt(setup, criteriaWeights, waypoints, i);
      OptScanNext(waypoints[0], BestPoints(setup, criteriaWeights, waypoints), i, optimized);
      r := optimized;
      if best != r[|r| - 1] {
        r := r + [best];
      }
    }

    /** The segment loop of _find_path_adaptive: the path from the start
        through the segment ends, and the summed edge costs. */
    method AssembleSegments(optimized: seq<Pos>) returns (fullPath: seq<Pos>, totalMetrics: CostVector)
      requires Valid() && |optimized| >= 1
      modifies this`terrainCache
      ensures Valid()
      ensures (fullPath, totalMetrics) == Assembled(setup, optimized)
    {
      var s := setup;
      fullPath := [s.start];
      totalMetrics := ZeroCosts;
      var i := 1;
      while i < |optimized|
        invariant 1 <= i <= |optimized|
        invariant Valid()
        invariant (fullPath, totalMetrics) == Assembled(s, optimized[..i])
      {
        var segmentStart, segmentGoal := optimized[i - 1], optimized[i];
        assert optimized[..i + 1][..i] == optimized[..i];
        if segmentStart != segmentGoal {
          var edgeCosts := CalculateEdgeCost(segmentStart, segmentGoal);
          totalMetrics := totalMetrics.Plus(edgeCosts);
          if segmentGoal != fullPath[|fullPath| - 1] {
            fullPath := fullPath + [segmentGoal];
          }
        }
        i := i + 1;
      }
      assert optimized[..i] == optimized;
    }

    /** _smooth_path: paths of at most three points are kept as they are;
        otherwise the kept interior points between the two end points. */
    method SmoothPath(path: seq<Pos>) returns (smoothed: seq<Pos>)
      ensures smoothed == Smoothed(setup, path)
    {
      if |path| <= 3 {
        return path;
      }
      smoothed := SmoothInterior(path);
      smoothed := smoothed + [path[|path| - 1]];
    }

    /** The loop of _smooth_path over the interior points: a point is kept
        when the keep rule holds there and it lies more than 0.05 km from
        the last point kept. */
    method SmoothInterior(path: seq<Pos>) returns (smoothed: seq<Pos>)
      requires |path| > 3
      ensures smoothed == SmoothScan(setup, path, Keeps(setup, path), |path| - 1)
    {
      var s := setup;
      ghost var keep := Keeps(s, path);
      smoothed := [path[0]];
      var i := 1;
      while i < |path| - 1
        invariant 1 <= i <= |path| - 1
        invariant smoothed == SmoothScan(s, path, keep, i)
      {
        var curr := path[i];
        SmoothScanNext(s, path, keep, i, smoothed);
        assert keep[i] == KeepPoint(s, path, i);
        if KeepPoint(s, path, i) {
          if s.hav(smoothed[|smoothed| - 1], curr) > 0.05 {
            smoothed := smoothed + [curr];
          }
        }
        i := i + 1;
      }
    }

    /** The averaging loop of _find_path_adaptive over the final path. */
    method MeanTerrainFactor(path: seq<Pos>) returns (avg: real)
      requires Valid()
      modifies this`terrainCache
      ensures Valid()
      ensures avg == MeanDifficulty(setup.env, path)
    {
      var s := setup;
      var total := 0.0;
      var i := 0;
      while i < |path|
        invariant 0 <= i <= |path|
        invariant Valid()
        invariant total == DifficultySum(s.env, path[..i])
      {
        var tf := GetTerrainFactor(path[i]);
        assert path[..i + 1][..i] == path[..i];
        total := total + tf;
        i := i + 1;
      }
      assert path[..i] == path;
      avg := total / (if |path| > 0 then |path| as real else 1.0);
    }

    /** _find_path_adaptive. */
    method FindPathAdaptive() returns (path: seq<Pos>, metrics: Metrics)
      requires Valid()
      modifies this`terrainCache
      ensures Valid()
      ensures AdaptiveOutcome(setup, criteriaWeights, path, metrics)
    {
      var s, w := setup, criteriaWeights;
      var directDistance := s.hav(s.start, s.goal);
      var numSegments := NumSegments(directDistance);
      var initialWaypoints := MakeWaypoints(s.start, s.goal, numSegments);
      var optimized := OptimizeWaypoints(initialWaypoints);
      var fullPath, totalMetrics := AssembleSegments(optimized);
      path, metrics := FinishAdaptive(fullPath, totalMetrics);
      AdaptiveOutcomeOf(s, w, optimized, fullPath, totalMetrics, path, metrics);
    }

    /** The end of _find_path_adaptive: the length of the assembled path,
        smoothing when it has more than ten points, and the metrics with the
        mean difficulty of the returned route. */
    method FinishAdaptive(fullPath: seq<Pos>, totalMetrics: CostVector) returns (path: seq<Pos>, metrics: Metrics)
      requires Valid()
      modifies this`terrainCache
      ensures Valid()
      ensures path == (if |fullPath| > 10 then Smoothed(setup, fullPath) else fullPath)
      ensures metrics == AdaptiveMetrics(Utils.PathLength(setup.hav, fullPath), totalMetrics, MeanDifficulty(setup.env, path))
    {
      var totalDistance := Utils.CalculateDistance(setup.hav, fullPath);
      path := fullPath;
      if |fullPath| > 10 {
        path := SmoothPath(fullPath);
      }
      var avgTerrainFactor := MeanTerrainFactor(path);
      metrics := AdaptiveMetrics(totalDistance, totalMetrics, avgTerrainFactor);
    }

    /** _find_single_path: the direct path under 0.5 km, the long-distance
        approach over 2 km, the grid search in between. */
    method FindSinglePath() returns (path: seq<Pos>, metrics: Metrics)
      requires Valid()
      modifies this`terrainCache
      ensures Valid()
      ensures SearchOutcome(setup, criteriaWeights, path, metrics)
      ensures path == [] <==> RunsOut(setup, criteriaWeights)
      ensures path != [] ==> metrics.Metrics? && metrics.alternativeNum.None?
    {
      var directDistance := setup.hav(setup.start, setup.goal);
      if directDistance < 0.5 {
        var startNode := SearchNode(setup.start, ZeroCosts, 0.0, None);
        var goalFactor := GetTerrainFactor(setup.goal);
        var goalCosts := EdgeCosts(setup.pipe, directDistance, goalFactor, setup.env.accessibility(setup.goal));
        var goalNode := SearchNode(setup.goal, goalCosts, 0.0, Some(0));
        path, metrics := ReconstructPath([startNode], [0], goalNode);
        ZeroPlus(goalCosts);
        assert path == [setup.start, setup.goal];
        return;
      } else if directDistance > 2.0 {
        path, metrics := FindPathAdaptive();
        return;
      }
      path, metrics := GridSearch();
    }

    /** find_paths: the main route, then, if it was found, the
        alternatives; the weights are left as the last adjustment set them. */
    method FindPaths(numAlternatives: int) returns (paths: seq<(seq<Pos>, Metrics)>)
      requires Valid() && WellFormedWeights(criteriaWeights)
      modifies this
      ensures Valid()
      ensures PathsOutcome(setup, old(criteriaWeights), numAlternatives, paths)
      ensures setup.hav(setup.start, setup.goal) < 0.5 || setup.hav(setup.start, setup.goal) > 2.0 ==>
        |paths| == 1 + (if numAlternatives > 0 then numAlternatives else 0)
      ensures paths == [] <==> RunsOut(setup, old(criteriaWeights))
      ensures paths != [] ==> forall k: nat :: 1 <= k <= numAlternatives ==>
        (k in Tags(paths[1..]) <==> !RunsOut(setup, WeightsAfter(old(criteriaWeights), k)))
      ensures criteriaWeights == if paths == [] then old(criteriaWeights)
                                 else WeightsAfter(old(criteriaWeights), if numAlternatives > 0 then numAlternatives else 0)
    {
      var s := setup;
      ghost var w0 := criteriaWeights;
      paths := [];
      var mainPath, mainMetrics := FindSinglePath();
      if mainPath != [] {
        SingleSearchAccepts(s, w0);
        var alts := FindAlternatives(numAlternatives, SingleSearch(s, w0));
        paths := [(mainPath, mainMetrics)] + alts;
        assert paths[1..] == alts;
      } else {
        assert mainMetrics == NoPath by {
          if s.hav(s.start, s.goal) > 2.0 {
            AdaptiveEmpty(s, w0, mainMetrics);
          }
        }
      }
      PathsCount(s, w0, numAlternatives, paths);
      PathsExact(s, w0, numAlternatives, paths);
    }

    /** The alternatives loop of find_paths: one search per alternative with
        the weights adjusted once more each time; only found alternatives
        are kept, numbered from 1. */
    method FindAlternatives(numAlternatives: int, ghost found: Outcome) returns (alts: seq<(seq<Pos>, Metrics)>)
      requires Valid() && Accepts(found, setup, criteriaWeights)
      modifies this
      ensures Valid()
      ensures Collected(found, if numAlternatives > 0 then numAlternatives else 0, alts)
      ensures criteriaWeights == WeightsAfter(old(criteriaWeights), if numAlternatives > 0 then numAlternatives else 0)
    {
      var s := setup;
      ghost var w0 := criteriaWeights;
      ghost var n: nat := if numAlternatives > 0 then numAlternatives else 0;
      alts := [];
      CollectedNone(found);
      var i := 0;
      while i < numAlternatives
        invariant 0 <= i <= n
        invariant Valid()
        invariant Accepts(found, setup, w0) && criteriaWeights == WeightsAfter(w0, i)
        invariant Collected(found, i, alts)
      {
        alts := NextAlternative(w0, found, i, alts);
        i := i + 1;
      }
      assert i == n;
    }

    /** One pass of the alternatives loop: the weights adjusted for
        alternative i + 1, a search with them, and its result appended,
        numbered, when a path was found. */
    method NextAlternative(ghost w0: Weights, ghost found: Outcome, i: nat, alts: seq<(seq<Pos>, Metrics)>)
      returns (r: seq<(seq<Pos>, Metrics)>)
      requires Valid() && Accepts(found, setup, w0) && criteriaWeights == WeightsAfter(w0, i)
      requires Collected(found, i, alts)
      modifies this
      ensures Valid() && criteriaWeights == WeightsAfter(w0, i + 1)
      ensures Collected(found, i + 1, r)
      ensures |alts| <= |r| <= |alts| + 1 && r[..|alts|] == alts
    {
      AdjustWeights(w0, i);
      r := SearchAlternative(w0, found, i, alts);
    }

    /** _get_alternative_weights applied to the current weights, which
        become the engine's weights. */
    method AdjustWeights(ghost w0: Weights, i: nat)
      requires WellFormedWeights(w0) && criteriaWeights == WeightsAfter(w0, i)
      modifies this`criteriaWeights
      ensures criteriaWeights == WeightsAfter(w0, i + 1)
    {
      AlternativeWeightsWellFormed(criteriaWeights, i + 1);
      var altWeights := AlternativeWeights(criteriaWeights, i + 1);
      criteriaWeights := altWeights;
    }

    /** The search for alternative i + 1 with the adjusted weights, its
        result appended, numbered, when a path was found. */
    method SearchAlternative(ghost w0: Weights, ghost found: Outcome, i: nat, alts: seq<(seq<Pos>, Metrics)>)
      returns (r: seq<(seq<Pos>, Metrics)>)
      requires Valid() && Accepts(found, setup, w0) && criteriaWeights == WeightsAfter(w0, i + 1)
      requires Collected(found, i, alts)
      modifies this`terrainCache
      ensures Valid()
      ensures Collected(found, i + 1, r)
      ensures |alts| <= |r| <= |alts| + 1 && r[..|alts|] == alts
    {
      var altPath, altMetrics := FindSinglePath();
      if altPath != [] {
        AlternativeFound(setup, w0, found, i, alts, altPath, altMetrics);
        r := alts + [(altPath, altMetrics.(alternativeNum := Some(i + 1)))];
      } else {
        AlternativeMissing(setup, w0, found, i, alts, altMetrics);
        r := alts;
      }
    }
  }

  lemma RowScanNext(s: Setup, p: Pos, step: real, dlat: real, o: seq<real>, j: nat)
    requires j < |o|
    ensures RowScan(s, p, step, dlat, o[..j + 1]) == RowScan(s, p, step, dlat, o[..j]) + Candidate(s, p, step, dlat, o[j])
  {
    assert o[..j + 1][..j] == o[..j];
  }

  lemma GridScanNext(s: Setup, p: Pos, step: real, o: seq<real>, i: nat)
    requires i < |o|
    ensures GridScan(s, p, step, o[..i + 1]) == GridScan(s, p, step, o[..i]) + RowScan(s, p, step, o[i], Offsets(step))
  {
    assert o[..i + 1][..i] == o[..i];
  }

  /** One step up a parent chain, as the reconstruction loop takes it. */
  lemma ChainStep(nodes: seq<SearchNode>, rank: seq<nat>, i: nat, backwards: seq<Pos>)
    requires Ranked(nodes, rank) && i < |nodes|
    ensures ChainOf(nodes, rank, Some(i)) + Reverse(backwards) ==
            ChainOf(nodes, rank, nodes[i].parent) + Reverse(backwards + [nodes[i].pos])
  {
    ReverseAppend(backwards, nodes[i].pos);
  }

  /** Stopping the grid search at node c with the goal node appended gives
      the grid outcome. */
  lemma GoalPath(s: Setup, st: Search, rank: seq<nat>, c: nat, path: seq<Pos>, metrics: Metrics)
    requires LinksSound(s, st) && Ranked(st.nodes, rank) && c < |st.nodes|
    requires s.hav(st.nodes[c].pos, s.goal) < 4.0 * GridSize
    requires path == ChainPath(st.nodes, rank, c) + [s.goal]
    requires metrics == PathMetrics(Utils.PathLength(s.hav, path), st.nodes[c].g.Plus(Edge(s, st.nodes[c].pos, s.goal)),
                                    s.env.difficulty(s.goal))
    ensures GridRoute(s, path, metrics)
  {
    var chain := ChainPath(st.nodes, rank, c);
    ChainFacts(s, st, rank, c);
    PathCostAppend(s, chain, s.goal);
    assert path[..|path| - 1] == chain;
  }

  /** The grid search fails exactly when its loop runs out, with the error
      dictionary; otherwise it returns a route of grid moves from the start
      to the goal with that route's metrics. */
  lemma GridResultRoute(s: Setup, w: Weights, path: seq<Pos>, m: Metrics)
    requires GridResult(s, w, path, m)
    ensures path == [] <==> GridRun(s, w, Initial(s), 0).Exhausted?
    ensures path == [] ==> m == NoPath
    ensures path != [] ==> GridRoute(s, path, m)
  {
    InitialInv(s, w);
    GridRunSound(s, w, Initial(s), [0], 0, 0);
    match GridRun(s, w, Initial(s), 0)
    case Exhausted =>
    case Reached(st, c) =>
      var rank :| Ranked(st.nodes, rank) && path == ChainPath(st.nodes, rank, c) + [s.goal];
      GoalPath(s, st, rank, c, path, m);
  }

  /** The long-distance approach never returns an empty path. */
  lemma AdaptiveEmpty(s: Setup, w: Weights, m: Metrics)
    ensures !AdaptiveOutcome(s, w, [], m)
  {
    var opt := Optimized(s, w, InitialWaypoints(s.start, s.goal, NumSegments(s.hav(s.start, s.goal))));
    var (full, cost) := Assembled(s, opt);
    if |full| > 10 {
      SmoothedShape(s, full);
    }
  }
}
