/** The state of _find_single_path's grid search in route_planner/a_star.py:
    the nodes created so far (an arena indexed by integers, a node's parent
    being the index of another node), node_dict as a map from position to
    index, the open list and the closed set, with the step that relaxes one
    neighbour, the step that pops and closes a node, and the invariants
    both keep. A ghost rank per node, smaller for a parent than for its
    child, shows that the parent links never cycle. */
module SearchState {
  import opened Base
  import opened Geo
  import opened Criteria
  import opened AStarSpec
  import Utils

  datatype SearchNode = SearchNode(pos: Pos, g: CostVector, f: real, parent: Option<nat>)

  datatype Search = Search(nodes: seq<SearchNode>, index: map<Pos, nat>, open: seq<nat>, closed: set<Pos>)

  /** calculate_h_score at p. */
  function H(s: Setup, p: Pos): real
  {
    HScore(s.hav(p, s.goal), s.env.difficulty(p))
  }

  /** One grid move, at the base step or at the doubled step. */
  predicate Step(s: Setup, a: Pos, b: Pos)
  {
    b in Neighbors(s, a, GridSize) || b in Neighbors(s, a, 2.0 * GridSize)
  }

  /** Every consecutive pair of the path is a grid move. */
  predicate Steps(s: Setup, path: seq<Pos>)
  {
    forall k :: 0 < k < |path| ==> Step(s, path[k - 1], path[k])
  }

  // ---------------------------------------------------------------
  // Parent chains

  /** Every parent is a node, with a smaller rank than its child. */
  ghost predicate Ranked(nodes: seq<SearchNode>, rank: seq<nat>)
  {
    && |rank| == |nodes|
    && forall i :: 0 <= i < |nodes| && nodes[i].parent.Some? ==>
         nodes[i].parent.value < |nodes| && rank[nodes[i].parent.value] < rank[i]
  }

  /** The positions from the root of i's parent chain down to i. */
  ghost function ChainPath(nodes: seq<SearchNode>, rank: seq<nat>, i: nat): (r: seq<Pos>)
    requires Ranked(nodes, rank) && i < |nodes|
    ensures |r| >= 1 && r[|r| - 1] == nodes[i].pos
    decreases rank[i]
  {
    match nodes[i].parent
    case None => [nodes[i].pos]
    case Some(p) => ChainPath(nodes, rank, p) + [nodes[i].pos]
  }

  // ---------------------------------------------------------------
  // Invariants

  /** node_dict maps each position to the one node at that position. */
  ghost predicate IndexSound(st: Search)
  {
    && (forall p :: p in st.index ==> st.index[p] < |st.nodes| && st.nodes[st.index[p]].pos == p)
    && (forall i :: 0 <= i < |st.nodes| ==> st.nodes[i].pos in st.index && st.index[st.nodes[i].pos] == i)
  }

  /** The open list holds distinct nodes, none of them closed. */
  ghost predicate OpenSound(st: Search)
  {
    && (forall k :: 0 <= k < |st.open| ==> st.open[k] < |st.nodes| && st.nodes[st.open[k]].pos !in st.closed)
    && (forall k, l :: 0 <= k < l < |st.open| ==> st.open[k] != st.open[l])
  }

  ghost predicate ClosedSound(st: Search)
  {
    forall p :: p in st.closed ==> p in st.index
  }

  /** Ranks never exceed the clock, which counts the closed nodes, and a
      closed node's rank lies below it. */
  ghost predicate RanksSound(st: Search, rank: seq<nat>, clock: nat)
  {
    && Ranked(st.nodes, rank)
    && forall i :: 0 <= i < |st.nodes| ==> rank[i] <= clock && (st.nodes[i].pos in st.closed ==> rank[i] < clock)
  }

  /** Node i hangs off a closed parent by one grid move, and its costs are
      its parent's costs plus the cost of that move; only the start node
      has no parent. */
  ghost predicate NodeLinked(s: Setup, st: Search, i: nat)
    requires i < |st.nodes|
  {
    match st.nodes[i].parent
    case None => i == 0 && st.nodes[i].pos == s.start && st.nodes[i].g == ZeroCosts
    case Some(p) =>
      && p < |st.nodes|
      && st.nodes[p].pos in st.closed
      && st.nodes[i].g == st.nodes[p].g.Plus(Edge(s, st.nodes[p].pos, st.nodes[i].pos))
      && Step(s, st.nodes[p].pos, st.nodes[i].pos)
  }

  ghost predicate LinksSound(s: Setup, st: Search)
  {
    forall i :: 0 <= i < |st.nodes| ==> NodeLinked(s, st, i)
  }

  /** Every f-score is the combined g-score plus the heuristic. */
  ghost predicate ScoresSound(s: Setup, w: Weights, st: Search)
  {
    forall i :: 0 <= i < |st.nodes| ==> st.nodes[i].f == Combine(w, st.nodes[i].g) + H(s, st.nodes[i].pos)
  }

  ghost predicate Inv(s: Setup, w: Weights, st: Search, rank: seq<nat>, clock: nat)
  {
    && IndexSound(st) && OpenSound(st) && ClosedSound(st) && RanksSound(st, rank, clock)
    && LinksSound(s, st) && ScoresSound(s, w, st)
  }

  // ---------------------------------------------------------------
  // The search steps

  /** The state before the first iteration: the start node alone, open. */
  function Initial(s: Setup): Search
  {
    Search([SearchNode(s.start, ZeroCosts, H(s, s.start), None)], map[s.start := 0], [0], {})
  }

  lemma InitialInv(s: Setup, w: Weights)
    ensures Inv(s, w, Initial(s), [0], 0)
  {
    CombineOfZeroCosts(w);
  }

  predicate IndexInRange(st: Search)
  {
    forall p :: p in st.index ==> st.index[p] < |st.nodes|
  }

  /** The g-score neighbour q gets through node c. */
  function Through(s: Setup, st: Search, c: nat, q: Pos): CostVector
    requires c < |st.nodes|
  {
    st.nodes[c].g.Plus(Edge(s, st.nodes[c].pos, q))
  }

  /** The loop body of one neighbour q of the current node c: a closed
      neighbour is skipped, an unknown one becomes a new open node, and a
      known one takes the new parent and scores only when the combined cost
      strictly improves, going back on the open list if it is not there. */
  function Relax(s: Setup, w: Weights, st: Search, c: nat, q: Pos): (r: Search)
    requires c < |st.nodes| && IndexInRange(st)
    ensures IndexInRange(r) && |r.nodes| >= |st.nodes| && r.closed == st.closed
  {
    if q in st.closed then st
    else
      var g := Through(s, st, c, q);
      var node := SearchNode(q, g, Combine(w, g) + H(s, q), Some(c));
      if q !in st.index then
        Search(st.nodes + [node], st.index[q := |st.nodes|], st.open + [|st.nodes|], st.closed)
      else
        var m := st.index[q];
        if Combine(w, g) < Combine(w, st.nodes[m].g) then
          Search(st.nodes[m := node], st.index, if m in st.open then st.open else st.open + [m], st.closed)
        else st
  }

  /** The neighbour loop: every neighbour relaxed in turn. */
  function ExpandAll(s: Setup, w: Weights, st: Search, c: nat, nbrs: seq<Pos>): (r: Search)
    requires c < |st.nodes| && IndexInRange(st)
    ensures IndexInRange(r) && |r.nodes| >= |st.nodes| && r.closed == st.closed
  {
    if nbrs == [] then st
    else Relax(s, w, ExpandAll(s, w, st, c, nbrs[..|nbrs| - 1]), c, nbrs[|nbrs| - 1])
  }

  /** The ranks after Relax: a new or re-parented node gets the clock. */
  ghost function RelaxRank(s: Setup, w: Weights, st: Search, rank: seq<nat>, clock: nat, c: nat, q: Pos): seq<nat>
    requires c < |st.nodes| && IndexInRange(st) && |rank| == |st.nodes|
  {
    if q in st.closed then rank
    else if q !in st.index then rank + [clock]
    else if Combine(w, Through(s, st, c, q)) < Combine(w, st.nodes[st.index[q]].g) then rank[st.index[q] := clock]
    else rank
  }

  /** The node Relax stores for a neighbour reached through the closed
      node c. */
  ghost predicate FreshLink(s: Setup, w: Weights, st: Search, c: nat, node: SearchNode)
  {
    && c < |st.nodes| && st.nodes[c].pos in st.closed && node.pos !in st.closed
    && node.parent == Some(c)
    && node.g == st.nodes[c].g.Plus(Edge(s, st.nodes[c].pos, node.pos))
    && Step(s, st.nodes[c].pos, node.pos)
    && node.f == Combine(w, node.g) + H(s, node.pos)
  }

  lemma AppendIndexOpen(st: Search, node: SearchNode)
    requires IndexSound(st) && OpenSound(st) && ClosedSound(st)
    requires node.pos !in st.index && node.pos !in st.closed
    ensures var r := Search(st.nodes + [node], st.index[node.pos := |st.nodes|], st.open + [|st.nodes|], st.closed);
      IndexSound(r) && OpenSound(r) && ClosedSound(r)
  {
    var r := Search(st.nodes + [node], st.index[node.pos := |st.nodes|], st.open + [|st.nodes|], st.closed);
    assert forall i :: 0 <= i < |st.nodes| ==> r.nodes[i] == st.nodes[i];
  }

  lemma AppendLinks(s: Setup, w: Weights, st: Search, rank: seq<nat>, clock: nat, c: nat, node: SearchNode, index': map<Pos, nat>, open': seq<nat>)
    requires RanksSound(st, rank, clock) && LinksSound(s, st) && ScoresSound(s, w, st)
    requires FreshLink(s, w, st, c, node)
    ensures var r := Search(st.nodes + [node], index', open', st.closed);
      RanksSound(r, rank + [clock], clock) && LinksSound(s, r) && ScoresSound(s, w, r)
  {
    var r := Search(st.nodes + [node], index', open', st.closed);
    var rank' := rank + [clock];
    var n := |st.nodes|;
    assert forall i :: 0 <= i < n ==> r.nodes[i] == st.nodes[i] && rank'[i] == rank[i];
    forall i | 0 <= i < |r.nodes| ensures NodeLinked(s, r, i) {
      if i < n {
        assert NodeLinked(s, st, i);
      }
    }
  }

  /** Storing a new node keeps every invariant. */
  lemma AppendInv(s: Setup, w: Weights, st: Search, rank: seq<nat>, clock: nat, c: nat, node: SearchNode)
    requires Inv(s, w, st, rank, clock) && FreshLink(s, w, st, c, node) && node.pos !in st.index
    ensures Inv(s, w, Search(st.nodes + [node], st.index[node.pos := |st.nodes|], st.open + [|st.nodes|], st.closed),
                rank + [clock], clock)
  {
    AppendIndexOpen(st, node);
    AppendLinks(s, w, st, rank, clock, c, node, st.index[node.pos := |st.nodes|], st.open + [|st.nodes|]);
  }

  lemma ReplaceIndexOpen(st: Search, m: nat, node: SearchNode, open': seq<nat>)
    requires IndexSound(st) && OpenSound(st) && ClosedSound(st)
    requires m < |st.nodes| && st.nodes[m].pos == node.pos && node.pos !in st.closed
    requires open' == (if m in st.open then st.open else st.open + [m])
    ensures var r := Search(st.nodes[m := node], st.index, open', st.closed);
      IndexSound(r) && OpenSound(r) && ClosedSound(r)
  {
    var r := Search(st.nodes[m := node], st.index, open', st.closed);
    assert forall i :: 0 <= i < |st.nodes| ==> r.nodes[i].pos == st.nodes[i].pos;
  }

  lemma ReplaceRanks(s: Setup, w: Weights, st: Search, rank: seq<nat>, clock: nat, c: nat, m: nat, node: SearchNode, open': seq<nat>)
    requires RanksSound(st, rank, clock) && LinksSound(s, st)
    requires FreshLink(s, w, st, c, node) && m < |st.nodes| && st.nodes[m].pos == node.pos
    ensures RanksSound(Search(st.nodes[m := node], st.index, open', st.closed), rank[m := clock], clock)
  {
    var r := Search(st.nodes[m := node], st.index, open', st.closed);
    var rank' := rank[m := clock];
    forall i | 0 <= i < |r.nodes| && r.nodes[i].parent.Some?
      ensures r.nodes[i].parent.value < |r.nodes| && rank'[r.nodes[i].parent.value] < rank'[i]
    {
      if i != m {
        assert NodeLinked(s, st, i);
      }
    }
  }

  lemma ReplaceLinks(s: Setup, w: Weights, st: Search, c: nat, m: nat, node: SearchNode, open': seq<nat>)
    requires LinksSound(s, st) && ScoresSound(s, w, st)
    requires FreshLink(s, w, st, c, node) && m < |st.nodes| && st.nodes[m].pos == node.pos
    ensures var r := Search(st.nodes[m := node], st.index, open', st.closed);
      LinksSound(s, r) && ScoresSound(s, w, r)
  {
    var r := Search(st.nodes[m := node], st.index, open', st.closed);
    forall i | 0 <= i < |r.nodes| ensures NodeLinked(s, r, i) {
      if i != m {
        assert NodeLinked(s, st, i);
        assert r.nodes[i] == st.nodes[i];
        assert st.nodes[i].parent.Some? ==> st.nodes[i].parent.value != m;
      }
    }
  }

  /** Giving a known, unclosed node a better parent keeps every invariant,
      whether or not it goes back on the open list. */
  lemma ReplaceInv(s: Setup, w: Weights, st: Search, rank: seq<nat>, clock: nat, c: nat, m: nat, node: SearchNode, open': seq<nat>)
    requires Inv(s, w, st, rank, clock) && FreshLink(s, w, st, c, node)
    requires m < |st.nodes| && st.nodes[m].pos == node.pos
    requires open' == (if m in st.open then st.open else st.open + [m])
    ensures Inv(s, w, Search(st.nodes[m := node], st.index, open', st.closed), rank[m := clock], clock)
  {
    ReplaceIndexOpen(st, m, node, open');
    ReplaceRanks(s, w, st, rank, clock, c, m, node, open');
    ReplaceLinks(s, w, st, c, m, node, open');
  }

  /** The node Relax builds for neighbour q of node c. */
  function Relaxed(s: Setup, w: Weights, st: Search, c: nat, q: Pos): SearchNode
    requires c < |st.nodes|
  {
    SearchNode(q, Through(s, st, c, q), Combine(w, Through(s, st, c, q)) + H(s, q), Some(c))
  }

  /** Relax and RelaxRank branch by branch. */
  lemma RelaxShape(s: Setup, w: Weights, st: Search, rank: seq<nat>, clock: nat, c: nat, q: Pos)
    requires c < |st.nodes| && IndexInRange(st) && |rank| == |st.nodes|
    ensures q in st.closed ==> Relax(s, w, st, c, q) == st && RelaxRank(s, w, st, rank, clock, c, q) == rank
    ensures q !in st.closed && q !in st.index ==>
      && Relax(s, w, st, c, q) == Search(st.nodes + [Relaxed(s, w, st, c, q)], st.index[q := |st.nodes|], st.open + [|st.nodes|], st.closed)
      && RelaxRank(s, w, st, rank, clock, c, q) == rank + [clock]
    ensures q !in st.closed && q in st.index && Combine(w, Through(s, st, c, q)) < Combine(w, st.nodes[st.index[q]].g) ==>
      && Relax(s, w, st, c, q) == Search(st.nodes[st.index[q] := Relaxed(s, w, st, c, q)], st.index,
                                         if st.index[q] in st.open then st.open else st.open + [st.index[q]], st.closed)
      && RelaxRank(s, w, st, rank, clock, c, q) == rank[st.index[q] := clock]
    ensures q !in st.closed && q in st.index && Combine(w, Through(s, st, c, q)) >= Combine(w, st.nodes[st.index[q]].g) ==>
      Relax(s, w, st, c, q) == st && RelaxRank(s, w, st, rank, clock, c, q) == rank
  {
  }

  /** Relaxing a grid neighbour of a closed node keeps every invariant. */
  lemma RelaxInv(s: Setup, w: Weights, st: Search, rank: seq<nat>, clock: nat, c: nat, q: Pos)
    requires Inv(s, w, st, rank, clock)
    requires c < |st.nodes| && st.nodes[c].pos in st.closed && Step(s, st.nodes[c].pos, q)
    ensures Inv(s, w, Relax(s, w, st, c, q), RelaxRank(s, w, st, rank, clock, c, q), clock)
    ensures |Relax(s, w, st, c, q).nodes| >= |st.nodes|
    ensures Relax(s, w, st, c, q).closed == st.closed
    ensures Relax(s, w, st, c, q).nodes[c] == st.nodes[c]
  {
    RelaxShape(s, w, st, rank, clock, c, q);
    if q !in st.closed {
      var node := Relaxed(s, w, st, c, q);
      assert FreshLink(s, w, st, c, node);
      if q !in st.index {
        AppendInv(s, w, st, rank, clock, c, node);
      } else if Combine(w, Through(s, st, c, q)) < Combine(w, st.nodes[st.index[q]].g) {
        var m := st.index[q];
        ReplaceInv(s, w, st, rank, clock, c, m, node, if m in st.open then st.open else st.open + [m]);
      }
    }
  }


  /** The whole neighbour loop keeps every invariant, with the ranks it
      hands out, and leaves the closed node and the closed set alone. */
  lemma {:induction false} ExpandAllInv(s: Setup, w: Weights, st: Search, rank: seq<nat>, clock: nat, c: nat, nbrs: seq<Pos>)
    returns (rank': seq<nat>)
    requires Inv(s, w, st, rank, clock)
    requires c < |st.nodes| && st.nodes[c].pos in st.closed
    requires forall q :: q in nbrs ==> Step(s, st.nodes[c].pos, q)
    ensures Inv(s, w, ExpandAll(s, w, st, c, nbrs), rank', clock)
    ensures ExpandAll(s, w, st, c, nbrs).nodes[c] == st.nodes[c]
  {
    if nbrs == [] {
      rank' := rank;
    } else {
      var front := nbrs[..|nbrs| - 1];
      assert forall q :: q in front ==> q in nbrs;
      var rank0 := ExpandAllInv(s, w, st, rank, clock, c, front);
      var r0 := ExpandAll(s, w, st, c, front);
      assert nbrs[|nbrs| - 1] in nbrs;
      RelaxInv(s, w, r0, rank0, clock, c, nbrs[|nbrs| - 1]);
      rank' := RelaxRank(s, w, r0, rank0, clock, c, nbrs[|nbrs| - 1]);
    }
  }

  /** The position in the open list of the first node with the least
      f-score. */
  function FirstMin(nodes: seq<SearchNode>, open: seq<nat>): (k: nat)
    requires |open| >= 1 && forall j :: 0 <= j < |open| ==> open[j] < |nodes|
    ensures k < |open|
    ensures forall j :: 0 <= j < |open| ==> nodes[open[k]].f <= nodes[open[j]].f
    ensures forall j :: 0 <= j < k ==> nodes[open[j]].f > nodes[open[k]].f
  {
    if |open| == 1 then 0
    else
      var k := FirstMin(nodes, open[..|open| - 1]);
      assert forall j :: 0 <= j < |open| - 1 ==> open[..|open| - 1][j] == open[j];
      if nodes[open[|open| - 1]].f < nodes[open[k]].f then |open| - 1 else k
  }

  /** heappop: the open list without its k-th entry. */
  function Without(open: seq<nat>, k: nat): (r: seq<nat>)
    requires k < |open|
    ensures |r| == |open| - 1
    ensures forall j :: 0 <= j < |r| ==> r[j] == (if j < k then open[j] else open[j + 1])
  {
    open[..k] + open[k + 1..]
  }

  /** Popping the k-th open node and closing its position. */
  function PopClose(st: Search, k: nat): Search
    requires k < |st.open| && st.open[k] < |st.nodes|
  {
    Search(st.nodes, st.index, Without(st.open, k), st.closed + {st.nodes[st.open[k]].pos})
  }

  lemma PopCloseOpen(st: Search, k: nat)
    requires IndexSound(st) && OpenSound(st) && k < |st.open|
    ensures OpenSound(PopClose(st, k))
  {
    var r := PopClose(st, k);
    var c := st.open[k];
    forall j | 0 <= j < |r.open| ensures r.open[j] < |r.nodes| && r.nodes[r.open[j]].pos !in r.closed {
      var j' := if j < k then j else j + 1;
      assert r.open[j] == st.open[j'] && st.open[j'] != c;
      assert st.index[st.nodes[c].pos] == c && st.index[st.nodes[st.open[j']].pos] == st.open[j'];
    }
    forall j, l | 0 <= j < l < |r.open| ensures r.open[j] != r.open[l] {
      var j' := if j < k then j else j + 1;
      var l' := if l < k then l else l + 1;
      assert r.open[j] == st.open[j'] && r.open[l] == st.open[l'];
    }
  }

  lemma PopCloseLinks(s: Setup, st: Search, k: nat)
    requires LinksSound(s, st) && k < |st.open| && st.open[k] < |st.nodes|
    ensures LinksSound(s, PopClose(st, k))
  {
    var r := PopClose(st, k);
    forall i | 0 <= i < |r.nodes| ensures NodeLinked(s, r, i) {
      assert NodeLinked(s, st, i);
    }
  }

  /** Closing the popped node keeps every invariant, with the clock one
      further on. */
  lemma PopCloseInv(s: Setup, w: Weights, st: Search, rank: seq<nat>, clock: nat, k: nat)
    requires Inv(s, w, st, rank, clock) && k < |st.open|
    ensures Inv(s, w, PopClose(st, k), rank, clock + 1)
  {
    PopCloseOpen(st, k);
    PopCloseLinks(s, st, k);
  }

  // ---------------------------------------------------------------
  // What a chain of parents means

  /** The parent chain of any node is a route of grid moves from the start
      to that node, and the node's g-score is the cost of that route. */
  lemma {:induction false} ChainFacts(s: Setup, st: Search, rank: seq<nat>, i: nat)
    requires LinksSound(s, st) && Ranked(st.nodes, rank) && i < |st.nodes|
    ensures var path := ChainPath(st.nodes, rank, i);
      path[0] == s.start && Steps(s, path) && st.nodes[i].g == PathCost(s, path)
    decreases rank[i]
  {
    assert NodeLinked(s, st, i);
    var path := ChainPath(st.nodes, rank, i);
    match st.nodes[i].parent
    case None =>
      assert path == [s.start];
    case Some(p) =>
      ChainFacts(s, st, rank, p);
      var init := ChainPath(st.nodes, rank, p);
      assert path == init + [st.nodes[i].pos];
      PathCostAppend(s, init, st.nodes[i].pos);
      assert Steps(s, path) by {
        forall k | 0 < k < |path| ensures Step(s, path[k - 1], path[k]) {
          if k < |init| {
            assert path[k - 1] == init[k - 1] && path[k] == init[k];
          }
        }
      }
  }

  /** list.reverse(). */
  function Reverse(xs: seq<Pos>): (r: seq<Pos>)
    ensures |r| == |xs|
  {
    if xs == [] then [] else [xs[|xs| - 1]] + Reverse(xs[..|xs| - 1])
  }

  /** Reversing puts entry k at position |xs| - 1 - k. */
  lemma {:induction false} ReverseIndex(xs: seq<Pos>)
    ensures forall k :: 0 <= k < |xs| ==> Reverse(xs)[k] == xs[|xs| - 1 - k]
    decreases |xs|
  {
    if xs != [] {
      ReverseIndex(xs[..|xs| - 1]);
    }
  }

  lemma ReverseAppend(xs: seq<Pos>, x: Pos)
    ensures Reverse(xs + [x]) == [x] + Reverse(xs)
  {
    assert (xs + [x])[..|xs|] == xs;
  }

  // ---------------------------------------------------------------
  // Outcomes of one search

  /** A route of grid moves from the start to a point within four base
      steps of the goal, then the goal, with the metrics of that route. */
  ghost predicate GridRoute(s: Setup, path: seq<Pos>, m: Metrics)
  {
    && |path| >= 2 && path[0] == s.start && path[|path| - 1] == s.goal
    && Steps(s, path[..|path| - 1]) && s.hav(path[|path| - 2], s.goal) < 4.0 * GridSize
    && m == PathMetrics(Utils.PathLength(s.hav, path), PathCost(s, path), s.env.difficulty(s.goal))
  }

  /** How the grid loop ends: at node c, popped within two steps of the
      goal in state st, or with the open list empty or MaxIterations pops
      made. */
  datatype GridEnd = Reached(st: Search, c: nat) | Exhausted

  /** The grid step in force at pop number n: the base step, doubled from
      pop 6000 on. */
  function StepAt(n: nat): real
  {
    if n >= 6000 then 2.0 * GridSize else GridSize
  }

  /** The loop's own update, which doubles the base step at a multiple of
      1000 past 5000, gives StepAt: the first such pop is 6000. */
  lemma StepAtUpdate(n: nat, size: real)
    requires n >= 1 && size == StepAt(n - 1)
    ensures StepAt(n) == if n % 1000 == 0 && n > 5000 && size == GridSize then GridSize * 2.0 else size
  {
    if 5000 < n < 6000 {
      assert n % 1000 == n - 5000;
    }
  }

  /** The open list and node_dict point at stored nodes. */
  predicate Poppable(st: Search)
  {
    IndexInRange(st) && forall j :: 0 <= j < |st.open| ==> st.open[j] < |st.nodes|
  }

  lemma InvPoppable(s: Setup, w: Weights, st: Search, rank: seq<nat>, clock: nat)
    requires Inv(s, w, st, rank, clock)
    ensures Poppable(st)
  {
  }

  /** The node the grid loop pops from st: the first open node of least
      f-score. */
  function Popped(st: Search): (c: nat)
    requires Poppable(st) && st.open != []
    ensures c < |st.nodes|
  {
    st.open[FirstMin(st.nodes, st.open)]
  }

  /** One pass of the grid loop that does not stop: the popped node closed
      and its neighbours at step size relaxed. */
  function Expanded(s: Setup, w: Weights, st: Search, size: real): Search
    requires Poppable(st) && st.open != []
  {
    var k := FirstMin(st.nodes, st.open);
    ExpandAll(s, w, PopClose(st, k), st.open[k], Neighbors(s, st.nodes[st.open[k]].pos, size))
  }

  /** The grid loop of _find_single_path from state st after `iterations`
      pops: pop the first open node of least f-score; stop
      if it lies within two steps of the goal; otherwise close it, relax
      its neighbours and go on. (A state that is not Poppable never arises
      from a sound one, InvPoppable.) */
  ghost function GridRun(s: Setup, w: Weights, st: Search, iterations: nat): GridEnd
    decreases MaxIterations - iterations
  {
    if st.open == [] || iterations >= MaxIterations || !Poppable(st) then Exhausted
    else
      var size := StepAt(iterations + 1);
      if s.hav(st.nodes[Popped(st)].pos, s.goal) < size * 2.0 then Reached(st, Popped(st))
      else GridRun(s, w, Expanded(s, w, st, size), iterations + 1)
  }

  /** One pass of the grid loop: it stops at the popped node or goes on
      from the expanded state, with the step in force at the next pop. */
  lemma GridRunStep(s: Setup, w: Weights, st: Search, iterations: nat)
    requires Poppable(st) && st.open != [] && iterations < MaxIterations
    ensures var size := StepAt(iterations + 1);
      GridRun(s, w, st, iterations) ==
        if s.hav(st.nodes[Popped(st)].pos, s.goal) < size * 2.0 then Reached(st, Popped(st))
        else GridRun(s, w, Expanded(s, w, st, size), iterations + 1)
  {
  }

  /** The grid loop stops at the node c it pops when c lies within two
      steps of the goal. */
  lemma GridRunStops(s: Setup, w: Weights, st: Search, iterations: nat, size: real, c: nat)
    requires Poppable(st) && st.open != [] && iterations < MaxIterations
    requires size == StepAt(iterations + 1) && c == st.open[FirstMin(st.nodes, st.open)]
    requires s.hav(st.nodes[c].pos, s.goal) < size * 2.0
    ensures GridRun(s, w, st, iterations) == Reached(st, c)
  {
    GridRunStep(s, w, st, iterations);
  }

  /** Otherwise the loop goes on from the expanded state. */
  lemma GridRunGoesOn(s: Setup, w: Weights, st: Search, iterations: nat, size: real, c: nat)
    requires Poppable(st) && st.open != [] && iterations < MaxIterations
    requires size == StepAt(iterations + 1) && c == st.open[FirstMin(st.nodes, st.open)]
    requires s.hav(st.nodes[c].pos, s.goal) >= size * 2.0
    ensures GridRun(s, w, st, iterations) == GridRun(s, w, Expanded(s, w, st, size), iterations + 1)
  {
    GridRunStep(s, w, st, iterations);
  }

  /** The loop runs out with the open list empty or MaxIterations pops. */
  lemma GridRunDone(s: Setup, w: Weights, st: Search, iterations: nat)
    requires st.open == [] || iterations >= MaxIterations
    ensures GridRun(s, w, st, iterations) == Exhausted
  {
  }

  /** One pass of the grid loop keeps every invariant. */
  lemma ExpandedInv(s: Setup, w: Weights, st: Search, rank: seq<nat>, clock: nat, size: real) returns (rank': seq<nat>)
    requires Inv(s, w, st, rank, clock) && st.open != [] && (size == GridSize || size == 2.0 * GridSize)
    ensures Poppable(st) && Inv(s, w, Expanded(s, w, st, size), rank', clock + 1)
  {
    var k := FirstMin(st.nodes, st.open);
    PopCloseInv(s, w, st, rank, clock, k);
    rank' := ExpandAllInv(s, w, PopClose(st, k), rank, clock + 1, st.open[k], Neighbors(s, st.nodes[st.open[k]].pos, size));
  }

  /** The route _reconstruct_path builds for the goal node hung off node
      c: c's parent chain, then the goal, with c's costs plus the last
      move's. */
  ghost predicate GoalRoute(s: Setup, st: Search, c: nat, path: seq<Pos>, m: Metrics)
  {
    && c < |st.nodes|
    && m == PathMetrics(Utils.PathLength(s.hav, path), st.nodes[c].g.Plus(Edge(s, st.nodes[c].pos, s.goal)),
                        s.env.difficulty(s.goal))
    && exists rank :: Ranked(st.nodes, rank) && path == ChainPath(st.nodes, rank, c) + [s.goal]
  }

  /** What the grid search returns with weights w: the error dictionary and
      no path when the loop runs out, otherwise the route to the goal
      through the node it stopped at. */
  ghost predicate GridResult(s: Setup, w: Weights, path: seq<Pos>, m: Metrics)
  {
    match GridRun(s, w, Initial(s), 0)
    case Exhausted => path == [] && m == NoPath
    case Reached(st, c) => GoalRoute(s, st, c, path, m)
  }

  /** The search with weights w comes back empty: it is the grid search
      and its loop runs out. */
  ghost predicate RunsOut(s: Setup, w: Weights)
  {
    0.5 <= s.hav(s.start, s.goal) <= 2.0 && GridRun(s, w, Initial(s), 0).Exhausted?
  }

  /** The grid search's result, read off how its loop ends. */
  lemma GridResultOf(s: Setup, w: Weights, run: GridEnd, path: seq<Pos>, m: Metrics)
    requires run == GridRun(s, w, Initial(s), 0)
    requires run.Exhausted? ==> path == [] && m == NoPath
    requires run.Reached? ==> GoalRoute(s, run.st, run.c, path, m)
    ensures GridResult(s, w, path, m)
  {
  }

  /** Every state the grid loop passes through is sound, so where it stops
      the parent links are sound and the node is within four base steps
      of the goal. */
  lemma {:induction false} GridRunSound(s: Setup, w: Weights, st: Search, rank: seq<nat>, clock: nat, iterations: nat)
    requires Inv(s, w, st, rank, clock)
    ensures var e := GridRun(s, w, st, iterations);
      e.Reached? ==> e.c < |e.st.nodes| && LinksSound(s, e.st) && s.hav(e.st.nodes[e.c].pos, s.goal) < 4.0 * GridSize
    decreases MaxIterations - iterations
  {
    if st.open == [] || iterations >= MaxIterations {
      GridRunDone(s, w, st, iterations);
    } else {
      InvPoppable(s, w, st, rank, clock);
      var size := StepAt(iterations + 1);
      GridRunStep(s, w, st, iterations);
      var c := Popped(st);
      if s.hav(st.nodes[c].pos, s.goal) < size * 2.0 {
        assert GridRun(s, w, st, iterations) == Reached(st, c);
        assert size <= 2.0 * GridSize;
      } else {
        var next := Expanded(s, w, st, size);
        assert GridRun(s, w, st, iterations) == GridRun(s, w, next, iterations + 1);
        var rank' := ExpandedInv(s, w, st, rank, clock, size);
        GridRunSound(s, w, next, rank', clock + 1, iterations + 1);
      }
    }
  }

  /** What the long-distance approach returns with weights w: the
      optimised straight-line waypoints, smoothed when there are more than
      ten, with the summed segment costs and the length before smoothing. */
  ghost predicate AdaptiveOutcome(s: Setup, w: Weights, path: seq<Pos>, m: Metrics)
  {
    var opt := Optimized(s, w, InitialWaypoints(s.start, s.goal, NumSegments(s.hav(s.start, s.goal))));
    var (full, cost) := Assembled(s, opt);
    && path == (if |full| > 10 then Smoothed(s, full) else full)
    && m == AdaptiveMetrics(Utils.PathLength(s.hav, full), cost, MeanDifficulty(s.env, path))
  }

  /** The pieces of the long-distance approach put together. */
  lemma AdaptiveOutcomeOf(s: Setup, w: Weights, opt: seq<Pos>, full: seq<Pos>, cost: CostVector, path: seq<Pos>, m: Metrics)
    requires opt == Optimized(s, w, InitialWaypoints(s.start, s.goal, NumSegments(s.hav(s.start, s.goal))))
    requires (full, cost) == Assembled(s, opt)
    requires path == (if |full| > 10 then Smoothed(s, full) else full)
    requires m == AdaptiveMetrics(Utils.PathLength(s.hav, full), cost, MeanDifficulty(s.env, path))
    ensures AdaptiveOutcome(s, w, path, m)
  {
  }

  /** What _find_single_path returns with weights w, by the straight-line
      distance: the direct two-point path under 0.5 km, the long-distance
      approach over 2 km, the grid search otherwise. */
  ghost predicate SearchOutcome(s: Setup, w: Weights, path: seq<Pos>, m: Metrics)
  {
    var d := s.hav(s.start, s.goal);
    if d < 0.5 then
      path == [s.start, s.goal] &&
      m == PathMetrics(Utils.PathLength(s.hav, path), PathCost(s, path), s.env.difficulty(s.goal))
    else if d > 2.0 then AdaptiveOutcome(s, w, path, m)
    else GridResult(s, w, path, m)
  }

  /** The long-distance approach's waypoints before smoothing are the
      optimised waypoints themselves, with their path cost. */
  lemma AdaptiveAssembly(s: Setup, w: Weights)
    requires IsDistance(s.hav) && s.hav(s.start, s.goal) > 2.0
    ensures var opt := Optimized(s, w, InitialWaypoints(s.start, s.goal, NumSegments(s.hav(s.start, s.goal))));
      |opt| >= 2 && opt[0] == s.start && opt[|opt| - 1] == s.goal &&
      Assembled(s, opt) == (opt, PathCost(s, opt))
  {
    var n := NumSegments(s.hav(s.start, s.goal));
    var wps := InitialWaypoints(s.start, s.goal, n);
    assert wps[0] == s.start && wps[|wps| - 1] == s.goal;
    var opt := Optimized(s, w, wps);
    OptimizedShape(s, w, wps);
    assert s.start != s.goal;
    AssembledIsPath(s, opt);
  }

  /** The long-distance route starts at the start and ends at the goal, and
      it is the optimised waypoints or, with more than ten of them, picked
      from them in order. */
  lemma AdaptiveRoute(s: Setup, w: Weights, path: seq<Pos>, m: Metrics)
    requires IsDistance(s.hav) && s.hav(s.start, s.goal) > 2.0 && AdaptiveOutcome(s, w, path, m)
    ensures |path| >= 2 && path[0] == s.start && path[|path| - 1] == s.goal
    ensures var opt := Optimized(s, w, InitialWaypoints(s.start, s.goal, NumSegments(s.hav(s.start, s.goal))));
      (|opt| <= 10 ==> path == opt) && exists idx :: Picks(opt, path, idx)
  {
    var opt := Optimized(s, w, InitialWaypoints(s.start, s.goal, NumSegments(s.hav(s.start, s.goal))));
    AdaptiveAssembly(s, w);
    RouteOfWaypoints(s, opt, path);
  }

  /** Waypoints from the start to the goal, smoothed when there are more
      than ten: the route still runs from the start to the goal, picking
      from the waypoints in order. */
  lemma RouteOfWaypoints(s: Setup, opt: seq<Pos>, path: seq<Pos>)
    requires |opt| >= 2 && opt[0] == s.start && opt[|opt| - 1] == s.goal
    requires path == (if |opt| > 10 then Smoothed(s, opt) else opt)
    ensures |path| >= 2 && path[0] == s.start && path[|path| - 1] == s.goal
    ensures (|opt| <= 10 ==> path == opt) && exists idx :: Picks(opt, path, idx)
  {
    if |opt| > 10 {
      SmoothedShape(s, opt);
      var idx :| Picks(opt, Smoothed(s, opt), idx);
      assert Picks(opt, path, idx);
    } else {
      PicksAll(opt);
      assert Picks(opt, path, seq(|opt|, k => k));
    }
  }

  /** The long-distance metrics: the cost and length of the optimised
      waypoints, and a construction time from the mean difficulty of the
      returned route. */
  lemma AdaptiveRouteMetrics(s: Setup, w: Weights, path: seq<Pos>, m: Metrics)
    requires IsDistance(s.hav) && s.hav(s.start, s.goal) > 2.0 && AdaptiveOutcome(s, w, path, m)
    ensures var opt := Optimized(s, w, InitialWaypoints(s.start, s.goal, NumSegments(s.hav(s.start, s.goal))));
      m == AdaptiveMetrics(Utils.PathLength(s.hav, opt), PathCost(s, opt), MeanDifficulty(s.env, path))
  {
    AdaptiveAssembly(s, w);
  }

  lemma PicksAll(path: seq<Pos>)
    ensures Picks(path, path, seq(|path|, k => k))
  {
  }
}
