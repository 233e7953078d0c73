# Pipeline route planner, modelled in Dafny

This project models the routing core of a planner for pipelines in the
Irkutsk region. The core finds a route between two coordinates for a pipe of
a given diameter, material and type, and weighs five criteria against each
other: distance, terrain difficulty, environmental impact, construction cost
and maintenance access. The model covers these parts:

- **The search engine** (`MultiCriteriaAStar`, route_planner/a_star.py):
  - a direct two-point path when start and goal are less than 0.5 km apart;
  - a long-distance approach beyond 2 km, which places evenly spaced
    waypoints, moves each waypoint to its most suitable compass sample, then
    smooths the result;
  - an A*-style grid search in between;
  - the alternatives loop, which re-weights the criteria and searches again.
- **The terrain analyzer** (`TerrainAnalyzer`, route_planner/terrain.py). It
  answers slope, soil, feature, difficulty, accessibility and validity
  queries through one write-once cache.
- **The cost formulas** (route_planner/costs.py).
- **The helpers** (route_planner/utils.py): path length, coordinate parsing,
  request validation and number formatting.
- **The web front end** (app.py), only where it computes:
  - the criteria weights it hands to the engine;
  - the compass direction of one route step;
  - the construction-time estimate.

**Modules.** The Dafny modules follow the source files.

| file | module | models |
|---|---|---|
| `base.dfy` | `Base` | option/result types and Python's numeric built-ins (`int()`, `math.ceil`, `round(x, 1)`) |
| `geo.dfy` | `Geo` | positions, and the great-circle distance and square root passed in as parameters |
| `criteria.dfy` | `Criteria` | the five cost keys, the weight dictionary as an insertion-ordered list, `combine_costs` |
| `costs.dfy` | `CostModel` | route_planner/costs.py |
| `utils.dfy` | `Utils` | route_planner/utils.py |
| `terrain.dfy` | `Terrain` | route_planner/terrain.py |
| `astar_spec.dfy` | `AStarSpec` | the engine's pure rules, and the specification functions for its loops |
| `search.dfy` | `SearchState` | the grid search state and its invariants |
| `astar.dfy` | `AStar` | the engine class with its methods |
| `app.dfy` | `App` | the three app.py computations |

**Form.** Code that updates state step by step is imperative Dafny:

- The analyzer and the engine are classes whose methods change their cache
  (and the engine's weights).
- Each loop of the source is a `while` loop with its invariants.
- Each method is proved against a pure specification function.

The remaining code, which only computes, is written as functions. The lemmas
state what the source promises of that code.

**Terrain and search model.**

- **Terrain oracle.** The engine sees the analyzer as a pure oracle `Env`
  with one answer per position. `AStarSpec.AnalyzerEnv` connects that oracle
  to the analyzer's own rules.
- **Search state.** The grid search keeps its nodes in an arena, where a
  parent is an index. A ghost rank per node proves that the parent links
  cannot cycle.

## Model

| member | source | states |
|---|---|---|
| Criteria.CriterionOf | route_planner/a_star.py:235-237 | a weight key names a cost exactly when it is one of the five criteria |
| Criteria.Lookup | route_planner/a_star.py:236-237 | `criterion in costs` holds exactly for the five criteria keys |
| Criteria.Put | app.py:67-70 | assigning to a present key keeps every key in its place and changes only that key's value |
| Criteria.Scaled | route_planner/a_star.py:621-622 | dividing by the total keeps each key and divides each value |
| Criteria.GetFindsFirst | route_planner/a_star.py:569-572 | `dict.get` finds a value iff the key is present, and returns the first entry with that key |
| Criteria.GetAt | route_planner/a_star.py:569-572 | with distinct keys, the value read back is the one stored at the key |
| Criteria.SumOfScaled | route_planner/a_star.py:621-622 | the total of the divided weights is the old total divided by the divisor |
| Criteria.NormalisedSumsToOne | route_planner/a_star.py:620-622 | dividing by a non-zero total makes the weights sum to 1 |
| Criteria.SumOfPut | app.py:67-70 | overwriting one weight changes the total by the difference |
| Criteria.SumAtLeastEntry | route_planner/a_star.py:621 | with non-negative weights the total is at least each weight |
| Criteria.SumNonNegative | route_planner/a_star.py:621 | non-negative weights have a non-negative total |
| Criteria.CombineAdditive | route_planner/a_star.py:223-239 | the weighted fold is additive: a child's combined g is its parent's plus the combined edge cost |
| Criteria.CombineNonNegative | route_planner/a_star.py:223-239 | non-negative weights and costs give a non-negative combined cost |
| Criteria.CombineIgnoresUnknownKey | route_planner/a_star.py:235-237 | a weight whose key names no cost contributes nothing |
| Criteria.CombineOneHot | route_planner/a_star.py:223-239 | a single weight left at 1, with all others 0, selects that criterion's cost |
| Criteria.CombineZero | route_planner/a_star.py:223-239 | all-zero weights combine to 0 |
| Criteria.CombineOfZeroCosts | route_planner/a_star.py:223-239 | the start node's zero costs combine to 0 under any weights |
| Criteria.CombineAppend | route_planner/a_star.py:235-237 | appending a weight adds exactly its term to the fold |
| CostModel.MaterialFactor | route_planner/costs.py:33-38 | an unknown material costs like steel (factor 1.0) |
| CostModel.ConstructionTypeFactor | route_planner/costs.py:41-46 | an unknown pipe type gets the factor 1.0 |
| CostModel.ImpactBase | route_planner/costs.py:71-76 | an unknown pipe type gets the base impact 0.5 |
| CostModel.DiameterNormalized | route_planner/costs.py:78-80 | the normalised diameter lies in [0, 1] |
| CostModel.EnvironmentalImpact | route_planner/costs.py:57-90 | the impact score lies in [0, 1] |
| CostModel.CalculateOperationalCosts | route_planner/costs.py:92-149 | the total is the sum of maintenance, pumping and inspection |
| CostModel.BaseCostAt500 | route_planner/costs.py:27-30 | a 500 mm pipe costs 10 per km, as the calibration comment says |
| CostModel.TerrainCostFactorRange | route_planner/costs.py:48-50 | for difficulty in [0, 1] terrain multiplies the cost by 1 to 3 |
| CostModel.TerrainCostFactorMonotone | route_planner/costs.py:48-50 | the terrain factor never decreases as the difficulty grows |
| CostModel.ConstructionCostLinear | route_planner/costs.py:11-55 | the cost is 0 for zero length and additive over consecutive stretches |
| CostModel.ConstructionCostNonNegative | route_planner/costs.py:11-55 | non-negative distance and diameter give a non-negative cost |
| CostModel.ConstructionCostWithinThreeTimesFlat | route_planner/costs.py:48-53 | the cost lies between the flat-terrain cost and three times it |
| CostModel.DiameterNormalizedMonotone | route_planner/costs.py:78-81 | the normalised diameter is monotone |
| CostModel.EnvironmentalImpactMonotone | route_planner/costs.py:57-90 | impact never decreases with a wider pipe or harder terrain |
| CostModel.EnvironmentalImpactUnclamped | route_planner/costs.py:70-90 | for difficulty in [0, 1] no clamp is active, and the score lies in [0.31, 0.85], both ends reached |
| CostModel.OperationalCostsLinear | route_planner/costs.py:106-142 | the operational total is additive in distance |
| CostModel.OperationalCostsNonNegative | route_planner/costs.py:106-142 | non-negative inputs and a positive diameter give non-negative components |
| Utils.CalculateDistance | route_planner/utils.py:42-55 | the accumulating loop returns the sum of the legs between consecutive points |
| Utils.PathLengthAppend | route_planner/utils.py:52-55 | appending a point adds exactly one leg |
| Utils.PathLengthConsecutive | route_planner/utils.py:52-55 | the loop's sum equals the first leg plus the length of the rest |
| Utils.PathLengthNonNegative | route_planner/utils.py:52-55 | the length is never negative, and it is 0 for fewer than two points |
| Utils.TrimStart | route_planner/utils.py:71 | `strip` removes exactly the leading whitespace |
| Utils.TrimEnd | route_planner/utils.py:71 | `strip` removes exactly the trailing whitespace |
| Utils.RemoveSpaces | route_planner/utils.py:71 | after `replace(" ", "")` no space is left |
| Utils.Split | route_planner/utils.py:71 | `split(",")` always yields at least one part |
| Utils.SplitCount | route_planner/utils.py:71-74 | splitting yields one part more than there are commas |
| Utils.SplitJoin | route_planner/utils.py:71 | no part holds the separator, and joining the parts gives back the string |
| Utils.TrimStartAllWhitespace | route_planner/utils.py:67-71 | an all-whitespace string strips to empty |
| Utils.ParseCoordinates | route_planner/utils.py:57-88 | the "not specified" error is returned exactly for the empty string |
| Utils.ParseCoordinatesAccepts | route_planner/utils.py:71-88 | a string is accepted iff it has two parts that parse as numbers in range, and the result is (lat, lng) |
| Utils.ParseCoordinatesFormat | route_planner/utils.py:71-74 | a format error is raised exactly when the cleaned string does not hold one comma |
| Utils.ParseBlank | route_planner/utils.py:67-74 | a blank, non-empty string passes the emptiness test but is a format error |
| Utils.ParseLatitudeFirst | route_planner/utils.py:82-86 | an out-of-range latitude is reported even when the longitude is also out of range |
| Utils.Decide | route_planner/utils.py:100-167 | the result is valid iff its message is OK |
| Utils.ValidateInput | route_planner/utils.py:90-167 | the result is valid iff its message is OK |
| Utils.DecideFirstFailure | route_planner/utils.py:100-167 | the checks run in order and the first failing check is reported; valid iff all pass |
| Utils.ValidateInputFirstFailure | route_planner/utils.py:100-167 | the same for validate_input as a whole, with both points parsed |
| Utils.NumericFieldRanges | route_planner/utils.py:133-161 | the diameter passes iff absent or a number in [100, 2000]; the pressure iff absent or in [1, 100] |
| Utils.FormatDistanceUnits | route_planner/utils.py:169-185 | metres exactly below 1 km, truncated; kilometres otherwise |
| Utils.FormatCostUnits | route_planner/utils.py:187-203 | thousands exactly below one million, truncated; millions otherwise |
| Terrain.InCircleSquared | route_planner/terrain.py:243-247 | the radius test is inclusive and agrees with comparing squares |
| Terrain.FirstAreaFirstMatch | route_planner/terrain.py:243-254 | a feature is found iff some circle holds the point, and then it is the first such circle's factor |
| Terrain.ProjectionBounds | route_planner/terrain.py:311-317 | the projection falls before or after the segment exactly by the sign of the dot products |
| Terrain.ClosestParameter | route_planner/terrain.py:310-321 | the segment point measured to has its parameter in [0, 1] |
| Terrain.ClosestIsNearest | route_planner/terrain.py:289-324 | that point is the nearest point of the segment |
| Terrain.PointToLineDistanceIsSegmentDistance | route_planner/terrain.py:289-324 | `_point_to_line_distance` is the distance to the nearest point of the segment, at most the distance to any segment point |
| Terrain.WaterScanFirstMatch | route_planner/terrain.py:271-287 | a crossing is found iff some river segment lies within its width, with the first such river's difficulty |
| Terrain.ProximityFactorRange | route_planner/terrain.py:361-367 | between one and five road widths the factor is in [0, 1], and 1 exactly at twice the width |
| Terrain.PortionWithin | route_planner/terrain.py:366-368 | a share in [0, 1] of a non-negative bonus lies between 0 and the bonus |
| Terrain.RoadScanSegmentsSpec | route_planner/terrain.py:345-373 | a road decides iff one of its segments lies within five widths |
| Terrain.RoadScanSegmentsFound | route_planner/terrain.py:357-373 | whenever a road's segment loop decides, it reports the road as found |
| Terrain.RoadScanSegmentsFactor | route_planner/terrain.py:357-373 | the deciding segment reports -0.2 on the road and otherwise a bonus between 0 and the road's |
| Terrain.RoadScanDecides | route_planner/terrain.py:344-377 | a road is reported iff the segment loop of some road decides, and with none deciding the answer is (False, 0.0) |
| Terrain.RoadScanSpec | route_planner/terrain.py:344-377 | a road is reported iff some road passes within five of its widths, and with none near the answer is (False, 0.0) |
| Terrain.RoadScanBonus | route_planner/terrain.py:353-373 | the bonus is -0.2 on a road, and otherwise lies between 0 and the road's bonus |
| Terrain.SlopeRange | route_planner/terrain.py:174-189 | the slope is in [0, 1], 0 exactly on flat ground, and 1 from a 100 m rise |
| Terrain.SoilIndexRange | route_planner/terrain.py:215-222 | the soil index is in [0, 4], the value's fifth, with 1 folded to 4 |
| Terrain.DifficultyOf | route_planner/terrain.py:438-454 | the difficulty is clamped to [0, 1] |
| Terrain.DifficultyUnclamped | route_planner/terrain.py:429-454 | with components in range no clamp is active, and the difficulty lies in [0.04, 0.96] |
| Terrain.DifficultyMonotone | route_planner/terrain.py:438-454 | a steeper slope, or a feature that fires, never eases the terrain |
| Terrain.AccessibilityOf | route_planner/terrain.py:475-485 | the accessibility is clamped to [0, 1] |
| Terrain.AccessibilityShape | route_planner/terrain.py:475-485 | away from roads it is 1 - 0.6 td, in [0.4, 1]; on a road 0.08 less; it falls as the difficulty grows |
| Terrain.ValidPositionRules | route_planner/terrain.py:502-566 | a valid position is in bounds, outside every city and reserve, and not an extreme feature; and conversely |
| Terrain.ExtremeNeedsFactorAbove95 | route_planner/terrain.py:555-563 | when every factor is at most 0.95, the extreme checks never fire |
| Terrain.LoadedDataValidity | route_planner/terrain.py:28-121 | with the loaded areas and settlements, validity is decided by the fixed checks alone |
| Terrain.Frange | route_planner/terrain.py:669-686 | `_frange` returns start + i * step for every i while the value is at most stop, and stops at the first value beyond |
| Terrain.RememberGrows | route_planner/terrain.py:136-155 | a query adds its key to the cache and never changes an existing entry |
| Terrain.TerrainAnalyzer.constructor | route_planner/terrain.py:19-26 | the analyzer starts with an empty cache |
| Terrain.TerrainAnalyzer.GetElevation | route_planner/terrain.py:123-156 | a hit returns the cached value; a miss draws one noise value, stores the elevation and adds only that key |
| Terrain.TerrainAnalyzer.GetSlope | route_planner/terrain.py:158-193 | the slope is in [0, 1] and cached; a miss computes it from the three elevations |
| Terrain.TerrainAnalyzer.GetSoilType | route_planner/terrain.py:195-226 | the soil is the cached entry or the rule's answer, which is then cached |
| Terrain.TerrainAnalyzer.IsProtectedArea | route_planner/terrain.py:228-254 | the answer is the cached entry or the first-match rule's answer, which is then cached |
| Terrain.TerrainAnalyzer.IsWaterCrossing | route_planner/terrain.py:256-287 | the same for water crossings |
| Terrain.TerrainAnalyzer.NearRoadQuery | route_planner/terrain.py:326-377 | the same for roads |
| Terrain.TerrainAnalyzer.NearSettlement | route_planner/terrain.py:379-405 | the same for settlements |
| Terrain.TerrainAnalyzer.GetTerrainDifficulty | route_planner/terrain.py:407-458 | the difficulty is in [0, 1] and cached, and agrees with the components cached in its cell; a miss computes it from those components |
| Terrain.TerrainAnalyzer.GetAccessibility | route_planner/terrain.py:460-489 | the accessibility is in [0, 1] and cached, and agrees with the difficulty and road answers cached in its cell |
| Terrain.TerrainAnalyzer.IsValidPosition | route_planner/terrain.py:491-566 | the fixed checks run first and touch no cache; then the protected-area query, and the settlement query only when needed; on a fresh cell the answer is the validity rule |
| AStarSpec.AnalyzerEnvScores | route_planner/terrain.py:454 | the analyzer's difficulty and accessibility answers lie in [0, 1] |
| AStarSpec.HScoreBounds | route_planner/a_star.py:91-111 | the heuristic lies between the distance and 1.3 times it |
| AStarSpec.EdgeCostsNonNegative | route_planner/a_star.py:183-221 | all five edge costs are non-negative for a non-negative step |
| AStarSpec.EdgeCostsOfNoStep | route_planner/a_star.py:215-221 | a zero-length step costs nothing except its environmental impact |
| AStarSpec.PathCostAppend | route_planner/a_star.py:376-377 | extending a path adds the edge cost of the new step |
| AStarSpec.PathCostNonNegative | route_planner/a_star.py:376-377 | the summed cost of a path is non-negative |
| AStarSpec.RowScanLength | route_planner/a_star.py:157-174 | one row yields at most one neighbour per offset |
| AStarSpec.NeighborsCount | route_planner/a_star.py:156-181 | at most eight grid neighbours, and nine with the goal |
| AStarSpec.RowScanMembers | route_planner/a_star.py:157-174 | a position is in a row's scan iff it is the kept candidate at one of the row's offsets |
| AStarSpec.GridScanMembers | route_planner/a_star.py:156-174 | a position is in the grid scan iff it is a kept candidate of some row |
| AStarSpec.NeighborsMembers | route_planner/a_star.py:156-181 | the neighbours are exactly the kept candidates at the eight non-zero offsets, plus the goal when within four steps |
| AStarSpec.NeighborsGoalRule | route_planner/a_star.py:177-179 | the goal is appended exactly when within four steps and not already produced |
| AStarSpec.Suitability | route_planner/a_star.py:549-603 | the score lies in [0.01, 1], and it is 0.01 for an invalid position |
| AStarSpec.SuitabilityUnclamped | route_planner/a_star.py:561-603 | on a valid position the score is the raw weighted score whenever that lies in [0.01, 1] |
| AStarSpec.InvalidScoresLeast | route_planner/a_star.py:563-566 | an invalid position never scores above any other |
| AStarSpec.FirstMax | route_planner/a_star.py:537 | `max(..., key=)` picks an entry with the greatest score, and the first one among ties |
| AStarSpec.Alternatives | route_planner/a_star.py:519-534 | the waypoint itself comes first, then one sample 0.002 degrees away per compass direction, each with its score |
| AStarSpec.AlternativesScored | route_planner/a_star.py:521-534 | the waypoint comes first with its own score, then each compass sample with its score |
| AStarSpec.FirstMaxIsFirstGreatest | route_planner/a_star.py:537 | the entry picked by max has the greatest score and every entry before it scores strictly less |
| AStarSpec.BestPointRule | route_planner/a_star.py:519-537 | the chosen point scores at least as well as the waypoint and every sample, and the waypoint stays unless a sample is strictly better |
| AStarSpec.AlternativeWeights | route_planner/a_star.py:605-622 | the alternative weights keep the keys and sum to 1 |
| AStarSpec.AdjustedKeys | route_planner/a_star.py:607-618 | adjusting keeps the keys in their order |
| AStarSpec.PutWellFormed | route_planner/a_star.py:611-618 | assigning a non-negative value to a present key keeps the weights well formed and changes only that key |
| AStarSpec.ScaledWellFormed | route_planner/a_star.py:620-622 | dividing by a positive total keeps the weights well formed |
| AStarSpec.GetWithinSum | route_planner/a_star.py:621 | each weight of well-formed weights lies between 0 and the total |
| AStarSpec.AlternativeWeightsWellFormed | route_planner/a_star.py:605-622 | the first two alternatives always have a positive total (a 0.1 floor survives), and the result is well formed |
| AStarSpec.PutThree | route_planner/a_star.py:609-618 | three assignments to three different present keys set each key and leave every other key alone |
| AStarSpec.AdjustedFirst | route_planner/a_star.py:609-613 | the first alternative doubles terrain and environment up to 0.8, halves distance down to 0.1, and leaves the rest |
| AStarSpec.AdjustedSecond | route_planner/a_star.py:614-618 | the second alternative doubles distance and cost up to 0.8, halves environment down to 0.1, and leaves the rest |
| AStarSpec.NumSegments | route_planner/a_star.py:424 | the number of segments lies in [5, 40] |
| AStarSpec.NumSegmentsOfLongRoute | route_planner/a_star.py:301-303 | a route over 2 km has at least six segments, and up to 12 km exactly int(d / 0.3) of them |
| AStarSpec.InitialWaypoints | route_planner/a_star.py:428-436 | n + 1 waypoints, from the start to the goal, the i-th at ratio i / n |
| AStarSpec.OptScan | route_planner/a_star.py:513-541 | the partial result starts with the first waypoint and has at most one entry per waypoint seen |
| AStarSpec.OptScanNext | route_planner/a_star.py:539-541 | one pass appends the best point unless it repeats the last one kept |
| AStarSpec.OptimizedEnd | route_planner/a_star.py:543-545 | the last waypoint is appended unless it is already the last point |
| AStarSpec.BestPointsAt | route_planner/a_star.py:516-537 | entry i of the best points is the best point of waypoint i |
| AStarSpec.OptScanShape | route_planner/a_star.py:513-541 | the partial result never repeats a point twice in a row, and each entry after the first is among the best points of the waypoints seen |
| AStarSpec.WithLast | route_planner/a_star.py:544-545 | the result keeps the first point and ends with the last waypoint |
| AStarSpec.ScanWithLast | route_planner/a_star.py:513-547 | the partial result with the last waypoint appended runs from the first to the last waypoint, never repeats a point twice in a row, has at most one entry per waypoint seen plus one, and its interior entries are best points of the waypoints seen |
| AStarSpec.OptimizedShape | route_planner/a_star.py:503-547 | the optimised waypoints keep both ends, never repeat a point twice in a row, are no more than the waypoints, and each interior one is among the best points of the interior waypoints |
| AStarSpec.Assembled | route_planner/a_star.py:442-473 | the assembled path starts at the start |
| AStarSpec.AssembledIsPath | route_planner/a_star.py:453-473 | over optimised waypoints, the segment loop rebuilds exactly those waypoints and sums exactly their path cost |
| AStarSpec.DifficultySumBounds | route_planner/a_star.py:485-488 | the summed difficulty lies between 0 and the number of points |
| AStarSpec.MeanDifficultyBounds | route_planner/a_star.py:485-488 | the mean difficulty lies in [0, 1] |
| AStarSpec.SmoothScan | route_planner/a_star.py:637-669 | the partial smoothed list starts with the first point |
| AStarSpec.SmoothScanNext | route_planner/a_star.py:639-669 | one pass appends the point exactly when the keep rule holds there and it lies more than 0.05 km from the last point kept |
| AStarSpec.SmoothIndicesBounds | route_planner/a_star.py:637-669 | one position per kept point, starting at the first point and lying below the pass reached |
| AStarSpec.SmoothIndicesKeep | route_planner/a_star.py:659-669 | each kept interior position lies below the pass reached and the keep rule holds there |
| AStarSpec.SmoothScanPicks | route_planner/a_star.py:637-669 | the kept points are picked from the path in increasing order |
| AStarSpec.FinishedScanPicks | route_planner/a_star.py:637-671 | with the goal appended, the smoothed points are picked from the path in order, are no more than the path, and each interior one is a position where the keep rule holds |
| AStarSpec.SmoothedShape | route_planner/a_star.py:624-673 | a path of more than three points keeps both ends, picks the rest in order, and keeps an interior point only when the keep rule holds |
| AStarSpec.TerrainCostWithinLength | route_planner/a_star.py:217 | the terrain cost of a path lies between its length and twice its length |
| AStarSpec.TerrainScoreBounds | route_planner/a_star.py:718-724 | the terrain score of a non-empty path lies in [1, 2] |
| SearchState.ChainPath | route_planner/a_star.py:699-701 | a parent chain ends at its own node |
| SearchState.InitialInv | route_planner/a_star.py:306-324 | the start node alone, open, satisfies every search invariant |
| SearchState.Relax | route_planner/a_star.py:367-403 | relaxing a neighbour keeps the closed set and never removes a node |
| SearchState.ExpandAll | route_planner/a_star.py:367-403 | the same for the whole neighbour loop |
| SearchState.AppendInv | route_planner/a_star.py:380-387 | storing a new node keeps every invariant |
| SearchState.ReplaceInv | route_planner/a_star.py:388-403 | giving a known, unclosed node a better parent keeps every invariant |
| SearchState.RelaxShape | route_planner/a_star.py:378-403 | a closed neighbour changes nothing; a new one is appended and opened; an improved one is replaced and reopened; otherwise nothing changes |
| SearchState.RelaxInv | route_planner/a_star.py:367-403 | relaxing a grid neighbour of a closed node keeps every invariant |
| SearchState.FirstMin | route_planner/a_star.py:345 | the popped entry has the least f-score, and is the first such entry in the open list |
| SearchState.Without | route_planner/a_star.py:345 | popping removes exactly that entry and keeps the order of the rest |
| SearchState.PopCloseInv | route_planner/a_star.py:345-364 | closing the popped node keeps every invariant |
| SearchState.ChainFacts | route_planner/a_star.py:376-399 | every parent chain is a route of grid moves from the start, and the node's g-score is the cost of that route |
| SearchState.Reverse | route_planner/a_star.py:704 | reversing keeps the length |
| SearchState.ReverseIndex | route_planner/a_star.py:704 | reversing puts entry k at position n - 1 - k |
| SearchState.ReverseAppend | route_planner/a_star.py:699-704 | reversing after an append puts the new entry first |
| SearchState.ExpandAllInv | route_planner/a_star.py:367-403 | the whole neighbour loop keeps every invariant and leaves the expanded node alone |
| SearchState.StepAtUpdate | route_planner/a_star.py:333-342 | the inline doubling at a multiple of 1000 past 5000 yields the step in force at each pop: the base step before pop 6000, twice it from then on |
| SearchState.InvPoppable | route_planner/a_star.py:345 | in a sound search state every open entry names a stored node, so the pop is defined |
| SearchState.GridRunStep | route_planner/a_star.py:333-403 | one pass of the grid loop stops at the popped node when it lies within two steps of the goal, and otherwise goes on from the closed-and-expanded state |
| SearchState.GridRunStops | route_planner/a_star.py:345-361 | the loop stops at the first least-f node when it lies within two steps of the goal |
| SearchState.GridRunGoesOn | route_planner/a_star.py:345-403 | otherwise the loop goes on, one pop later, from the state with that node closed and its neighbours relaxed |
| SearchState.GridRunDone | route_planner/a_star.py:331 | with the open list empty or 20000 pops the loop has run out |
| SearchState.ExpandedInv | route_planner/a_star.py:363-403 | one pass of the loop at either step keeps every search invariant |
| SearchState.GridResultOf | route_planner/a_star.py:331-406 | the grid search's result is read off how the loop ends: the error dictionary when it runs out, the goal route otherwise |
| SearchState.GridRunSound | route_planner/a_star.py:331-361 | where the loop stops from a sound state, the parent links are sound and the node lies within four base steps of the goal |
| SearchState.AdaptiveAssembly | route_planner/a_star.py:408-476 | before smoothing, the long-distance path is exactly the optimised waypoints with their path cost |
| SearchState.AdaptiveRoute | route_planner/a_star.py:408-501 | the long-distance route starts at the start, ends at the goal, and is picked in order from the optimised waypoints |
| SearchState.RouteOfWaypoints | route_planner/a_star.py:478-482 | smoothing above ten points keeps the route from the start to the goal and picks it in order from the waypoints; ten or fewer are kept as they are |
| SearchState.AdaptiveOutcomeOf | route_planner/a_star.py:408-501 | waypoints, assembly, optional smoothing and metrics together give the long-distance outcome |
| SearchState.AdaptiveRouteMetrics | route_planner/a_star.py:476-499 | its metrics give the cost and length of the optimised waypoints, and the construction time from the mean difficulty of the returned route |
| AStar.WeightsAfter | route_planner/a_star.py:259-262 | weights after each adjustment stay well formed with the same keys, and sum to 1 after the first |
| AStar.NumberedBound | route_planner/a_star.py:259-269 | there are at most n alternatives |
| AStar.NumberedAt | route_planner/a_star.py:264-269 | each alternative has a non-empty path, a number in 1..n, and is what a search found with that many adjustments |
| AStar.NumberedOrder | route_planner/a_star.py:259-269 | the alternatives' numbers increase strictly |
| AStar.NumberedWiden | route_planner/a_star.py:259-269 | raising the bound keeps a numbered list valid: numbered within n means numbered within n + 1 |
| AStar.SingleSearchAccepts | route_planner/a_star.py:265 | every result a search with the weights after k adjustments may return is accepted as alternative k |
| AStar.CollectedNone | route_planner/a_star.py:259 | before the first alternative search nothing is collected |
| AStar.CollectedAppend | route_planner/a_star.py:266-269 | an accepted path from search i + 1, numbered i + 1 and appended, is that search's contribution |
| AStar.EmptyIsNoPath | route_planner/a_star.py:273-406 | a search that comes back empty reports the no-path error dictionary |
| AStar.AlternativeMissing | route_planner/a_star.py:265-266 | an alternative search that came back empty adds nothing |
| AStar.CollectedNumbered | route_planner/a_star.py:259-269 | the collected alternatives are numbered, in increasing order, each found by its own search |
| AStar.CollectedAll | route_planner/a_star.py:259-269 | when no search can come back empty, each of the n searches contributes its alternative: exactly n |
| AStar.NeverEmpty | route_planner/a_star.py:283-301 | the direct path and the long-distance approach never come back empty |
| AStar.PathsCount | route_planner/a_star.py:241-271 | a result always has at most n numbered alternatives, and on the direct and long-distance branches it is the main route plus exactly n alternatives |
| AStar.AlternativeFound | route_planner/a_star.py:265-269 | a path found by search i + 1, numbered i + 1 and appended, is collected as that search's contribution |
| AStar.RowScanNext | route_planner/a_star.py:157-174 | one pass of the inner neighbour loop appends that offset's candidate |
| AStar.GridScanNext | route_planner/a_star.py:156-174 | one pass of the outer neighbour loop appends that row |
| AStar.ChainStep | route_planner/a_star.py:699-701 | one step up the parent chain moves one position from the chain to the reversed list |
| AStar.GoalPath | route_planner/a_star.py:350-361 | stopping at a node near the goal with the goal node appended gives a route of grid moves from the start that ends at the goal, with that route's length, costs and goal difficulty |
| AStar.GridResultRoute | route_planner/a_star.py:331-406 | the grid search returns no path exactly when its loop runs out, and then the error dictionary; otherwise a route of grid moves from the start that ends at the goal, with its metrics |
| AStar.SearchEmpty | route_planner/a_star.py:273-406 | a search comes back empty exactly when it is the grid search (0.5 to 2 km) and its loop runs out, and then it reports the error dictionary |
| AStar.SearchDecisive | route_planner/a_star.py:273-406 | a search that returns a path is not one whose loop runs out |
| AStar.SingleSearchDecisive | route_planner/a_star.py:265-266 | no alternative search can both find a path and come back empty |
| AStar.CollectedTags | route_planner/a_star.py:259-269 | the collected alternatives carry numbers in 1..n, and number k is present exactly when search k cannot come back empty |
| AStar.PathsExact | route_planner/a_star.py:241-271 | find_paths returns nothing exactly when the main search's grid loop runs out; otherwise alternative k is present exactly when the k-th re-weighted search does not run out |
| AStar.AdaptiveEmpty | route_planner/a_star.py:442-501 | the long-distance approach never returns an empty path |
| AStar.MultiCriteriaAStar.constructor | route_planner/a_star.py:55-87 | the engine starts with the given weights and an empty terrain cache |
| AStar.MultiCriteriaAStar.GetTerrainFactor | route_planner/a_star.py:113-134 | the factor is the analyzer's difficulty, and the cache holds it afterwards |
| AStar.MultiCriteriaAStar.CalculateHScore | route_planner/a_star.py:91-111 | the heuristic of the position |
| AStar.MultiCriteriaAStar.CalculateEdgeCost | route_planner/a_star.py:183-221 | the five edge costs of the step |
| AStar.MultiCriteriaAStar.CombineCosts | route_planner/a_star.py:223-239 | the loop over the weights computes the weighted fold |
| AStar.MultiCriteriaAStar.GetNeighbors | route_planner/a_star.py:136-181 | the nested loops return the neighbour list of the given step, or of the base grid size when none is given |
| AStar.MultiCriteriaAStar.ScanRow | route_planner/a_star.py:157-174 | the inner loop appends one row's kept candidates |
| AStar.MultiCriteriaAStar.RelaxNeighbor | route_planner/a_star.py:367-403 | one pass of the neighbour loop is the relaxation step |
| AStar.MultiCriteriaAStar.ExpandNode | route_planner/a_star.py:367-403 | the neighbour loop relaxes each neighbour in turn and keeps the search invariants |
| AStar.MultiCriteriaAStar.ReconstructPath | route_planner/a_star.py:686-726 | the path is the parent chain from the start down to the end node, with that path's metrics |
| AStar.MultiCriteriaAStar.GridSearch | route_planner/a_star.py:305-406 | the result of the grid loop as SearchState.GridRun runs it: no path and the error dictionary exactly when the open list empties or 20000 pops pass, otherwise the route through the node where it stopped, then the goal, with that route's metrics |
| AStar.MultiCriteriaAStar.PopStep | route_planner/a_star.py:333-348 | the pop count goes up, the step is the one in force at that pop, the first least-f entry is popped, and whether its node lies within two steps of the goal decides between stopping there and going on from the expanded state |
| AStar.MultiCriteriaAStar.GoalStop | route_planner/a_star.py:349-361 | the goal branch returns the parent chain of node c, then the goal, with c's costs plus the last move's; that is a route of grid moves from the start to the goal |
| AStar.MultiCriteriaAStar.CloseAndExpand | route_planner/a_star.py:363-403 | closing the popped node and relaxing its neighbours at the current step gives the grid loop's next state, and keeps the invariants |
| AStar.MultiCriteriaAStar.MakeWaypoints | route_planner/a_star.py:428-436 | the loop builds the evenly spaced waypoints |
| AStar.MultiCriteriaAStar.BestAlternative | route_planner/a_star.py:519-537 | the sampling loop returns the waypoint's best point |
| AStar.MultiCriteriaAStar.OptimizeWaypoints | route_planner/a_star.py:503-547 | the optimisation returns the optimised waypoints |
| AStar.MultiCriteriaAStar.OptimizeInterior | route_planner/a_star.py:513-541 | the interior loop returns the partial result at the last interior index |
| AStar.MultiCriteriaAStar.OptimizeStep | route_planner/a_star.py:516-541 | one pass of the interior loop |
| AStar.MultiCriteriaAStar.AssembleSegments | route_planner/a_star.py:442-473 | the segment loop returns the assembled path and the summed costs |
| AStar.MultiCriteriaAStar.SmoothInterior | route_planner/a_star.py:637-669 | the interior loop returns the smoothing scan over the keep rule |
| AStar.MultiCriteriaAStar.SmoothPath | route_planner/a_star.py:624-673 | the loop returns the smoothed path |
| AStar.MultiCriteriaAStar.MeanTerrainFactor | route_planner/a_star.py:485-488 | the averaging loop returns the mean difficulty |
| AStar.MultiCriteriaAStar.FinishAdaptive | route_planner/a_star.py:476-501 | the route is the assembled path, smoothed above ten points, and the metrics come from its length, its summed costs and the mean difficulty of the route |
| AStar.MultiCriteriaAStar.FindPathAdaptive | route_planner/a_star.py:408-501 | the long-distance outcome |
| AStar.MultiCriteriaAStar.FindSinglePath | route_planner/a_star.py:273-406 | by distance, the direct path, the long-distance outcome or the grid loop's result; the path is empty exactly when the grid loop runs out; a found path carries no alternative number |
| AStar.MultiCriteriaAStar.FindPaths | route_planner/a_star.py:241-271 | nothing exactly when the main search's grid loop runs out; otherwise the main route, then exactly the alternatives the n searches found, numbered by their search, number k present exactly when the k-th re-weighted search does not run out; 1 + n routes on the direct and long-distance branches; the weights are left as the last adjustment set them |
| AStar.MultiCriteriaAStar.FindAlternatives | route_planner/a_star.py:259-269 | the loop keeps exactly the alternatives the n searches found, each numbered by its search, and leaves the weights adjusted n times |
| AStar.MultiCriteriaAStar.NextAlternative | route_planner/a_star.py:260-269 | one pass adjusts the weights once more and collects search i + 1: its path numbered i + 1 when found, nothing otherwise; earlier entries stay |
| AStar.MultiCriteriaAStar.AdjustWeights | route_planner/a_star.py:261-262 | the engine's weights become the next alternative weights |
| AStar.MultiCriteriaAStar.SearchAlternative | route_planner/a_star.py:265-269 | search i + 1 is collected: its path numbered i + 1 and appended when found, nothing added when empty; earlier entries stay |
| App.Overridden | app.py:66-70 | the keys keep their order; a non-empty user dictionary replaces exactly the default keys it holds |
| App.Normalised | app.py:72-76 | with a positive total, the weights keep their ratios and sum to 1; otherwise nothing changes |
| App.PlanWeights | app.py:58-76 | the two in-place loops produce the defaults, overridden, then normalised |
| App.UnknownKeyIgnored | app.py:66-70 | a key other than the five defaults changes nothing |
| App.NoUserWeights | app.py:58-76 | with no user weights the defaults, which already sum to 1, are used as they are |
| App.PlannedSum | app.py:66-76 | the weights sum to 1 when the total is positive, and are left unchanged otherwise; with non-negative user values that only happens when every planned weight is zero |
| App.DefaultsSumToOne | app.py:58-64 | the default weights sum to 1 |
| App.PlannedWellFormed | app.py:58-89 | non-negative user values give weights the engine accepts |
| App.StepDirection | app.py:339-356 | north or south when the latitude change dominates strictly, by its sign; otherwise east or west by the sign of the longitude change |
| App.NoMoveIsWest | app.py:350-356 | a step that does not move reads as west |
| App.ReversedStep | app.py:339-356 | walking a step backwards gives the opposite direction, except for no move |
| App.ShiftedStep | app.py:341-342 | only the displacement matters |
| App.BaseRate | app.py:362-367 | 0.5 km a day up to 300 mm, 0.2 above 700 mm, 0.3 in between |
| App.BaseRateAntitone | app.py:362-367 | a larger pipe is never laid faster |
| App.TypeFactor | app.py:370-374 | gas 1.2, water 0.9, and 1.0 for oil or any other type |
| App.DaysNeeded | app.py:376-384 | the estimate rounded up; at least 0 for non-negative inputs, and at least 1 for a positive distance |
| App.DaysMonotone | app.py:376-384 | a longer route never takes fewer days |
| App.CeilMonotone | app.py:384 | rounding up is monotone |
| App.WholeYears | app.py:394-397 | `int(days / 365)` is the integer quotient |
| App.Bucket | app.py:386-398 | days up to 30; months (2..13) up to 365; otherwise years with the remaining months, and years alone when none remain; each span contains the day count |
| App.ConstructionTime | app.py:359-398 | no estimate exactly for an error dictionary; a day count shown as days is in range |

## Left out

- **Transcendental maths.** Haversine, `math.sqrt`, `atan2`, and the sine
  and cosine of the sampling angles are parameters (`Distance`, `sqrt`,
  `Setup.atan2`, `Setup.compass`). Their values are not reasoned about, only
  the facts `IsDistance` and `IsSqrt` state.
- **Analyzer inputs as oracles.** The elevation relief, the sine-based soil
  value and the random elevation noise are oracles. The noise is a fixed
  sequence of draws in [-50, 50]. The cache key `f"{x:.5f}"` is a
  parameter, and so is `float()` on strings.
- **Floating point.** Every number is an exact real. Position equality
  (deduplication, "the last interpolated waypoint is the goal") holds
  exactly here, but not always in IEEE arithmetic. `round(x, 1)` rounds
  halves up.
- **The heap.** `heapq` is modelled as an open list with select-first-minimum.
  The stale heap order after the in-place f-score update, and the
  `not in open_set` check by position equality, are not modelled: the model
  re-adds a node only when its index is not open.
- **Nodes.** The `Node` class and its `__lt__`, `__eq__` and `__hash__` are
  an arena of node records indexed by integers. Equality by position is the
  position-to-index map.
- **The engine's analyzer.** The engine consults a pure oracle, not the
  `TerrainAnalyzer` class. Its own `terrain_cache` is modelled; the
  analyzer's cache is not seen through the engine.
- **No optimality claim.** No claim is made that the grid search finds a
  cheapest route. Its outcome is stated as a route of grid moves with its
  metrics.
- **Open entries.** SearchState.GridRun also stops, as if exhausted, at a
  state whose open list names a node that is not stored. That case is
  there only to make the function total: SearchState.InvPoppable shows it
  never arises from a sound state, and every state of the loop is sound.
- AStar.MultiCriteriaAStar.FindPaths: does not model negative weights, nor
  keys missing when no alternative is asked for. It requires well-formed
  weights: distinct keys, the four adjusted keys present, and no negative
  value. The source needs less:
  - a missing key raises `KeyError` only once an alternative is computed
    (n >= 1);
  - a zero total at some alternative raises `ZeroDivisionError`;
  - negative weights, which app.py:67-70 passes on unchecked, run without
    error as long as every total stays non-zero.

  The model keeps the stronger requirement because non-negative weights are
  what keep every chained total positive (AStarSpec.AlternativeWeightsWellFormed).
  App.PlannedWellFormed shows that app.py's weights meet the requirement
  for non-negative user values.
- AStar.MultiCriteriaAStar.FindAlternatives: the found alternatives are
  collected in their own list and appended after the main route. The source
  appends each one straight to `paths`.
- **Helper methods.** ScanRow, OptimizeInterior, OptimizeStep, PopStep, GoalStop,
  CloseAndExpand, NextAlternative, AdjustWeights, SearchAlternative,
  SmoothInterior and FinishAdaptive are
  loop bodies or loop halves of a single source method, split only for the
  proofs.
- AStarSpec.AlternativeWeights and AStarSpec.Adjusted: require the adjusted
  keys to be present and the total to be non-zero. Otherwise the source
  raises.
- CostModel.CalculateOperationalCosts: requires a non-zero diameter. The
  source raises `ZeroDivisionError` at 0.
- Terrain.Frange: requires a positive step or an empty range. Otherwise the
  source loop never ends.
- Terrain.TerrainAnalyzer.IsValidPosition: the answer equals the validity
  rule only for a cell with no cached feature entries. Otherwise it is stated
  through the cached entries.
- **Request handling and presentation.** The Flask routes, JSON handling and
  error-to-HTTP mapping are left out. So are the route description texts
  (`generate_route_description`, `_determine_turn_reason`) and the text of
  the construction time: `App.Bucket` returns its structured form.
- **Unused code.** Terrain-data grid assembly (`get_terrain_data`) is left
  out. The fixture datasets appear only as parameters, plus the two areas
  lists used in `Terrain.LoadedDataValidity`. Also left out are
  `calculate_metrics`, which lacks `self` and is never called, the unused
  `max_pressure`, and logging.
- App.PlanWeights: user values are taken as numbers already. `float()` on a
  string, and its `ValueError`, are not modelled.
- App.ConstructionTime: a metrics error dictionary gives no estimate
  (`None`). The source raises `KeyError` there, and the route handler turns
  it into an error response.

**Behaviour of the code that the model keeps.**

- The long-distance approach takes over beyond 2 km (route_planner/a_star.py:301).
- The long-distance approach sums one edge cost per segment between
  consecutive waypoints (route_planner/a_star.py:453-473). It runs no grid
  search inside a segment.
- The terrain and access edge costs scale with the step length, as
  `d * (1 + td)` and `d * (1 + (1 - accessibility))`. The environmental
  impact is a per-step score that does not scale
  (route_planner/a_star.py:214-220).
- The grid step doubles at iteration 6000, the first multiple of 1000 past
  5000 (route_planner/a_star.py:336-342).
- The number of segments is `int(d / 0.3)` clamped to 5 .. 40
  (route_planner/a_star.py:424).
- The long-distance total distance is the length before smoothing
  (route_planner/a_star.py:476).
- Each alternative adjusts the weights the previous one left behind
  (route_planner/a_star.py:259-262). The weights stay changed after
  `find_paths`.
- The terrain score is the terrain cost divided by the total distance
  (route_planner/a_star.py:496).
- Neither the engine nor app.py checks the range of the weights.
