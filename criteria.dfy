/** The five routing criteria, the per-criterion cost record the search
    carries (one step's edge cost or a node's cumulative g-score), and the
    criteria-weight dictionary with the weighted fold `combine_costs`
    (route_planner/a_star.py). */
module Criteria {
  import opened Base

  const DistanceKey: string := "distance"
  const TerrainKey: string := "terrain_difficulty"
  const EnvironmentKey: string := "environmental_impact"
  const CostKey: string := "construction_cost"
  const AccessKey: string := "maintenance_access"

  /** The five keys are pairwise different. */
  lemma KeysDiffer()
    ensures DistanceKey != TerrainKey && DistanceKey != EnvironmentKey && DistanceKey != CostKey && DistanceKey != AccessKey
    ensures TerrainKey != EnvironmentKey && TerrainKey != CostKey && TerrainKey != AccessKey
    ensures EnvironmentKey != CostKey && EnvironmentKey != AccessKey
    ensures CostKey != AccessKey
  {
    assert |DistanceKey| == 8 && |TerrainKey| == 18 && |EnvironmentKey| == 20 && |CostKey| == 17 && |AccessKey| == 18;
    assert TerrainKey[0] != AccessKey[0];
  }

  /** Every cost dictionary the search builds has exactly these five keys. */
  datatype CostVector = CostVector(
    distance: real,
    terrainDifficulty: real,
    environmentalImpact: real,
    constructionCost: real,
    maintenanceAccess: real)
  {
    /** Criterion-wise sum, as in `cost + edge_costs[criterion]`. */
    function Plus(o: CostVector): CostVector
    {
      CostVector(distance + o.distance, terrainDifficulty + o.terrainDifficulty,
                 environmentalImpact + o.environmentalImpact,
                 constructionCost + o.constructionCost,
                 maintenanceAccess + o.maintenanceAccess)
    }

    ghost predicate NonNegative()
    {
      distance >= 0.0 && terrainDifficulty >= 0.0 && environmentalImpact >= 0.0 &&
      constructionCost >= 0.0 && maintenanceAccess >= 0.0
    }
  }

  const ZeroCosts := CostVector(0.0, 0.0, 0.0, 0.0, 0.0)

  datatype Criterion = Distance | Terrain | Environment | Construction | Access

  /** Which criterion a weight key names, if any. */
  function CriterionOf(key: string): (r: Option<Criterion>)
    ensures r.None? <==> key !in {DistanceKey, TerrainKey, EnvironmentKey, CostKey, AccessKey}
  {
    if key == DistanceKey then Some(Distance)
    else if key == TerrainKey then Some(Terrain)
    else if key == EnvironmentKey then Some(Environment)
    else if key == CostKey then Some(Construction)
    else if key == AccessKey then Some(Access)
    else None
  }

  function Component(c: CostVector, k: Criterion): real
  {
    match k
    case Distance => c.distance
    case Terrain => c.terrainDifficulty
    case Environment => c.environmentalImpact
    case Construction => c.constructionCost
    case Access => c.maintenanceAccess
  }

  /** `criterion in costs` and `costs[criterion]` on a five-key cost dict. */
  function Lookup(c: CostVector, key: string): (r: Option<real>)
    ensures r.None? <==> key !in {DistanceKey, TerrainKey, EnvironmentKey, CostKey, AccessKey}
  {
    match CriterionOf(key)
    case Some(k) => Some(Component(c, k))
    case None => None
  }

  /** A Python dict of weights: keys in insertion order, each once. */
  type Weights = seq<(string, real)>

  ghost predicate DistinctKeys(w: Weights)
  {
    forall i, j :: 0 <= i < j < |w| ==> w[i].0 != w[j].0
  }

  function Keys(w: Weights): (r: seq<string>)
    ensures |r| == |w| && forall i :: 0 <= i < |w| ==> r[i] == w[i].0
  {
    if w == [] then [] else [w[0].0] + Keys(w[1..])
  }

  /** `weights.get(key)`. */
  function Get(w: Weights, key: string): Option<real>
  {
    if w == [] then None
    else if w[0].0 == key then Some(w[0].1)
    else Get(w[1..], key)
  }

  /** `weights.get(key, default)`. */
  function GetOr(w: Weights, key: string, default: real): real
  {
    match Get(w, key)
    case Some(v) => v
    case None => default
  }

  /** `weights[key] = v` for a key that is already present: the entry keeps
      its place in the order. */
  function Put(w: Weights, key: string, v: real): (r: Weights)
    ensures |r| == |w|
    ensures forall i :: 0 <= i < |w| ==> r[i].0 == w[i].0
    ensures forall i :: 0 <= i < |w| ==> r[i].1 == (if w[i].0 == key then v else w[i].1)
  {
    if w == [] then [] else [(w[0].0, if w[0].0 == key then v else w[0].1)] + Put(w[1..], key, v)
  }

  /** After the assignment, the key reads back the new value when it was
      present, and every other key reads as before. */
  lemma {:induction false} GetPut(w: Weights, key: string, v: real, k: string)
    ensures Get(Put(w, key, v), k) == if k != key then Get(w, k) else if Get(w, key).Some? then Some(v) else None
    decreases |w|
  {
    if w != [] {
      GetPut(w[1..], key, v, k);
      assert Put(w, key, v)[1..] == Put(w[1..], key, v);
    }
  }

  /** `sum(weights.values())`. */
  function Sum(w: Weights): real
  {
    if w == [] then 0.0 else w[0].1 + Sum(w[1..])
  }

  /** `{k: v / total for k, v in weights.items()}`. */
  function Scaled(w: Weights, total: real): (r: Weights)
    requires total != 0.0
    ensures |r| == |w|
    ensures forall i :: 0 <= i < |w| ==> r[i] == (w[i].0, w[i].1 / total)
  {
    if w == [] then [] else [(w[0].0, w[0].1 / total)] + Scaled(w[1..], total)
  }

  /** One item of the fold: `costs[criterion] * weight` when the weight's
      key names a cost, nothing otherwise. */
  function Term(c: CostVector, key: string, weight: real): real
  {
    match Lookup(c, key)
    case Some(x) => x * weight
    case None => 0.0
  }

  /** combine_costs: the weighted sum over the weight keys that also name
      a cost; a weight without a cost entry contributes nothing. */
  function Combine(w: Weights, c: CostVector): real
  {
    if w == [] then 0.0 else Term(c, w[0].0, w[0].1) + Combine(w[1..], c)
  }

  // ---------------------------------------------------------------
  // Properties of the weight dictionary

  lemma {:induction false} GetFindsFirst(w: Weights, key: string)
    ensures Get(w, key).Some? <==> exists i :: 0 <= i < |w| && w[i].0 == key
    ensures Get(w, key).Some? ==>
      exists i :: 0 <= i < |w| && w[i].0 == key && w[i].1 == Get(w, key).value &&
                  forall j :: 0 <= j < i ==> w[j].0 != key
  {
    if w != [] {
      GetFindsFirst(w[1..], key);
      if w[0].0 != key {
        if Get(w, key).Some? {
          var i :| 0 <= i < |w[1..]| && w[1..][i].0 == key && w[1..][i].1 == Get(w, key).value &&
                   forall j :: 0 <= j < i ==> w[1..][j].0 != key;
          assert w[i + 1].0 == key && w[i + 1].1 == Get(w, key).value;
          assert forall j :: 0 <= j < i + 1 ==> w[j].0 != key by {
            forall j | 0 <= j < i + 1 ensures w[j].0 != key {
              if j > 0 { assert w[j] == w[1..][j - 1]; }
            }
          }
        } else {
          forall i | 0 <= i < |w| ensures w[i].0 != key {
            if i > 0 { assert w[i] == w[1..][i - 1]; }
          }
        }
      }
    }
  }

  /** With distinct keys, the value read back is the one stored at the key. */
  lemma GetAt(w: Weights, i: int)
    requires DistinctKeys(w) && 0 <= i < |w|
    ensures Get(w, w[i].0) == Some(w[i].1)
  {
    GetFindsFirst(w, w[i].0);
    var k :| 0 <= k < |w| && w[k].0 == w[i].0 && w[k].1 == Get(w, w[i].0).value &&
             forall j :: 0 <= j < k ==> w[j].0 != w[i].0;
    assert k == i;
  }

  lemma {:induction false} SumOfScaled(w: Weights, total: real)
    requires total != 0.0
    ensures Sum(Scaled(w, total)) == Sum(w) / total
  {
    if w != [] {
      SumOfScaled(w[1..], total);
      assert Scaled(w, total)[1..] == Scaled(w[1..], total);
    }
  }

  /** Normalising by the total makes the weights sum to one. */
  lemma NormalisedSumsToOne(w: Weights)
    requires Sum(w) != 0.0
    ensures Sum(Scaled(w, Sum(w))) == 1.0
  {
    SumOfScaled(w, Sum(w));
    assert Sum(w) / Sum(w) == 1.0;
  }

  lemma {:induction false} SumOfPut(w: Weights, i: int, v: real)
    requires DistinctKeys(w) && 0 <= i < |w|
    ensures Sum(Put(w, w[i].0, v)) == Sum(w) - w[i].1 + v
  {
    if i == 0 {
      assert Put(w[1..], w[0].0, v) == w[1..] by {
        var r := Put(w[1..], w[0].0, v);
        forall k | 0 <= k < |w[1..]| ensures r[k] == w[1..][k] {
          assert w[1..][k] == w[k + 1];
        }
      }
      assert Put(w, w[0].0, v) == [(w[0].0, v)] + w[1..];
    } else {
      SumOfPut(w[1..], i - 1, v);
      assert Put(w, w[i].0, v) == [w[0]] + Put(w[1..], w[1..][i - 1].0, v);
    }
  }

  /** With non-negative weights the total is at least any one weight. */
  lemma {:induction false} SumAtLeastEntry(w: Weights, i: int)
    requires 0 <= i < |w|
    requires forall k :: 0 <= k < |w| ==> w[k].1 >= 0.0
    ensures Sum(w) >= w[i].1
  {
    if i > 0 {
      SumAtLeastEntry(w[1..], i - 1);
    } else {
      SumNonNegative(w[1..]);
    }
  }

  lemma {:induction false} SumNonNegative(w: Weights)
    requires forall k :: 0 <= k < |w| ==> w[k].1 >= 0.0
    ensures Sum(w) >= 0.0
  {
    if w != [] {
      SumNonNegative(w[1..]);
    }
  }

  // ---------------------------------------------------------------
  // Properties of combine_costs

  /** The fold is linear in the costs: the combined g of a child is the
      combined g of its parent plus the combined edge cost. */
  lemma {:induction false} CombineAdditive(w: Weights, a: CostVector, b: CostVector)
    ensures Combine(w, a.Plus(b)) == Combine(w, a) + Combine(w, b)
  {
    if w != [] {
      CombineAdditive(w[1..], a, b);
      TermAdditive(a, b, w[0].0, w[0].1);
    }
  }

  lemma TermAdditive(a: CostVector, b: CostVector, key: string, x: real)
    ensures Term(a.Plus(b), key, x) == Term(a, key, x) + Term(b, key, x)
  {
    match CriterionOf(key)
    case Some(k) =>
      assert Component(a.Plus(b), k) == Component(a, k) + Component(b, k);
      assert (Component(a, k) + Component(b, k)) * x == Component(a, k) * x + Component(b, k) * x;
    case None =>
  }

  /** With non-negative weights and costs the combined cost is non-negative. */
  lemma {:induction false} CombineNonNegative(w: Weights, c: CostVector)
    requires forall k :: 0 <= k < |w| ==> w[k].1 >= 0.0
    requires c.NonNegative()
    ensures Combine(w, c) >= 0.0
  {
    if w != [] {
      CombineNonNegative(w[1..], c);
    }
  }

  /** A weight under a key that names no criterion is ignored. */
  lemma {:induction false} CombineIgnoresUnknownKey(w: Weights, key: string, v: real, c: CostVector)
    requires Lookup(c, key).None?
    ensures Combine(w + [(key, v)], c) == Combine(w, c)
  {
    if w != [] {
      assert (w + [(key, v)])[1..] == w[1..] + [(key, v)];
      CombineIgnoresUnknownKey(w[1..], key, v, c);
    }
  }

  /** All weight on one criterion: the combined cost is that criterion's
      cost. */
  lemma {:induction false} CombineOneHot(w: Weights, i: int, c: CostVector)
    requires 0 <= i < |w| && w[i].1 == 1.0 && Lookup(c, w[i].0).Some?
    requires forall k :: 0 <= k < |w| && k != i ==> w[k].1 == 0.0
    ensures Combine(w, c) == Lookup(c, w[i].0).value
  {
    if i == 0 {
      CombineZero(w[1..], c);
    } else {
      CombineOneHot(w[1..], i - 1, c);
    }
  }

  lemma {:induction false} CombineZero(w: Weights, c: CostVector)
    requires forall k :: 0 <= k < |w| ==> w[k].1 == 0.0
    ensures Combine(w, c) == 0.0
  {
    if w != [] {
      CombineZero(w[1..], c);
    }
  }

  /** Zero costs combine to zero, whatever the weights. */
  lemma {:induction false} CombineOfZeroCosts(w: Weights)
    ensures Combine(w, ZeroCosts) == 0.0
  {
    if w != [] {
      CombineOfZeroCosts(w[1..]);
    }
  }

  /** The fold read left to right, as the accumulating loop does: one more
      weight adds its term. */
  lemma {:induction false} CombineAppend(w: Weights, key: string, v: real, c: CostVector)
    ensures Combine(w + [(key, v)], c) == Combine(w, c) + Term(c, key, v)
  {
    if w != [] {
      assert (w + [(key, v)])[1..] == w[1..] + [(key, v)];
      CombineAppend(w[1..], key, v, c);
    }
  }
}
