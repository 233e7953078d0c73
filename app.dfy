/** The parts of the web front end (app.py) that compute rather than
    serve: the criteria weights handed to the planner, the compass
    direction of one route step, and the construction-time estimate. */
module App {
  import opened Base
  import opened Geo
  import opened Criteria
  import opened AStarSpec

  // ---------------------------------------------------------------
  // Criteria weights

  /** The planner's default weights, in the order the dictionary lists them. */
  const DefaultWeights: Weights := [
    (DistanceKey, 0.3), (TerrainKey, 0.2), (EnvironmentKey, 0.15),
    (CostKey, 0.2), (AccessKey, 0.15)]

  /** The user's `criteriaWeights` object after `float()` of each value. */
  type UserWeights = map<string, real>

  /** The weights after the user's overrides: a non-empty user dictionary
      replaces each default key it holds; every other entry stays. */
  function Overridden(w: Weights, user: UserWeights): (r: Weights)
    ensures Keys(r) == Keys(w)
    ensures forall i :: 0 <= i < |w| ==>
      r[i].1 == (if user != map[] && w[i].0 in user then user[w[i].0] else w[i].1)
  {
    seq(|w|, i requires 0 <= i < |w| =>
      if user != map[] && w[i].0 in user then (w[i].0, user[w[i].0]) else w[i])
  }

  /** Division by the total when it is positive; otherwise no change. */
  function Normalised(w: Weights): (r: Weights)
    ensures Keys(r) == Keys(w)
    ensures Sum(w) > 0.0 ==> Sum(r) == 1.0
    ensures Sum(w) > 0.0 ==> forall i :: 0 <= i < |w| ==> r[i].1 * Sum(w) == w[i].1
    ensures Sum(w) <= 0.0 ==> r == w
  {
    if Sum(w) > 0.0 then
      NormalisedSumsToOne(w);
      Scaled(w, Sum(w))
    else w
  }

  /** The weights calculate_route builds: the defaults, overridden by the
      user's values, then normalised. Both passes update the dictionary in
      place, one key at a time. */
  method PlanWeights(user: UserWeights) returns (weights: Weights)
    ensures weights == Normalised(Overridden(DefaultWeights, user))
  {
    weights := DefaultWeights;
    ghost var overridden := Overridden(DefaultWeights, user);
    if user != map[] {
      var i := 0;
      while i < |weights|
        invariant 0 <= i <= |weights| == |DefaultWeights|
        invariant forall j :: 0 <= j < |weights| ==>
          weights[j] == (if j < i then overridden[j] else DefaultWeights[j])
      {
        var key := weights[i].0;
        if key in user {
          weights := weights[i := (key, user[key])];
        }
        i := i + 1;
      }
    }
    assert weights == overridden;
    var total := Sum(weights);
    if total > 0.0 {
      ghost var target := Scaled(overridden, total);
      var i := 0;
      while i < |weights|
        invariant 0 <= i <= |weights| == |overridden|
        invariant forall j :: 0 <= j < |weights| ==>
          weights[j] == (if j < i then target[j] else overridden[j])
      {
        weights := weights[i := (weights[i].0, weights[i].1 / total)];
        i := i + 1;
      }
      assert weights == target;
    }
  }

  /** Only the five known keys can be overridden: whatever else the user
      sends changes nothing. */
  lemma UnknownKeyIgnored(user: UserWeights, key: string, v: real)
    requires key !in Keys(DefaultWeights)
    ensures Overridden(DefaultWeights, user[key := v]) == Overridden(DefaultWeights, user)
  {
    var a := Overridden(DefaultWeights, user[key := v]);
    var b := Overridden(DefaultWeights, user);
    forall i | 0 <= i < |DefaultWeights| ensures a[i] == b[i] {
      assert DefaultWeights[i].0 == Keys(DefaultWeights)[i];
    }
  }

  /** With no user weights the defaults, which already sum to one, are
      used as they are. */
  lemma NoUserWeights()
    ensures Normalised(Overridden(DefaultWeights, map[])) == DefaultWeights
  {
    var w := Overridden(DefaultWeights, map[]);
    assert w == DefaultWeights;
    DefaultsSumToOne();
    var r := Normalised(w);
    forall i | 0 <= i < |w| ensures r[i] == w[i] {
      assert r[i].1 * 1.0 == w[i].1;
      assert Keys(r)[i] == Keys(w)[i];
    }
  }

  /** The weights handed to the planner sum to one unless the overridden
      total is not positive, in which case they are the overridden values;
      with non-negative user values that only happens when every weight
      the planner gets is zero. */
  lemma PlannedSum(user: UserWeights)
    ensures var o := Overridden(DefaultWeights, user);
      (Sum(o) > 0.0 ==> Sum(Normalised(o)) == 1.0) && (Sum(o) <= 0.0 ==> Normalised(o) == o)
    ensures var o := Overridden(DefaultWeights, user);
      (forall k :: k in user ==> user[k] >= 0.0) && Sum(o) <= 0.0 ==>
        forall i :: 0 <= i < |o| ==> Normalised(o)[i].1 == 0.0
  {
    var o := Overridden(DefaultWeights, user);
    if (forall k :: k in user ==> user[k] >= 0.0) && Sum(o) <= 0.0 {
      PlannedWellFormed(user);
      forall i | 0 <= i < |o| ensures o[i].1 == 0.0 {
        SumAtLeastEntry(o, i);
      }
    }
  }

  lemma DefaultsSumToOne()
    ensures Sum(DefaultWeights) == 1.0
  {
    var w := DefaultWeights;
    assert Sum(w[4..]) == 0.15 by { assert w[4..][1..] == []; }
    assert Sum(w[3..]) == 0.2 + Sum(w[4..]) by { assert w[3..][1..] == w[4..]; }
    assert Sum(w[2..]) == 0.15 + Sum(w[3..]) by { assert w[2..][1..] == w[3..]; }
    assert Sum(w[1..]) == 0.2 + Sum(w[2..]) by { assert w[1..][1..] == w[2..]; }
  }

  /** Non-negative user values give weights the planner accepts. */
  lemma PlannedWellFormed(user: UserWeights)
    requires forall k :: k in user ==> user[k] >= 0.0
    ensures WellFormedWeights(Normalised(Overridden(DefaultWeights, user)))
  {
    var o := Overridden(DefaultWeights, user);
    assert Keys(o) == Keys(DefaultWeights);
    assert o[0].0 == DistanceKey && o[1].0 == TerrainKey && o[2].0 == EnvironmentKey &&
           o[3].0 == CostKey && o[4].0 == AccessKey by {
      assert Keys(DefaultWeights) == [DistanceKey, TerrainKey, EnvironmentKey, CostKey, AccessKey];
    }
    assert DistinctKeys(o);
    GetAt(o, 0);
    GetAt(o, 1);
    GetAt(o, 2);
    GetAt(o, 3);
    assert WellFormedWeights(o);
    if Sum(o) > 0.0 {
      ScaledWellFormed(o, Sum(o));
    }
  }

  // ---------------------------------------------------------------
  // Direction of a route step

  datatype Direction = North | South | East | West

  /** _get_direction: north or south when the latitude change dominates
      strictly, east or west otherwise; a non-positive change goes south
      or west. */
  function StepDirection(prev: Pos, current: Pos): (d: Direction)
    ensures var dLat := current.lat - prev.lat; var dLng := current.lng - prev.lng;
      (d == North <==> Abs(dLat) > Abs(dLng) && dLat > 0.0) &&
      (d == South <==> Abs(dLat) > Abs(dLng) && dLat <= 0.0) &&
      (d == East <==> Abs(dLat) <= Abs(dLng) && dLng > 0.0) &&
      (d == West <==> Abs(dLat) <= Abs(dLng) && dLng <= 0.0)
  {
    var dLat := current.lat - prev.lat;
    var dLng := current.lng - prev.lng;
    if Abs(dLat) > Abs(dLng) then
      if dLat > 0.0 then North else South
    else
      if dLng > 0.0 then East else West
  }

  function Opposite(d: Direction): Direction
  {
    match d
    case North => South
    case South => North
    case East => West
    case West => East
  }

  /** A step that does not move, and so any tie with no displacement,
      reads as west. */
  lemma NoMoveIsWest(p: Pos)
    ensures StepDirection(p, p) == West
  {
  }

  /** Walking a step backwards gives the opposite direction, except when
      the dominant displacement is zero, where both ways read as west. */
  lemma ReversedStep(p: Pos, q: Pos)
    ensures p != q ==> StepDirection(q, p) == Opposite(StepDirection(p, q))
    ensures p == q ==> StepDirection(q, p) == West
  {
    var dLat := q.lat - p.lat;
    var dLng := q.lng - p.lng;
    if p != q && Abs(dLat) <= Abs(dLng) {
      assert dLng != 0.0;
    }
  }

  /** Only the displacement matters: shifting both points changes nothing. */
  lemma ShiftedStep(p: Pos, q: Pos, a: real, b: real)
    ensures StepDirection(Pos(p.lat + a, p.lng + b), Pos(q.lat + a, q.lng + b)) == StepDirection(p, q)
  {
    assert (q.lat + a) - (p.lat + a) == q.lat - p.lat;
    assert (q.lng + b) - (p.lng + b) == q.lng - p.lng;
  }

  // ---------------------------------------------------------------
  // Construction time

  /** Kilometres laid per day for a pipe diameter in millimetres. */
  function BaseRate(diameter: real): (r: real)
    ensures r == 0.5 || r == 0.3 || r == 0.2
    ensures r == 0.5 <==> diameter <= 300.0
    ensures r == 0.2 <==> diameter > 700.0
  {
    if diameter <= 300.0 then 0.5
    else if diameter <= 700.0 then 0.3
    else 0.2
  }

  /** Larger pipes are never laid faster. */
  lemma BaseRateAntitone(d1: real, d2: real)
    requires d1 <= d2
    ensures BaseRate(d2) <= BaseRate(d1)
  {
  }

  /** The pipe-type factor: gas slows the work, water speeds it up, and an
      unknown type counts as oil. */
  function TypeFactor(pipeType: string): (r: real)
    ensures 0.9 <= r <= 1.2
    ensures r == 1.2 <==> pipeType == "gas"
    ensures r == 0.9 <==> pipeType == "water"
    ensures r == 1.0 <==> pipeType != "gas" && pipeType != "water"
  {
    if pipeType == "oil" then 1.0
    else if pipeType == "gas" then 1.2
    else if pipeType == "water" then 0.9
    else 1.0
  }

  /** The unrounded estimate in days. */
  function ExactDays(distance: real, terrainScore: real, diameter: real, pipeType: string): real
  {
    (distance / BaseRate(diameter)) * (1.0 + terrainScore) * TypeFactor(pipeType)
  }

  /** The whole number of days: the estimate rounded up. */
  function DaysNeeded(distance: real, terrainScore: real, diameter: real, pipeType: string): (r: int)
    ensures var x := ExactDays(distance, terrainScore, diameter, pipeType); r as real - 1.0 < x <= r as real
    ensures distance >= 0.0 && terrainScore >= 0.0 ==> r >= 0
    ensures distance > 0.0 && terrainScore >= 0.0 ==> r >= 1
  {
    var x := ExactDays(distance, terrainScore, diameter, pipeType);
    assert distance >= 0.0 && terrainScore >= 0.0 ==> x >= 0.0 by {
      if distance >= 0.0 && terrainScore >= 0.0 {
        NonNegativeProduct(distance / BaseRate(diameter), 1.0 + terrainScore, TypeFactor(pipeType));
      }
    }
    assert distance > 0.0 && terrainScore >= 0.0 ==> x > 0.0 by {
      if distance > 0.0 && terrainScore >= 0.0 {
        PositiveProduct(distance / BaseRate(diameter), 1.0 + terrainScore, TypeFactor(pipeType));
      }
    }
    Ceil(x)
  }

  lemma NonNegativeProduct(a: real, b: real, c: real)
    requires a >= 0.0 && b >= 0.0 && c >= 0.0
    ensures a * b * c >= 0.0
  {
  }

  lemma PositiveProduct(a: real, b: real, c: real)
    requires a > 0.0 && b > 0.0 && c > 0.0
    ensures a * b * c > 0.0
  {
  }

  /** A longer route with the same pipe and terrain never takes fewer days. */
  lemma DaysMonotone(d1: real, d2: real, terrainScore: real, diameter: real, pipeType: string)
    requires d1 <= d2 && terrainScore >= -1.0
    ensures DaysNeeded(d1, terrainScore, diameter, pipeType) <= DaysNeeded(d2, terrainScore, diameter, pipeType)
  {
    var k := (1.0 + terrainScore) * TypeFactor(pipeType);
    var rate := BaseRate(diameter);
    assert d1 / rate <= d2 / rate;
    assert ExactDays(d1, terrainScore, diameter, pipeType) == (d1 / rate) * k;
    assert ExactDays(d2, terrainScore, diameter, pipeType) == (d2 / rate) * k;
    assert (d1 / rate) * k <= (d2 / rate) * k by {
      assert k >= 0.0;
      assert (d2 / rate) * k - (d1 / rate) * k == (d2 / rate - d1 / rate) * k;
    }
    CeilMonotone(ExactDays(d1, terrainScore, diameter, pipeType), ExactDays(d2, terrainScore, diameter, pipeType));
  }

  lemma CeilMonotone(x: real, y: real)
    requires x <= y
    ensures Ceil(x) <= Ceil(y)
  {
  }

  /** The form the estimate is shown in. */
  datatype Duration =
    | Days(days: int)
    | Months(months: int)
    | YearsAndMonths(years: int, months: int)
    | Years(years: int)

  /** The display bucket for a number of days: up to thirty as days, up to
      a year as months rounded up, beyond that whole years and the
      remaining days as months rounded up, the months dropped when none
      remain. */
  function Bucket(days: int): (r: Duration)
    ensures r.Days? <==> days <= 30
    ensures r.Days? ==> r.days == days
    ensures r.Months? <==> 30 < days <= 365
    ensures r.Months? ==> 2 <= r.months <= 13 && (r.months - 1) * 30 < days <= r.months * 30
    ensures r.YearsAndMonths? ==>
              && r.years >= 1 && 1 <= r.months <= 13
              && r.years * 365 + (r.months - 1) * 30 < days <= r.years * 365 + r.months * 30
              && days < (r.years + 1) * 365
    ensures r.Years? ==> r.years >= 1 && days == r.years * 365
  {
    if days <= 30 then Days(days)
    else if days <= 365 then Months(Ceil(days as real / 30.0))
    else
      var years := Trunc(days as real / 365.0);
      var months := Ceil((days % 365) as real / 30.0);
      assert years == days / 365 by {
        WholeYears(days);
      }
      if months > 0 then YearsAndMonths(years, months) else Years(years)
  }

  /** For a non-negative count, the whole years of the real quotient are
      the integer quotient. */
  lemma WholeYears(n: int)
    requires n >= 0
    ensures Trunc(n as real / 365.0) == n / 365
  {
    var q := n / 365;
    var x := n as real / 365.0;
    assert q * 365 <= n < q * 365 + 365;
    assert x * 365.0 == n as real;
    assert q as real <= x < q as real + 1.0;
  }

  /** calculate_construction_time on a path's metrics dictionary; an error
      dictionary holds neither key and the lookup fails. */
  function ConstructionTime(m: Metrics, diameter: real, pipeType: string): (r: Option<Duration>)
    ensures r.None? <==> m.NoPath?
    ensures m.Metrics? && m.totalDistance >= 0.0 && m.terrainDifficultyScore >= 0.0 ==>
      r.value.Days? ==> 0 <= r.value.days <= 30
    ensures m.Metrics? && m.totalDistance > 0.0 && m.terrainDifficultyScore >= 0.0 ==>
      r.value.Days? ==> 1 <= r.value.days
  {
    match m
    case NoPath => None
    case Metrics(_, _, _, _, _, _) =>
      Some(Bucket(DaysNeeded(m.totalDistance, m.terrainDifficultyScore, diameter, pipeType)))
  }
}
