/** The pipeline cost formulas of route_planner/costs.py: construction cost,
    environmental impact and yearly operational costs, as real arithmetic
    over the pipe specification and a terrain difficulty in [0, 1]. */
module CostModel {
  import opened Base

  /** Rubles (millions) per km for a pipe of the given diameter in mm. */
  function BaseCostPerKm(diameter: real): real
  {
    0.00002 * (diameter * diameter) + 0.01 * diameter
  }

  /** Material factor; a material outside the table costs like steel. */
  function MaterialFactor(material: string): (r: real)
    ensures material !in {"steel", "plastic", "composite"} ==> r == 1.0
  {
    if material == "steel" then 1.0
    else if material == "plastic" then 0.8
    else if material == "composite" then 1.4
    else 1.0
  }

  /** Installation factor by pipeline type for construction; unknown types
      get 1.0. */
  function ConstructionTypeFactor(pipeType: string): (r: real)
    ensures pipeType !in {"oil", "gas", "water"} ==> r == 1.0
  {
    if pipeType == "oil" then 1.2
    else if pipeType == "gas" then 1.3
    else if pipeType == "water" then 0.9
    else 1.0
  }

  /** 1 + 2 * difficulty^2. */
  function TerrainCostFactor(terrainDifficulty: real): real
  {
    1.0 + (terrainDifficulty * terrainDifficulty) * 2.0
  }

  /** calculate_construction_cost. */
  function ConstructionCost(distance: real, diameter: real, material: string,
                            terrainDifficulty: real, pipeType: string): real
  {
    BaseCostPerKm(diameter) * MaterialFactor(material) * ConstructionTypeFactor(pipeType)
      * TerrainCostFactor(terrainDifficulty) * distance
  }

  /** The cost on flat terrain (difficulty 0). */
  function FlatConstructionCost(distance: real, diameter: real, material: string, pipeType: string): real
  {
    ConstructionCost(distance, diameter, material, 0.0, pipeType)
  }

  /** Base impact by pipeline type; unknown types count as 0.5. */
  function ImpactBase(pipeType: string): (r: real)
    ensures pipeType !in {"oil", "gas", "water"} ==> r == 0.5
  {
    if pipeType == "oil" then 0.7
    else if pipeType == "gas" then 0.5
    else if pipeType == "water" then 0.2
    else 0.5
  }

  /** (diameter - 100) / 1900 clamped to [0, 1]. */
  function DiameterNormalized(diameter: real): (r: real)
    ensures 0.0 <= r <= 1.0
  {
    Min(Max((diameter - 100.0) / 1900.0, 0.0), 1.0)
  }

  /** The impact before the final clamp. */
  function RawImpact(pipeType: string, diameter: real, terrainDifficulty: real): real
  {
    ImpactBase(pipeType) * 0.5 + (0.3 + DiameterNormalized(diameter) * 0.7) * 0.2
      + (0.5 + terrainDifficulty * 0.5) * 0.3
  }

  /** calculate_environmental_impact. */
  function EnvironmentalImpact(pipeType: string, diameter: real, terrainDifficulty: real): (r: real)
    ensures 0.0 <= r <= 1.0
  {
    Min(Max(RawImpact(pipeType, diameter, terrainDifficulty), 0.0), 1.0)
  }

  /** Yearly operational cost components (millions of rubles). */
  datatype OperationalCosts = OperationalCosts(maintenance: real, pumping: real, inspection: real, total: real)

  function MaintenanceTypeFactor(pipeType: string): real
  {
    if pipeType == "oil" then 1.3
    else if pipeType == "gas" then 1.4
    else if pipeType == "water" then 0.9
    else 1.0
  }

  function PumpingFactor(pipeType: string): real
  {
    if pipeType == "oil" then 1.2
    else if pipeType == "gas" then 0.8
    else if pipeType == "water" then 0.9
    else 1.0
  }

  /** calculate_operational_costs. Pumping divides by the diameter, which
      raises ZeroDivisionError at 0: the source needs a non-zero diameter. */
  function CalculateOperationalCosts(distance: real, diameter: real, terrainDifficulty: real,
                                     pipeType: string): (r: OperationalCosts)
    requires diameter != 0.0
    ensures r.total == r.maintenance + r.pumping + r.inspection
  {
    var typeFactor := MaintenanceTypeFactor(pipeType);
    var maintenance := 0.001 * (diameter / 100.0) * distance * (1.0 + terrainDifficulty) * typeFactor;
    var flowResistance := (distance / diameter) * 1000.0;
    var pumping := 0.0005 * flowResistance * PumpingFactor(pipeType);
    var inspection := 0.0002 * distance * typeFactor * (1.0 + terrainDifficulty * 0.5);
    OperationalCosts(maintenance, pumping, inspection, maintenance + pumping + inspection)
  }

  // ---------------------------------------------------------------
  // Properties

  /** The source's calibration comment: a 500 mm pipe costs 10 per km. */
  lemma BaseCostAt500()
    ensures BaseCostPerKm(500.0) == 10.0
  {
  }

  /** For difficulty in [0, 1] the terrain multiplies cost by 1 to 3. */
  lemma TerrainCostFactorRange(td: real)
    requires 0.0 <= td <= 1.0
    ensures 1.0 <= TerrainCostFactor(td) <= 3.0
  {
    assert td * td <= 1.0 by { assert td * td <= td * 1.0; }
  }

  /** The terrain factor only grows with difficulty on [0, 1]. */
  lemma TerrainCostFactorMonotone(a: real, b: real)
    requires 0.0 <= a <= b
    ensures TerrainCostFactor(a) <= TerrainCostFactor(b)
  {
    assert a * a <= a * b <= b * b;
  }

  /** Construction cost is linear in distance: zero for zero length and
      additive over consecutive stretches. */
  lemma ConstructionCostLinear(d1: real, d2: real, diameter: real, material: string,
                               td: real, pipeType: string)
    ensures ConstructionCost(0.0, diameter, material, td, pipeType) == 0.0
    ensures ConstructionCost(d1 + d2, diameter, material, td, pipeType)
         == ConstructionCost(d1, diameter, material, td, pipeType)
          + ConstructionCost(d2, diameter, material, td, pipeType)
  {
    var k := BaseCostPerKm(diameter) * MaterialFactor(material) * ConstructionTypeFactor(pipeType)
             * TerrainCostFactor(td);
    assert ConstructionCost(d1 + d2, diameter, material, td, pipeType) == k * (d1 + d2);
    assert k * (d1 + d2) == k * d1 + k * d2;
  }

  /** A non-negative diameter and distance give a non-negative cost. */
  lemma ConstructionCostNonNegative(distance: real, diameter: real, material: string,
                                    td: real, pipeType: string)
    requires distance >= 0.0 && diameter >= 0.0
    ensures ConstructionCost(distance, diameter, material, td, pipeType) >= 0.0
  {
    var b := BaseCostPerKm(diameter);
    assert b >= 0.0 by { assert diameter * diameter >= 0.0; }
    var f := TerrainCostFactor(td);
    assert f >= 1.0 by { assert td * td >= 0.0; }
    var k := b * MaterialFactor(material);
    assert k >= 0.0;
    var k2 := k * ConstructionTypeFactor(pipeType);
    assert k2 >= 0.0;
    var k3 := k2 * f;
    assert k3 >= 0.0;
    assert k3 * distance >= 0.0;
  }

  /** (a f) d = (a d) f. */
  lemma MulRotate(a: real, f: real, d: real)
    ensures a * f * d == (a * d) * f
  {
  }

  /** A non-negative amount scaled by a factor in [1, 3] lies between the
      amount and three times it. */
  lemma ScaleWithinThree(x: real, f: real)
    requires x >= 0.0 && 1.0 <= f <= 3.0
    ensures x <= x * f <= 3.0 * x
  {
    assert x * (f - 1.0) >= 0.0;
    assert x * (3.0 - f) >= 0.0;
  }

  /** Hard terrain costs at most three times the flat-terrain cost, and at
      least the flat-terrain cost. */
  lemma ConstructionCostWithinThreeTimesFlat(distance: real, diameter: real, material: string,
                                             td: real, pipeType: string)
    requires distance >= 0.0 && diameter >= 0.0 && 0.0 <= td <= 1.0
    ensures FlatConstructionCost(distance, diameter, material, pipeType)
         <= ConstructionCost(distance, diameter, material, td, pipeType)
         <= 3.0 * FlatConstructionCost(distance, diameter, material, pipeType)
  {
    var b := BaseCostPerKm(diameter);
    assert b >= 0.0 by { assert diameter * diameter >= 0.0; }
    var k := b * MaterialFactor(material) * ConstructionTypeFactor(pipeType);
    assert k >= 0.0;
    var kd := k * distance;
    assert kd >= 0.0;
    TerrainCostFactorRange(td);
    var f := TerrainCostFactor(td);
    assert TerrainCostFactor(0.0) == 1.0;
    MulRotate(k, f, distance);
    MulRotate(k, 1.0, distance);
    var cost := ConstructionCost(distance, diameter, material, td, pipeType);
    var flat := FlatConstructionCost(distance, diameter, material, pipeType);
    assert cost == kd * f;
    assert flat == kd;
    ScaleWithinThree(kd, f);
    assert flat <= cost <= 3.0 * flat;
  }

  lemma DiameterNormalizedMonotone(a: real, b: real)
    requires a <= b
    ensures DiameterNormalized(a) <= DiameterNormalized(b)
  {
    assert (a - 100.0) / 1900.0 <= (b - 100.0) / 1900.0;
  }

  /** Impact never decreases as the terrain gets harder or the pipe wider. */
  lemma EnvironmentalImpactMonotone(pipeType: string, d1: real, d2: real, t1: real, t2: real)
    requires d1 <= d2 && t1 <= t2
    ensures EnvironmentalImpact(pipeType, d1, t1) <= EnvironmentalImpact(pipeType, d2, t2)
  {
    DiameterNormalizedMonotone(d1, d2);
    assert RawImpact(pipeType, d1, t1) <= RawImpact(pipeType, d2, t2);
    ClampMonotone(RawImpact(pipeType, d1, t1), RawImpact(pipeType, d2, t2), 0.0, 1.0);
  }

  /** Inside the calibrated ranges no clamp is active: impact is the raw
      weighted sum, between 0.31 (water, narrowest pipe, flat terrain) and
      0.85 (oil, widest pipe, hardest terrain). */
  lemma EnvironmentalImpactUnclamped(pipeType: string, diameter: real, td: real)
    requires 0.0 <= td <= 1.0
    ensures EnvironmentalImpact(pipeType, diameter, td) == RawImpact(pipeType, diameter, td)
    ensures 0.31 <= EnvironmentalImpact(pipeType, diameter, td) <= 0.85
  {
  }

  /** Operational costs are linear in distance, like construction cost. */
  lemma OperationalCostsLinear(d1: real, d2: real, diameter: real, td: real, pipeType: string)
    requires diameter != 0.0
    ensures CalculateOperationalCosts(d1 + d2, diameter, td, pipeType).total
         == CalculateOperationalCosts(d1, diameter, td, pipeType).total
          + CalculateOperationalCosts(d2, diameter, td, pipeType).total
  {
    var tf := MaintenanceTypeFactor(pipeType);
    var m := 0.001 * (diameter / 100.0);
    var mt := (1.0 + td) * tf;
    assert m * (d1 + d2) * mt == m * d1 * mt + m * d2 * mt;
    var p := 0.0005 * PumpingFactor(pipeType);
    assert p * (((d1 + d2) / diameter) * 1000.0) == p * ((d1 / diameter) * 1000.0) + p * ((d2 / diameter) * 1000.0);
    var i := 0.0002 * tf * (1.0 + td * 0.5);
    assert 0.0002 * (d1 + d2) * tf * (1.0 + td * 0.5) == 0.0002 * d1 * tf * (1.0 + td * 0.5) + 0.0002 * d2 * tf * (1.0 + td * 0.5);
  }

  /** Non-negative inputs and a positive diameter give non-negative costs. */
  lemma OperationalCostsNonNegative(distance: real, diameter: real, td: real, pipeType: string)
    requires distance >= 0.0 && diameter > 0.0 && td >= 0.0
    ensures var r := CalculateOperationalCosts(distance, diameter, td, pipeType);
      r.maintenance >= 0.0 && r.pumping >= 0.0 && r.inspection >= 0.0 && r.total >= 0.0
  {
    var tf := MaintenanceTypeFactor(pipeType);
    assert tf > 0.0 && PumpingFactor(pipeType) > 0.0;
    var a := 0.001 * (diameter / 100.0) * distance;
    assert a >= 0.0;
    assert a * (1.0 + td) >= 0.0;
    assert a * (1.0 + td) * tf >= 0.0;
    assert distance / diameter >= 0.0;
    var b := 0.0002 * distance * tf;
    assert b >= 0.0;
    assert b * (1.0 + td * 0.5) >= 0.0;
  }
}
