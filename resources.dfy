/** Per-cell resource dynamics: regeneration scaled by terrain, temperature and
    humidity and capped at the maximum density, multiplicative decay, and the
    rounding of tiny densities to zero. Each operation rewrites the six density
    slots of one cell, one slot per loop iteration. */
module Resources {
  import opened Util
  import opened WorldCell

  /** MAX_RESOURCE_DENSITY. */
  const MaxResourceDensity: real := 1.0

  /** REGENERATION_RATES, one row per terrain in `TerrainType::Index` order. */
  const RegenerationRates: seq<Slots> := [
    [0.0, 0.1, 0.3, 1.0, 0.2, 0.5],   // Ocean
    [0.3, 0.1, 0.8, 0.4, 0.2, 0.3],   // Plains
    [0.8, 0.05, 0.5, 0.6, 0.4, 0.2],  // Forest
    [0.05, 0.2, 1.0, 0.1, 0.05, 0.1], // Desert
    [0.1, 0.1, 0.6, 0.3, 0.1, 0.1],   // Tundra
    [0.05, 0.5, 0.7, 0.2, 0.05, 0.05],// Mountain
    [0.4, 0.05, 0.4, 1.0, 0.6, 0.3],  // Swamp
    [0.0, 0.8, 0.9, 0.1, 0.1, 0.0]    // Volcanic
  ]

  /** DECAY_RATES. */
  const DecayRates: Slots := [0.01, 0.0, 0.1, 0.02, 0.05, 0.03]

  function RegenerationRate(t: TerrainType, i: nat): real
    requires i < ResourceCount
  {
    RegenerationRates[t.Index()][i]
  }

  lemma RegenerationRatesInUnitRange(t: TerrainType, i: nat)
    requires i < ResourceCount
    ensures 0.0 <= RegenerationRate(t, i) <= 1.0
  {
  }

  /** Full rate at temperature 0.5, falling linearly to zero at distance 0.5 from it. */
  function TemperatureMultiplier(temperature: real): real
  {
    1.0 - Min(Abs(temperature - 0.5) * 2.0, 1.0)
  }

  /** The multiplier lies in [0, 1], is 1 only at the optimum and 0 exactly at
      distance 0.5 or more from it. */
  lemma TemperatureMultiplierSpec(temperature: real)
    ensures 0.0 <= TemperatureMultiplier(temperature) <= 1.0
    ensures TemperatureMultiplier(temperature) == 1.0 <==> temperature == 0.5
    ensures TemperatureMultiplier(temperature) == 0.0 <==> Abs(temperature - 0.5) >= 0.5
  {
  }

  function HumidityMultiplier(humidity: real, t: ResourceType): real
  {
    match t
    case Plant => 0.5 + humidity * 0.5
    case Water => humidity
    case Sunlight => 1.0
    case Mineral => 1.0
    case Detritus => 0.5 + humidity * 0.5
    case Prey => 0.3 + humidity * 0.7
  }

  /** Sunlight and minerals ignore humidity, water follows it exactly, and every
      multiplier is non-negative for non-negative humidity and at most 1 for
      humidity at most 1. */
  lemma HumidityMultiplierSpec(humidity: real, t: ResourceType)
    ensures t == Sunlight || t == Mineral ==> HumidityMultiplier(humidity, t) == 1.0
    ensures t == Water ==> HumidityMultiplier(humidity, t) == humidity
    ensures 0.0 <= humidity <= 1.0 ==> 0.0 <= HumidityMultiplier(humidity, t) <= 1.0
    ensures 0.0 <= humidity ==> HumidityMultiplier(humidity, t) >= 0.0
  {
  }

  /** The terrain's rate for slot i scaled by both climate multipliers. */
  function EffectiveRate(c: Cell, i: nat): real
    requires i < ResourceCount
  {
    RegenerationRate(c.terrain, i) * TemperatureMultiplier(c.temperature)
    * HumidityMultiplier(c.humidity, ResourceAt(i))
  }

  /** The regenerated value of slot i. */
  function RegeneratedSlot(c: Cell, i: nat, dt: real): real
    requires i < ResourceCount
  {
    Min(c.density[i] + EffectiveRate(c, i) * dt, MaxResourceDensity)
  }

  function Regenerated(c: Cell, dt: real): Cell
  {
    c.(density := seq(ResourceCount, i requires 0 <= i < ResourceCount => RegeneratedSlot(c, i, dt)))
  }

  /** The decayed value of slot i; a slot whose decay rate is zero is untouched. */
  function DecayedSlot(c: Cell, i: nat, dt: real): real
    requires i < ResourceCount
  {
    if DecayRates[i] > 0.0 then Max(c.density[i] * (1.0 - DecayRates[i] * dt), 0.0)
    else c.density[i]
  }

  function Decayed(c: Cell, dt: real): Cell
  {
    c.(density := seq(ResourceCount, i requires 0 <= i < ResourceCount => DecayedSlot(c, i, dt)))
  }

  function QuantizedSlot(c: Cell, i: nat, threshold: real): real
    requires i < ResourceCount
  {
    if c.density[i] < threshold then 0.0 else c.density[i]
  }

  function Quantized(c: Cell, threshold: real): Cell
  {
    c.(density := seq(ResourceCount, i requires 0 <= i < ResourceCount => QuantizedSlot(c, i, threshold)))
  }

  /** `regenerate_resources`: slot by slot over the terrain's rate row. */
  method RegenerateResources(cell: Cell, dt: real) returns (c: Cell)
    ensures c == Regenerated(cell, dt)
  {
    c := cell;
    for i := 0 to ResourceCount
      invariant c == cell.(density := c.density)
      invariant forall j :: 0 <= j < i ==> c.density[j] == RegeneratedSlot(cell, j, dt)
      invariant forall j :: i <= j < ResourceCount ==> c.density[j] == cell.density[j]
    {
      var newValue := RegenerateSlot(cell, i, c.density[i], dt);
      c := c.(density := c.density[i := newValue]);
    }
    assert c.density == Regenerated(cell, dt).density;
  }

  /** The body of the regeneration loop for slot i: grow by the effective rate
      times dt, capped at the maximum density. */
  method RegenerateSlot(cell: Cell, i: nat, current: real, dt: real) returns (newValue: real)
    requires i < ResourceCount && current == cell.density[i]
    ensures newValue == RegeneratedSlot(cell, i, dt)
  {
    var effective := EffectiveRate(cell, i);
    newValue := Min(current + effective * dt, MaxResourceDensity);
  }

  /** `decay_resources`: every slot with a positive decay rate shrinks by rate * dt. */
  method DecayResources(cell: Cell, dt: real) returns (c: Cell)
    ensures c == Decayed(cell, dt)
  {
    c := cell;
    for i := 0 to ResourceCount
      invariant c == cell.(density := c.density)
      invariant forall j :: 0 <= j < i ==> c.density[j] == DecayedSlot(cell, j, dt)
      invariant forall j :: i <= j < ResourceCount ==> c.density[j] == cell.density[j]
    {
      var newValue := DecaySlot(cell, i, c.density[i], dt);
      c := c.(density := c.density[i := newValue]);
    }
    assert c.density == Decayed(cell, dt).density;
  }

  /** The body of the decay loop for slot i; a slot whose rate is zero keeps its value. */
  method DecaySlot(cell: Cell, i: nat, current: real, dt: real) returns (newValue: real)
    requires i < ResourceCount && current == cell.density[i]
    ensures newValue == DecayedSlot(cell, i, dt)
  {
    var rate := DecayRates[i];
    newValue := current;
    if rate > 0.0 {
      newValue := Max(current * (1.0 - rate * dt), 0.0);
    }
  }

  /** `quantize_resources`: every slot below the threshold becomes zero. */
  method QuantizeResources(cell: Cell, threshold: real) returns (c: Cell)
    ensures c == Quantized(cell, threshold)
  {
    c := cell;
    for i := 0 to ResourceCount
      invariant c == cell.(density := c.density)
      invariant forall j :: 0 <= j < i ==> c.density[j] == QuantizedSlot(cell, j, threshold)
      invariant forall j :: i <= j < ResourceCount ==> c.density[j] == cell.density[j]
    {
      if c.density[i] < threshold {
        c := c.(density := c.density[i := 0.0]);
      }
    }
    assert c.density == Quantized(cell, threshold).density;
  }

  /** Regeneration never leaves a slot above the maximum density, whatever it held. */
  lemma RegeneratedAtMostMax(c: Cell, dt: real, i: nat)
    requires i < ResourceCount
    ensures Regenerated(c, dt).density[i] <= MaxResourceDensity
  {
  }

  /** With non-negative humidity and time step, regeneration never lowers a slot
      below its old value capped at the maximum; in particular it never lowers a slot
      that was within capacity. */
  lemma RegenerationNeverLowers(c: Cell, dt: real, i: nat)
    requires i < ResourceCount
    requires c.humidity >= 0.0 && dt >= 0.0
    ensures Regenerated(c, dt).density[i] >= Min(c.density[i], MaxResourceDensity)
    ensures c.density[i] <= MaxResourceDensity ==> Regenerated(c, dt).density[i] >= c.density[i]
  {
    EffectiveRateNonNegative(c, i);
    MulNonNegative(EffectiveRate(c, i), dt);
  }

  /** With non-negative humidity every effective rate is non-negative. */
  lemma EffectiveRateNonNegative(c: Cell, i: nat)
    requires i < ResourceCount && c.humidity >= 0.0
    ensures EffectiveRate(c, i) >= 0.0
  {
    var r := RegenerationRate(c.terrain, i);
    var tm := TemperatureMultiplier(c.temperature);
    var hm := HumidityMultiplier(c.humidity, ResourceAt(i));
    RegenerationRatesInUnitRange(c.terrain, i);
    TemperatureMultiplierSpec(c.temperature);
    HumidityMultiplierSpec(c.humidity, ResourceAt(i));
    MulNonNegative(r, tm);
    MulNonNegative(r * tm, hm);
  }

  /** Ocean and volcanic cells never grow plants. */
  lemma NoPlantGrowthOnOceanOrVolcanic(c: Cell, dt: real)
    requires c.terrain == Ocean || c.terrain == Volcanic
    ensures Regenerated(c, dt).GetResource(Plant) == Min(c.GetResource(Plant), MaxResourceDensity)
  {
  }

  /** At a temperature 0.5 or more away from the optimum nothing regenerates. */
  lemma NoGrowthAtExtremeTemperature(c: Cell, dt: real, i: nat)
    requires i < ResourceCount
    requires Abs(c.temperature - 0.5) >= 0.5
    ensures Regenerated(c, dt).density[i] == Min(c.density[i], MaxResourceDensity)
  {
    TemperatureMultiplierSpec(c.temperature);
  }

  /** Minerals never decay; every decaying slot stays non-negative. */
  lemma DecayKeepsMineralsAndSign(c: Cell, dt: real, i: nat)
    requires i < ResourceCount
    ensures Decayed(c, dt).GetResource(Mineral) == c.GetResource(Mineral)
    ensures i != Mineral.Index() ==> Decayed(c, dt).density[i] >= 0.0
  {
  }

  /** Decay never raises a non-negative slot. */
  lemma DecayNeverRaises(c: Cell, dt: real, i: nat)
    requires i < ResourceCount
    requires c.density[i] >= 0.0 && dt >= 0.0
    ensures Decayed(c, dt).density[i] <= c.density[i]
  {
    var q := DecayRates[i] * dt;
    assert q >= 0.0;
    assert c.density[i] * (1.0 - q) == c.density[i] - c.density[i] * q;
    assert c.density[i] * q >= 0.0;
  }

  /** Quantizing zeroes exactly the slots below the threshold, and a second pass
      changes nothing. */
  lemma QuantizeZeroesSmallAndIsIdempotent(c: Cell, threshold: real, i: nat)
    requires i < ResourceCount
    ensures Quantized(c, threshold).density[i] == 0.0 <==> c.density[i] < threshold || c.density[i] == 0.0
    ensures Quantized(Quantized(c, threshold), threshold) == Quantized(c, threshold)
  {
    var q := Quantized(c, threshold);
    assert Quantized(q, threshold).density == q.density;
  }
}
