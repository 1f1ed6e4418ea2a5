/** The ecosystem tuning record and its presets. Every preset starts from the
    default record and overrides a few fields, so each one is described by the
    set of fields in which it differs from the default. */
module Tuning {

  datatype EcosystemTuning = EcosystemTuning(
    plantRegenerationRate: real,
    waterRegenerationRate: real,
    sunlightRegenerationRate: real,
    mineralRegenerationRate: real,
    detritusRegenerationRate: real,
    preyRegenerationRate: real,
    plantDecayRate: real,
    waterDecayRate: real,
    sunlightDecayRate: real,
    mineralDecayRate: real,
    detritusDecayRate: real,
    preyDecayRate: real,
    consumptionRateBase: real,
    energyConversionEfficiency: real,
    decomposerEfficiencyMultiplier: real,
    baseMetabolismMultiplier: real,
    movementCostMultiplier: real,
    reproductionChanceMultiplier: real,
    minReproductionCooldown: real,
    maxReproductionCooldown: real,
    initialSpawnCount: nat,
    speciationThreshold: real)

  /** The name of each field of the record. */
  datatype Field =
    | PlantRegenerationRate | WaterRegenerationRate | SunlightRegenerationRate
    | MineralRegenerationRate | DetritusRegenerationRate | PreyRegenerationRate
    | PlantDecayRate | WaterDecayRate | SunlightDecayRate
    | MineralDecayRate | DetritusDecayRate | PreyDecayRate
    | ConsumptionRateBase | EnergyConversionEfficiency | DecomposerEfficiencyMultiplier
    | BaseMetabolismMultiplier | MovementCostMultiplier
    | ReproductionChanceMultiplier | MinReproductionCooldown | MaxReproductionCooldown
    | InitialSpawnCount | SpeciationThreshold

  /** The value of one field; the spawn count is read as a real. */
  function Value(t: EcosystemTuning, f: Field): real
  {
    match f
    case PlantRegenerationRate => t.plantRegenerationRate
    case WaterRegenerationRate => t.waterRegenerationRate
    case SunlightRegenerationRate => t.sunlightRegenerationRate
    case MineralRegenerationRate => t.mineralRegenerationRate
    case DetritusRegenerationRate => t.detritusRegenerationRate
    case PreyRegenerationRate => t.preyRegenerationRate
    case PlantDecayRate => t.plantDecayRate
    case WaterDecayRate => t.waterDecayRate
    case SunlightDecayRate => t.sunlightDecayRate
    case MineralDecayRate => t.mineralDecayRate
    case DetritusDecayRate => t.detritusDecayRate
    case PreyDecayRate => t.preyDecayRate
    case ConsumptionRateBase => t.consumptionRateBase
    case EnergyConversionEfficiency => t.energyConversionEfficiency
    case DecomposerEfficiencyMultiplier => t.decomposerEfficiencyMultiplier
    case BaseMetabolismMultiplier => t.baseMetabolismMultiplier
    case MovementCostMultiplier => t.movementCostMultiplier
    case ReproductionChanceMultiplier => t.reproductionChanceMultiplier
    case MinReproductionCooldown => t.minReproductionCooldown
    case MaxReproductionCooldown => t.maxReproductionCooldown
    case InitialSpawnCount => t.initialSpawnCount as real
    case SpeciationThreshold => t.speciationThreshold
  }

  /** The records differ in exactly the fields `fs`. */
  predicate DiffersExactlyIn(a: EcosystemTuning, b: EcosystemTuning, fs: set<Field>)
  {
    forall f :: Value(a, f) != Value(b, f) <==> f in fs
  }

  /** Two records agreeing on every field are the same record. */
  lemma ValuesDetermineRecord(a: EcosystemTuning, b: EcosystemTuning)
    requires DiffersExactlyIn(a, b, {})
    ensures a == b
  {
    assert Value(a, PlantRegenerationRate) == Value(b, PlantRegenerationRate);
    assert Value(a, WaterRegenerationRate) == Value(b, WaterRegenerationRate);
    assert Value(a, SunlightRegenerationRate) == Value(b, SunlightRegenerationRate);
    assert Value(a, MineralRegenerationRate) == Value(b, MineralRegenerationRate);
    assert Value(a, DetritusRegenerationRate) == Value(b, DetritusRegenerationRate);
    assert Value(a, PreyRegenerationRate) == Value(b, PreyRegenerationRate);
    assert Value(a, PlantDecayRate) == Value(b, PlantDecayRate);
    assert Value(a, WaterDecayRate) == Value(b, WaterDecayRate);
    assert Value(a, SunlightDecayRate) == Value(b, SunlightDecayRate);
    assert Value(a, MineralDecayRate) == Value(b, MineralDecayRate);
    assert Value(a, DetritusDecayRate) == Value(b, DetritusDecayRate);
    assert Value(a, PreyDecayRate) == Value(b, PreyDecayRate);
    assert Value(a, ConsumptionRateBase) == Value(b, ConsumptionRateBase);
    assert Value(a, EnergyConversionEfficiency) == Value(b, EnergyConversionEfficiency);
    assert Value(a, DecomposerEfficiencyMultiplier) == Value(b, DecomposerEfficiencyMultiplier);
    assert Value(a, BaseMetabolismMultiplier) == Value(b, BaseMetabolismMultiplier);
    assert Value(a, MovementCostMultiplier) == Value(b, MovementCostMultiplier);
    assert Value(a, ReproductionChanceMultiplier) == Value(b, ReproductionChanceMultiplier);
    assert Value(a, MinReproductionCooldown) == Value(b, MinReproductionCooldown);
    assert Value(a, MaxReproductionCooldown) == Value(b, MaxReproductionCooldown);
    assert Value(a, InitialSpawnCount) == Value(b, InitialSpawnCount);
    assert Value(a, SpeciationThreshold) == Value(b, SpeciationThreshold);
  }

  /** `EcosystemTuning::default`. */
  function Default(): (t: EcosystemTuning)
    ensures t.speciationThreshold == 0.15
    ensures t.consumptionRateBase == 5.0
    ensures t.energyConversionEfficiency == 0.3
    ensures t.minReproductionCooldown < t.maxReproductionCooldown
  {
    EcosystemTuning(
      0.08, 0.12, 0.15, 0.05, 0.03, 0.02,
      0.01, 0.005, 0.02, 0.001, 0.015, 0.02,
      5.0, 0.3, 0.5,
      1.0, 1.0,
      0.1, 350.0, 2400.0,
      100,
      0.15)
  }

  /** The balanced preset is the default itself. */
  function Balanced(): (t: EcosystemTuning)
    ensures DiffersExactlyIn(t, Default(), {})
  {
    Default()
  }

  /** Faster reproduction and more plant growth. */
  function FastEvolution(): (t: EcosystemTuning)
    ensures t.reproductionChanceMultiplier > Default().reproductionChanceMultiplier
    ensures t.minReproductionCooldown < Default().minReproductionCooldown
    ensures t.maxReproductionCooldown < Default().maxReproductionCooldown
    ensures t.plantRegenerationRate > Default().plantRegenerationRate
    ensures t.minReproductionCooldown < t.maxReproductionCooldown
  {
    Default().(
      reproductionChanceMultiplier := 0.15,
      minReproductionCooldown := 200.0,
      maxReproductionCooldown := 1200.0,
      plantRegenerationRate := 0.12)
  }

  /** Slower reproduction and more plant and water growth. */
  function Stable(): (t: EcosystemTuning)
    ensures t.reproductionChanceMultiplier < Default().reproductionChanceMultiplier
    ensures t.minReproductionCooldown > Default().minReproductionCooldown
    ensures t.maxReproductionCooldown > Default().maxReproductionCooldown
    ensures t.plantRegenerationRate > Default().plantRegenerationRate
    ensures t.waterRegenerationRate > Default().waterRegenerationRate
    ensures t.minReproductionCooldown < t.maxReproductionCooldown
  {
    Default().(
      reproductionChanceMultiplier := 0.05,
      minReproductionCooldown := 500.0,
      maxReproductionCooldown := 3000.0,
      plantRegenerationRate := 0.15,
      waterRegenerationRate := 0.18)
  }

  /** Scarcer plants and water, faster plant decay and faster consumption. */
  function Competitive(): (t: EcosystemTuning)
    ensures t.plantRegenerationRate < Default().plantRegenerationRate
    ensures t.waterRegenerationRate < Default().waterRegenerationRate
    ensures t.plantDecayRate > Default().plantDecayRate
    ensures t.consumptionRateBase > Default().consumptionRateBase
    ensures t.minReproductionCooldown < t.maxReproductionCooldown
  {
    Default().(
      plantRegenerationRate := 0.05,
      waterRegenerationRate := 0.08,
      plantDecayRate := 0.02,
      consumptionRateBase := 7.0)
  }

  /** The balanced preset is exactly the default. */
  lemma BalancedIsDefault()
    ensures Balanced() == Default()
  {
    ValuesDetermineRecord(Balanced(), Default());
  }

  /** `fast_evolution` differs from the default in exactly four fields. */
  lemma FastEvolutionChanges()
    ensures DiffersExactlyIn(FastEvolution(), Default(), {ReproductionChanceMultiplier, MinReproductionCooldown, MaxReproductionCooldown, PlantRegenerationRate})
    ensures |{ReproductionChanceMultiplier, MinReproductionCooldown, MaxReproductionCooldown, PlantRegenerationRate}| == 4
  {
    forall f: Field
      ensures Value(FastEvolution(), f) != Value(Default(), f) <==> f in {ReproductionChanceMultiplier, MinReproductionCooldown, MaxReproductionCooldown, PlantRegenerationRate}
    {
      match f
      case PlantRegenerationRate =>
      case WaterRegenerationRate =>
      case SunlightRegenerationRate =>
      case MineralRegenerationRate =>
      case DetritusRegenerationRate =>
      case PreyRegenerationRate =>
      case PlantDecayRate =>
      case WaterDecayRate =>
      case SunlightDecayRate =>
      case MineralDecayRate =>
      case DetritusDecayRate =>
      case PreyDecayRate =>
      case ConsumptionRateBase =>
      case EnergyConversionEfficiency =>
      case DecomposerEfficiencyMultiplier =>
      case BaseMetabolismMultiplier =>
      case MovementCostMultiplier =>
      case ReproductionChanceMultiplier =>
      case MinReproductionCooldown =>
      case MaxReproductionCooldown =>
      case InitialSpawnCount =>
      case SpeciationThreshold =>
    }
  }

  /** `stable` differs from the default in exactly five fields. */
  lemma StableChanges()
    ensures DiffersExactlyIn(Stable(), Default(), {ReproductionChanceMultiplier, MinReproductionCooldown, MaxReproductionCooldown, PlantRegenerationRate, WaterRegenerationRate})
    ensures |{ReproductionChanceMultiplier, MinReproductionCooldown, MaxReproductionCooldown, PlantRegenerationRate, WaterRegenerationRate}| == 5
  {
    forall f: Field
      ensures Value(Stable(), f) != Value(Default(), f) <==> f in {ReproductionChanceMultiplier, MinReproductionCooldown, MaxReproductionCooldown, PlantRegenerationRate, WaterRegenerationRate}
    {
      match f
      case PlantRegenerationRate =>
      case WaterRegenerationRate =>
      case SunlightRegenerationRate =>
      case MineralRegenerationRate =>
      case DetritusRegenerationRate =>
      case PreyRegenerationRate =>
      case PlantDecayRate =>
      case WaterDecayRate =>
      case SunlightDecayRate =>
      case MineralDecayRate =>
      case DetritusDecayRate =>
      case PreyDecayRate =>
      case ConsumptionRateBase =>
      case EnergyConversionEfficiency =>
      case DecomposerEfficiencyMultiplier =>
      case BaseMetabolismMultiplier =>
      case MovementCostMultiplier =>
      case ReproductionChanceMultiplier =>
      case MinReproductionCooldown =>
      case MaxReproductionCooldown =>
      case InitialSpawnCount =>
      case SpeciationThreshold =>
    }
  }

  /** `competitive` differs from the default in exactly four fields. */
  lemma CompetitiveChanges()
    ensures DiffersExactlyIn(Competitive(), Default(), {PlantRegenerationRate, WaterRegenerationRate, PlantDecayRate, ConsumptionRateBase})
    ensures |{PlantRegenerationRate, WaterRegenerationRate, PlantDecayRate, ConsumptionRateBase}| == 4
  {
    forall f: Field
      ensures Value(Competitive(), f) != Value(Default(), f) <==> f in {PlantRegenerationRate, WaterRegenerationRate, PlantDecayRate, ConsumptionRateBase}
    {
      match f
      case PlantRegenerationRate =>
      case WaterRegenerationRate =>
      case SunlightRegenerationRate =>
      case MineralRegenerationRate =>
      case DetritusRegenerationRate =>
      case PreyRegenerationRate =>
      case PlantDecayRate =>
      case WaterDecayRate =>
      case SunlightDecayRate =>
      case MineralDecayRate =>
      case DetritusDecayRate =>
      case PreyDecayRate =>
      case ConsumptionRateBase =>
      case EnergyConversionEfficiency =>
      case DecomposerEfficiencyMultiplier =>
      case BaseMetabolismMultiplier =>
      case MovementCostMultiplier =>
      case ReproductionChanceMultiplier =>
      case MinReproductionCooldown =>
      case MaxReproductionCooldown =>
      case InitialSpawnCount =>
      case SpeciationThreshold =>
    }
  }
}
