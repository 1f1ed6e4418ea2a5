/** The global climate: a seasonal base temperature and humidity advanced once
    per tick, and the per-cell temperature and humidity derived from them,
    elevation and terrain. */
module Climate {
  import opened Util
  import opened WorldCell

  /** Ticks in one seasonal year. */
  const SeasonPeriod: real := 1000.0
  const SeasonAmplitude: real := 0.2
  const HumidityAmplitude: real := 0.15
  const DriftRate: real := 0.0001

  /** The fractional part of time / 1000: the position in the year. */
  function Season(time: nat): (s: real)
    ensures 0.0 <= s < 1.0
  {
    var q := time as real / SeasonPeriod;
    q - q.Floor as real
  }

  function TerrainTemperatureModifier(t: TerrainType): real
  {
    match t
    case Ocean => 0.0
    case Plains => 0.0
    case Forest => -0.05
    case Desert => 0.15
    case Tundra => -0.2
    case Mountain => -0.25
    case Swamp => 0.05
    case Volcanic => 0.3
  }

  function TerrainHumidityModifier(t: TerrainType): real
  {
    match t
    case Ocean => 0.3
    case Plains => 0.0
    case Forest => 0.2
    case Desert => -0.3
    case Tundra => 0.1
    case Mountain => -0.1
    case Swamp => 0.4
    case Volcanic => -0.2
  }

  class ClimateState {
    var baseTemperature: real
    var baseHumidity: real
    var season: real
    var time: nat

    /** `ClimateState::default()`. */
    constructor ()
      ensures baseTemperature == 0.5 && baseHumidity == 0.5 && season == 0.0 && time == 0
    {
      baseTemperature := 0.5;
      baseHumidity := 0.5;
      season := 0.0;
      time := 0;
    }

    /** One tick. `seasonalSine` is sin(2 pi season) for the new season; the humidity
        term sin(2 pi season + pi) is its negation. `drift` is the uniform draw in
        [0, 1) behind the random walk. The time step is unused. */
    method Update(dt: real, seasonalSine: real, drift: real)
      modifies this
      ensures time == old(time) + 1
      ensures season == Season(time)
      ensures baseTemperature == Clamp(0.5 + seasonalSine * SeasonAmplitude + (drift - 0.5) * DriftRate, 0.2, 0.8)
      ensures 0.2 <= baseTemperature <= 0.8
      ensures baseHumidity == 0.5 - seasonalSine * HumidityAmplitude
    {
      time := time + 1;
      season := Season(time);
      var seasonalTemp := seasonalSine * SeasonAmplitude;
      baseTemperature := 0.5 + seasonalTemp;
      var seasonalHumidity := -seasonalSine * HumidityAmplitude;
      baseHumidity := 0.5 + seasonalHumidity;
      baseTemperature := baseTemperature + (drift - 0.5) * DriftRate;
      baseTemperature := Clamp(baseTemperature, 0.2, 0.8);
    }

    /** Base temperature, up to 0.3 colder at the highest elevation, shifted by terrain. */
    function CellTemperature(elevation: Elevation, terrain: TerrainType): (r: real)
      reads this
      ensures 0.0 <= r <= 1.0
    {
      var elevationFactor := (elevation as real / 65535.0) * 0.3;
      Clamp(baseTemperature - elevationFactor + TerrainTemperatureModifier(terrain), 0.0, 1.0)
    }

    /** Base humidity shifted by terrain and by 0.2 per unit of temperature above 0.5. */
    function CellHumidity(terrain: TerrainType, temperature: real): (r: real)
      reads this
      ensures 0.0 <= r <= 1.0
    {
      Clamp(baseHumidity + TerrainHumidityModifier(terrain) + (temperature - 0.5) * 0.2, 0.0, 1.0)
    }

    /** The cell's temperature from its elevation and terrain, then its humidity from
        that new temperature; no other field changes. */
    function UpdateCellClimate(cell: Cell): (c: Cell)
      reads this
      ensures c.temperature == CellTemperature(cell.elevation, cell.terrain)
      ensures c.humidity == CellHumidity(cell.terrain, c.temperature)
      ensures c == cell.(temperature := c.temperature, humidity := c.humidity)
      ensures 0.0 <= c.temperature <= 1.0 && 0.0 <= c.humidity <= 1.0
    {
      var t := CellTemperature(cell.elevation, cell.terrain);
      cell.(temperature := t, humidity := CellHumidity(cell.terrain, t))
    }

    /** Higher ground is never warmer. */
    lemma HigherIsNotWarmer(e1: Elevation, e2: Elevation, terrain: TerrainType)
      requires e1 <= e2
      ensures CellTemperature(e2, terrain) <= CellTemperature(e1, terrain)
    {
      var f1 := (e1 as real / 65535.0) * 0.3;
      var f2 := (e2 as real / 65535.0) * 0.3;
      assert f1 <= f2;
      ClampMonotone(baseTemperature - f2 + TerrainTemperatureModifier(terrain),
                    baseTemperature - f1 + TerrainTemperatureModifier(terrain), 0.0, 1.0);
    }

    /** A warmer cell is never drier. */
    lemma HumidityFollowsTemperature(terrain: TerrainType, t1: real, t2: real)
      requires t1 <= t2
      ensures CellHumidity(terrain, t1) <= CellHumidity(terrain, t2)
    {
      ClampMonotone(baseHumidity + TerrainHumidityModifier(terrain) + (t1 - 0.5) * 0.2,
                    baseHumidity + TerrainHumidityModifier(terrain) + (t2 - 0.5) * 0.2, 0.0, 1.0);
    }
  }
}
