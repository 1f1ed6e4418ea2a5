/** One cell of the world grid: climate values, elevation, terrain and three
    six-slot arrays (resource density, consumption pressure, adaptation), one
    slot per resource type. */
module WorldCell {
  import opened Util

  /** RESOURCE_TYPE_COUNT. */
  const ResourceCount: nat := 6

  /** Terrain, numbered as its `u8` representation. */
  datatype TerrainType = Ocean | Plains | Forest | Desert | Tundra | Mountain | Swamp | Volcanic
  {
    function Index(): (i: nat)
      ensures i < 8
    {
      match this
      case Ocean => 0
      case Plains => 1
      case Forest => 2
      case Desert => 3
      case Tundra => 4
      case Mountain => 5
      case Swamp => 6
      case Volcanic => 7
    }
  }

  /** Resource types; the index is the slot of the six-slot arrays. */
  datatype ResourceType = Plant | Mineral | Sunlight | Water | Detritus | Prey
  {
    function Index(): (i: nat)
      ensures i < ResourceCount
      ensures ResourceAt(i) == this
    {
      match this
      case Plant => 0
      case Mineral => 1
      case Sunlight => 2
      case Water => 3
      case Detritus => 4
      case Prey => 5
    }
  }

  /** The resource type stored in slot i. */
  function ResourceAt(i: nat): (t: ResourceType)
    requires i < ResourceCount
  {
    if i == 0 then Plant
    else if i == 1 then Mineral
    else if i == 2 then Sunlight
    else if i == 3 then Water
    else if i == 4 then Detritus
    else Prey
  }

  lemma ResourceAtIndex(i: nat)
    requires i < ResourceCount
    ensures ResourceAt(i).Index() == i
  {
  }

  /** A `[f32; 6]` array. */
  type Slots = s: seq<real> | |s| == ResourceCount witness [0.0, 0.0, 0.0, 0.0, 0.0, 0.0]

  const ZeroSlots: Slots := [0.0, 0.0, 0.0, 0.0, 0.0, 0.0]

  /** A `u16` elevation. */
  type Elevation = e: int | 0 <= e < 65536

  datatype Cell = Cell(
    temperature: real,
    humidity: real,
    elevation: Elevation,
    terrain: TerrainType,
    density: Slots,
    pressure: Slots,
    adaptation: Slots)
  {
    function GetResource(t: ResourceType): real
    {
      density[t.Index()]
    }

    /** Stores `value`, floored at zero, in the slot of t; nothing else changes. */
    function SetResource(t: ResourceType, value: real): (c: Cell)
      ensures c.density[t.Index()] == Max(value, 0.0) >= 0.0
      ensures forall i :: 0 <= i < ResourceCount && i != t.Index() ==> c.density[i] == density[i]
      ensures c == this.(density := c.density)
    {
      this.(density := density[t.Index() := Max(value, 0.0)])
    }

    /** Adds `amount` to the slot of t, keeping it non-negative. */
    function AddResource(t: ResourceType, amount: real): (c: Cell)
      ensures c.density[t.Index()] >= 0.0
      ensures c == SetResource(t, GetResource(t) + amount)
    {
      this.(density := density[t.Index() := Max(density[t.Index()] + amount, 0.0)])
    }

    /** Adds `amount` to the pressure slot of t, capped at 10 but with no lower bound. */
    function AddPressure(t: ResourceType, amount: real): (c: Cell)
      ensures c.pressure[t.Index()] <= 10.0
      ensures pressure[t.Index()] + amount <= 10.0 ==> c.pressure[t.Index()] == pressure[t.Index()] + amount
      ensures pressure[t.Index()] + amount > 10.0 ==> c.pressure[t.Index()] == 10.0
      ensures forall i :: 0 <= i < ResourceCount && i != t.Index() ==> c.pressure[i] == pressure[i]
      ensures c == this.(pressure := c.pressure)
    {
      this.(pressure := pressure[t.Index() := Min(pressure[t.Index()] + amount, 10.0)])
    }
  }

  /** `Cell::default()`. */
  const DefaultCell: Cell := Cell(0.5, 0.5, 0, Plains, ZeroSlots, ZeroSlots, ZeroSlots)

  /** A default cell with the given terrain. */
  function WithTerrain(t: TerrainType): (c: Cell)
    ensures c.terrain == t
    ensures c.(terrain := Plains) == DefaultCell
  {
    DefaultCell.(terrain := t)
  }

  /** Reading back a slot gives what was stored, floored at zero. */
  lemma GetAfterSet(c: Cell, t: ResourceType, u: ResourceType, v: real)
    ensures c.SetResource(t, v).GetResource(u) == if u == t then Max(v, 0.0) else c.GetResource(u)
  {
    if u != t {
      assert u.Index() != t.Index() by {
        assert ResourceAt(u.Index()) == u && ResourceAt(t.Index()) == t;
      }
    }
  }

  /** `set_resource` floors at zero but does not cap: any value above 1 is stored as given. */
  lemma SetResourceHasNoCap(c: Cell, t: ResourceType, v: real)
    requires v > 1.0
    ensures c.SetResource(t, v).GetResource(t) == v
  {
  }

  /** A pressure change that would go below zero is kept as it is. */
  lemma AddPressureHasNoFloor(c: Cell, t: ResourceType, amount: real)
    requires c.pressure[t.Index()] + amount < 0.0
    ensures c.AddPressure(t, amount).pressure[t.Index()] < 0.0
  {
  }
}
