/** The small per-organism records: energy, age, metabolism parameters,
    organism type and the reproduction cooldown. Each `&mut self` method is a
    function returning the updated record. */
module Components {

  datatype OrganismType = Producer | Consumer | Decomposer

  datatype Energy = Energy(current: real, max: real)
  {
    /** current / max, or 0 when the capacity is not positive. */
    function Ratio(): (r: real)
      ensures max <= 0.0 ==> r == 0.0
      ensures max > 0.0 ==> r * max == current
      ensures 0.0 <= current <= max ==> 0.0 <= r <= 1.0
    {
      if max > 0.0 then current / max else 0.0
    }

    predicate IsDead()
    {
      current <= 0.0
    }
  }

  /** A full store of the given capacity. */
  function NewEnergy(max: real): (e: Energy)
    ensures e.current == e.max == max
  {
    Energy(max, max)
  }

  /** A store holding `current`, cut down to the capacity. */
  function WithEnergy(max: real, current: real): (e: Energy)
    ensures e.max == max && e.current <= max
    ensures e.current == if current <= max then current else max
  {
    Energy(if current <= max then current else max, max)
  }

  /** Age in ticks; the `u32` is unbounded here. */
  datatype Age = Age(ticks: nat)
  {
    function Increment(): (a: Age)
      ensures a.ticks == ticks + 1
    {
      Age(ticks + 1)
    }
  }

  datatype Metabolism = Metabolism(baseRate: real, movementCost: real)

  const DefaultMetabolism: Metabolism := Metabolism(0.01, 0.05)

  /** Ticks left before the organism may reproduce again. */
  datatype ReproductionCooldown = ReproductionCooldown(ticks: nat)
  {
    predicate IsReady()
    {
      ticks == 0
    }

    /** Counts down by one and stops at zero. */
    function Decrement(): (c: ReproductionCooldown)
      ensures ticks > 0 ==> c.ticks == ticks - 1
      ensures ticks == 0 ==> c.ticks == 0
      ensures c.ticks <= ticks
    {
      if ticks > 0 then ReproductionCooldown(ticks - 1) else this
    }

    function Reset(t: nat): (c: ReproductionCooldown)
      ensures c.ticks == t
      ensures c.IsReady() <==> t == 0
    {
      ReproductionCooldown(t)
    }
  }

  /** A cooldown of n ticks becomes ready after exactly n decrements and stays ready. */
  lemma {:induction false} CooldownReadyAfter(c: ReproductionCooldown, n: nat)
    ensures DecrementTimes(c, n).IsReady() <==> n >= c.ticks
    ensures DecrementTimes(c, n).ticks == if n >= c.ticks then 0 else c.ticks - n
    decreases n
  {
    if n > 0 {
      CooldownReadyAfter(c.Decrement(), n - 1);
    }
  }

  /** The cooldown after n ticks of `update_age`. */
  function DecrementTimes(c: ReproductionCooldown, n: nat): ReproductionCooldown
    decreases n
  {
    if n == 0 then c else DecrementTimes(c.Decrement(), n - 1)
  }
}
