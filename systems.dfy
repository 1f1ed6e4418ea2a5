/** The per-tick organism passes: metabolism, behaviour decisions, movement,
    eating (which changes world cells), ageing, reproduction against a snapshot,
    and death. The organisms matched by a query are an array of records, updated
    in place in query order; spawned and despawned entities are returned. */
module Systems {
  import opened Util
  import opened WorldCell
  import opened Components
  import opened Genetics
  import opened OrganismBehavior

  /** The components of one live organism. */
  datatype Organism = Organism(
    entity: nat,
    position: Vec2,
    velocity: Vec2,
    energy: Energy,
    age: Age,
    size: real,
    metabolism: Metabolism,
    cooldown: ReproductionCooldown,
    genome: Genome,
    species: nat,
    kind: OrganismType,
    behavior: Behavior)

  // ---------------------------------------------------------------------------
  // Metabolism

  /** The energy spent in one tick: the expressed base rate times size, plus speed
      times the expressed movement cost, both over dt. `speed` is the velocity's length. */
  function MetabolicCost(o: Organism, speed: real, dt: real): real
  {
    ExpressMetabolismRate(o.genome) * o.size * dt + speed * ExpressMovementCost(o.genome) * dt
  }

  function Metabolized(o: Organism, length: Vec2 -> real, dt: real): Organism
    requires IsLength(length)
  {
    o.(energy := o.energy.(current := Max(o.energy.current - MetabolicCost(o, length(o.velocity), dt), 0.0)))
  }

  /** `update_metabolism`. */
  method UpdateMetabolism(organisms: array<Organism>, length: Vec2 -> real, dt: real)
    requires IsLength(length)
    modifies organisms
    ensures forall i :: 0 <= i < organisms.Length ==> organisms[i] == Metabolized(old(organisms[i]), length, dt)
  {
    for i := 0 to organisms.Length
      invariant forall j :: 0 <= j < i ==> organisms[j] == Metabolized(old(organisms[j]), length, dt)
      invariant forall j :: i <= j < organisms.Length ==> organisms[j] == old(organisms[j])
    {
      var o := organisms[i];
      var totalCost := MetabolicCost(o, length(o.velocity), dt);
      var current := Max(o.energy.current - totalCost, 0.0);
      organisms[i] := o.(energy := o.energy.(current := current));
    }
  }

  /** Energy is never negative after metabolism, only the energy changes, and with a
      non-negative size and time step it never rises from a non-negative value. */
  lemma MetabolismDrains(o: Organism, length: Vec2 -> real, dt: real)
    requires IsLength(length)
    ensures Metabolized(o, length, dt).energy.current >= 0.0
    ensures Metabolized(o, length, dt) == o.(energy := Energy(Metabolized(o, length, dt).energy.current, o.energy.max))
    ensures o.size >= 0.0 && dt >= 0.0 && o.energy.current >= 0.0 ==>
      Metabolized(o, length, dt).energy.current <= o.energy.current
  {
    if o.size >= 0.0 && dt >= 0.0 {
      assert length(o.velocity) >= 0.0;
      var rate := ExpressMetabolismRate(o.genome);
      var cost := ExpressMovementCost(o.genome);
      MulNonNegative(rate, o.size);
      MulNonNegative(rate * o.size, dt);
      MulNonNegative(length(o.velocity), cost);
      MulNonNegative(length(o.velocity) * cost, dt);
    }
  }

  // ---------------------------------------------------------------------------
  // Behaviour

  /** How the sensing pass sees an organism. */
  function View(o: Organism): Observed
  {
    Observed(o.entity, o.position, o.species, o.kind, o.size, o.energy)
  }

  function Views(os: seq<Organism>): (vs: seq<Observed>)
    ensures |vs| == |os| && forall i :: 0 <= i < |os| ==> vs[i] == View(os[i])
  {
    seq(|os|, i requires 0 <= i < |os| => View(os[i]))
  }

  function ObserverOf(o: Organism): Observer
  {
    Observer(o.entity, o.position, ExpressSensoryRange(o.genome), o.species, o.kind, o.size)
  }

  /** The decision the organism takes this tick, on what it senses and with its
      state clock advanced by dt. `aggression` and `boldness` are the expressed
      traits of a genome. */
  function Decided(
    o: Organism, others: seq<Observed>, cellAt: (real, real) -> Option<Cell>,
    aggression: Genome -> real, boldness: Genome -> real, dt: real): Decision
  {
    DecideBehavior(o.energy, o.genome, o.kind, SensedData(ObserverOf(o), others, cellAt),
      o.behavior.state, o.behavior.stateTime + dt, aggression(o.genome), boldness(o.genome))
  }

  /** The organism after one behaviour update: the state clock advances by dt, the
      decided state is entered, and the decision's targets replace the old ones. */
  function Behaved(
    o: Organism, others: seq<Observed>, cellAt: (real, real) -> Option<Cell>,
    aggression: Genome -> real, boldness: Genome -> real, dt: real): Organism
  {
    o.(behavior := Applied(o.behavior, Decided(o, others, cellAt, aggression, boldness, dt), dt))
  }

  /** A behaviour after its clock advances by dt and decision d is taken. */
  function Applied(b: Behavior, d: Decision, dt: real): Behavior
  {
    b.(stateTime := b.stateTime + dt).SetState(d.state).(targetEntity := d.targetEntity, targetPosition := d.targetPosition)
  }

  /** One organism's turn in `update_behavior`. */
  method UpdateOneBehavior(
    o: Organism, others: seq<Observed>, cellAt: (real, real) -> Option<Cell>,
    aggression: Genome -> real, boldness: Genome -> real, dt: real) returns (r: Organism)
    ensures r == Behaved(o, others, cellAt, aggression, boldness, dt)
  {
    var behavior := o.behavior.(stateTime := o.behavior.stateTime + dt);
    var sensory := CollectSensoryData(ObserverOf(o), others, cellAt);
    var d := DecideBehavior(o.energy, o.genome, o.kind, sensory, behavior.state, behavior.stateTime,
      aggression(o.genome), boldness(o.genome));
    assert d == Decided(o, others, cellAt, aggression, boldness, dt);
    behavior := behavior.SetState(d.state);
    behavior := behavior.(targetEntity := d.targetEntity, targetPosition := d.targetPosition);
    assert behavior == Applied(o.behavior, d, dt);
    r := o.(behavior := behavior);
  }

  /** Every organism of `os` after its behaviour update, in order. */
  function BehavedAll(
    os: seq<Organism>, others: seq<Observed>, cellAt: (real, real) -> Option<Cell>,
    aggression: Genome -> real, boldness: Genome -> real, dt: real): (rs: seq<Organism>)
    ensures |rs| == |os|
  {
    if |os| == 0 then []
    else BehavedAll(os[..|os| - 1], others, cellAt, aggression, boldness, dt)
         + [Behaved(os[|os| - 1], others, cellAt, aggression, boldness, dt)]
  }

  lemma {:induction false} BehavedAllAt(
    os: seq<Organism>, others: seq<Observed>, cellAt: (real, real) -> Option<Cell>,
    aggression: Genome -> real, boldness: Genome -> real, dt: real, i: nat)
    requires i < |os|
    ensures BehavedAll(os, others, cellAt, aggression, boldness, dt)[i] == Behaved(os[i], others, cellAt, aggression, boldness, dt)
  {
    if i < |os| - 1 {
      BehavedAllAt(os[..|os| - 1], others, cellAt, aggression, boldness, dt, i);
    }
  }

  /** `update_behavior`. `others` is the read-only query of every live organism
      that sensing consults, that is, the views of the organisms themselves; this
      pass changes none of the fields it reads (see BehaviorKeepsViews), so it is
      the same view before and after. */
  method UpdateBehavior(
    organisms: array<Organism>, others: seq<Observed>, cellAt: (real, real) -> Option<Cell>,
    aggression: Genome -> real, boldness: Genome -> real, dt: real)
    requires others == Views(organisms[..])
    modifies organisms
    ensures organisms[..] == BehavedAll(old(organisms[..]), others, cellAt, aggression, boldness, dt)
    ensures others == Views(organisms[..])
  {
    ghost var snap := organisms[..];
    ghost var target := BehavedAll(snap, others, cellAt, aggression, boldness, dt);
    for i := 0 to organisms.Length
      invariant forall j :: 0 <= j < i ==> organisms[j] == target[j]
      invariant forall j :: i <= j < organisms.Length ==> organisms[j] == snap[j]
    {
      UpdateBehaviorAt(organisms, i, snap, others, cellAt, aggression, boldness, dt);
    }
    assert organisms[..] == target;
    BehaviorKeepsViews(snap, others, cellAt, aggression, boldness, dt);
  }

  /** The body of the `update_behavior` loop for organism i. */
  method UpdateBehaviorAt(
    organisms: array<Organism>, i: nat, ghost snap: seq<Organism>, others: seq<Observed>,
    cellAt: (real, real) -> Option<Cell>, aggression: Genome -> real, boldness: Genome -> real, dt: real)
    requires i < organisms.Length == |snap| && organisms[i] == snap[i]
    modifies organisms
    ensures organisms[i] == BehavedAll(snap, others, cellAt, aggression, boldness, dt)[i]
    ensures forall j :: 0 <= j < organisms.Length && j != i ==> organisms[j] == old(organisms[j])
  {
    var r := UpdateOneBehavior(organisms[i], others, cellAt, aggression, boldness, dt);
    BehavedAllAt(snap, others, cellAt, aggression, boldness, dt, i);
    organisms[i] := r;
  }

  /** The behaviour pass leaves every organism's view unchanged, so the organisms
      sensed during the pass are the organisms as they were before it. */
  lemma BehaviorKeepsViews(
    os: seq<Organism>, others: seq<Observed>, cellAt: (real, real) -> Option<Cell>,
    aggression: Genome -> real, boldness: Genome -> real, dt: real)
    ensures Views(BehavedAll(os, others, cellAt, aggression, boldness, dt)) == Views(os)
  {
    var rs := BehavedAll(os, others, cellAt, aggression, boldness, dt);
    forall i | 0 <= i < |os|
      ensures View(rs[i]) == View(os[i])
    {
      BehavedAllAt(os, others, cellAt, aggression, boldness, dt, i);
    }
  }

  /** After a behaviour update the targets are the decision's, and the state clock
      is zero when the state changed and has advanced by dt when it did not. Nothing
      but the behaviour changes. */
  lemma BehaviorUpdateOutcome(
    o: Organism, others: seq<Observed>, cellAt: (real, real) -> Option<Cell>,
    aggression: Genome -> real, boldness: Genome -> real, dt: real)
    ensures var r := Behaved(o, others, cellAt, aggression, boldness, dt);
      var d := Decided(o, others, cellAt, aggression, boldness, dt);
      && r == o.(behavior := r.behavior)
      && r.behavior.state == d.state
      && r.behavior.targetEntity == d.targetEntity && r.behavior.targetPosition == d.targetPosition
      && (d.state != o.behavior.state ==> r.behavior.stateTime == 0.0)
      && (d.state == o.behavior.state ==> r.behavior.stateTime == o.behavior.stateTime + dt)
  {
  }

  // ---------------------------------------------------------------------------
  // Movement

  const MaxPosition: real := 200.0
  const VelocityLerp: real := 0.3
  const Damping: real := 0.98

  function ClampToWorld(p: Vec2): (q: Vec2)
    ensures -MaxPosition <= q.x <= MaxPosition && -MaxPosition <= q.y <= MaxPosition
  {
    Vec2(Clamp(p.x, -MaxPosition, MaxPosition), Clamp(p.y, -MaxPosition, MaxPosition))
  }

  /** The organism after one movement step. A dead organism stops where it is; a
      live one blends 30% of the way to the velocity its state asks for, is damped
      while wandering or resting, and moves, staying inside the world square.
      `fleeHeading` is the tick's flee direction, `wanderHeading` the wander
      direction at a position. */
  function Moved(o: Organism, normalize: Vec2 -> Vec2, fleeHeading: Vec2, wanderHeading: Vec2 -> Vec2, dt: real): Organism
  {
    if o.energy.IsDead() then o.(velocity := Zero)
    else
      var desired := BehaviorVelocity(o.behavior, o.position, o.genome, o.energy, normalize, fleeHeading, wanderHeading(o.position));
      var blended := o.velocity.Lerp(desired, VelocityLerp);
      var v := if o.behavior.state == Wandering || o.behavior.state == Resting then blended.Scale(Damping) else blended;
      o.(velocity := v, position := ClampToWorld(o.position.Add(v.Scale(dt))))
  }

  /** `update_movement`. */
  method UpdateMovement(organisms: array<Organism>, normalize: Vec2 -> Vec2, fleeHeading: Vec2, wanderHeading: Vec2 -> Vec2, dt: real)
    modifies organisms
    ensures forall i :: 0 <= i < organisms.Length ==>
      organisms[i] == Moved(old(organisms[i]), normalize, fleeHeading, wanderHeading, dt)
  {
    for i := 0 to organisms.Length
      invariant forall j :: 0 <= j < i ==> organisms[j] == Moved(old(organisms[j]), normalize, fleeHeading, wanderHeading, dt)
      invariant forall j :: i <= j < organisms.Length ==> organisms[j] == old(organisms[j])
    {
      var o := organisms[i];
      if o.energy.IsDead() {
        organisms[i] := o.(velocity := Zero);
      } else {
        var desired := BehaviorVelocity(o.behavior, o.position, o.genome, o.energy, normalize, fleeHeading, wanderHeading(o.position));
        var velocity := o.velocity.Lerp(desired, VelocityLerp);
        if o.behavior.state == Wandering || o.behavior.state == Resting {
          velocity := velocity.Scale(Damping);
        }
        var position := o.position.Add(velocity.Scale(dt));
        position := Vec2(Clamp(position.x, -MaxPosition, MaxPosition), Clamp(position.y, -MaxPosition, MaxPosition));
        organisms[i] := o.(velocity := velocity, position := position);
      }
    }
  }

  /** Dead organisms stop and keep their position; live ones end inside
      [-200, 200]^2, and one that is eating keeps 70% of its velocity. Only the
      position and velocity change. */
  lemma MovementOutcome(o: Organism, normalize: Vec2 -> Vec2, fleeHeading: Vec2, wanderHeading: Vec2 -> Vec2, dt: real)
    ensures var m := Moved(o, normalize, fleeHeading, wanderHeading, dt);
      && m == o.(velocity := m.velocity, position := m.position)
      && (o.energy.IsDead() ==> m.velocity == Zero && m.position == o.position)
      && (!o.energy.IsDead() ==>
            -MaxPosition <= m.position.x <= MaxPosition && -MaxPosition <= m.position.y <= MaxPosition)
      && (!o.energy.IsDead() && o.behavior.state == Eating ==> m.velocity == o.velocity.Scale(0.7))
  {
    if !o.energy.IsDead() && o.behavior.state == Eating {
      var desired := BehaviorVelocity(o.behavior, o.position, o.genome, o.energy, normalize, fleeHeading, wanderHeading(o.position));
      assert desired == Zero;
    }
  }

  // ---------------------------------------------------------------------------
  // Eating

  const ConsumptionRate: real := 5.0
  const ConversionEfficiency: real := 0.3

  /** A cell after a meal, and the energy the meal gives. */
  datatype Meal = Meal(cell: Cell, gained: real)

  /** The amount of t taken: what the cell holds, capped at `cap`. */
  function Bite(cell: Cell, t: ResourceType, cap: real): real
  {
    Min(cell.GetResource(t), cap)
  }

  /** One organism eating from its cell for dt, as its type does. */
  function Consume(kind: OrganismType, cell: Cell, dt: real): Meal
  {
    match kind
    case Producer =>
      var sunlight := Bite(cell, Sunlight, ConsumptionRate * dt);
      var water := Bite(cell, Water, ConsumptionRate * dt * 0.5);
      var mineral := Bite(cell, Mineral, ConsumptionRate * dt * 0.2);
      var c1 := cell.SetResource(Sunlight, cell.GetResource(Sunlight) - sunlight);
      var c2 := c1.SetResource(Water, c1.GetResource(Water) - water);
      var c3 := c2.SetResource(Mineral, c2.GetResource(Mineral) - mineral);
      Meal(c3, (sunlight + water + mineral) * ConversionEfficiency)
    case Consumer =>
      var plant := Bite(cell, Plant, ConsumptionRate * dt);
      var prey := Bite(cell, Prey, ConsumptionRate * dt);
      var c1 := cell.SetResource(Plant, cell.GetResource(Plant) - plant);
      var c2 := c1.SetResource(Prey, c1.GetResource(Prey) - prey);
      Meal(c2, (plant + prey * 2.0) * ConversionEfficiency)
    case Decomposer =>
      var detritus := Bite(cell, Detritus, ConsumptionRate * dt);
      var c1 := cell.SetResource(Detritus, cell.GetResource(Detritus) - detritus);
      Meal(c1, detritus * ConversionEfficiency * 0.5)
  }

  /** The resources each type eats. */
  function Diet(kind: OrganismType): seq<ResourceType>
  {
    match kind
    case Producer => [Sunlight, Water, Mineral]
    case Consumer => [Plant, Prey]
    case Decomposer => [Detritus]
  }

  /** The per-tick cap on t for a type, as a multiple of the consumption rate. */
  function BiteCap(t: ResourceType, dt: real): real
  {
    match t
    case Water => ConsumptionRate * dt * 0.5
    case Mineral => ConsumptionRate * dt * 0.2
    case _ => ConsumptionRate * dt
  }

  /** The energy one unit of t gives a type: prey counts double for a Consumer,
      detritus half for a Decomposer. */
  function Nutrition(kind: OrganismType, t: ResourceType): real
  {
    if kind == Consumer && t == Prey then 2.0 * ConversionEfficiency
    else if kind == Decomposer then 0.5 * ConversionEfficiency
    else ConversionEfficiency
  }

  /** The sum of nutrition times bite over the diet's first n resources. */
  function DietGain(kind: OrganismType, cell: Cell, dt: real, n: nat): real
    requires n <= |Diet(kind)|
  {
    if n == 0 then 0.0
    else
      var t := Diet(kind)[n - 1];
      DietGain(kind, cell, dt, n - 1) + Nutrition(kind, t) * Bite(cell, t, BiteCap(t, dt))
  }

  /** A meal, stated slot by slot: each slot of the diet loses its capped bite and is
      floored at zero, and every other slot and every other field of the cell is kept. */
  lemma ConsumeBySlot(kind: OrganismType, cell: Cell, dt: real, i: nat)
    requires i < ResourceCount
    ensures var meal := Consume(kind, cell, dt);
      && meal.cell == cell.(density := meal.cell.density)
      && (ResourceAt(i) in Diet(kind) ==>
            meal.cell.density[i] == Max(cell.density[i] - Bite(cell, ResourceAt(i), BiteCap(ResourceAt(i), dt)), 0.0))
      && (ResourceAt(i) !in Diet(kind) ==> meal.cell.density[i] == cell.density[i])
  {
    ResourceAtIndex(i);
    match kind {
      case Producer =>
        var c1 := cell.SetResource(Sunlight, cell.GetResource(Sunlight) - Bite(cell, Sunlight, BiteCap(Sunlight, dt)));
        var c2 := c1.SetResource(Water, c1.GetResource(Water) - Bite(cell, Water, BiteCap(Water, dt)));
        assert c1.GetResource(Water) == cell.GetResource(Water);
        assert c2.GetResource(Mineral) == cell.GetResource(Mineral);
      case Consumer =>
        var c1 := cell.SetResource(Plant, cell.GetResource(Plant) - Bite(cell, Plant, BiteCap(Plant, dt)));
        assert c1.GetResource(Prey) == cell.GetResource(Prey);
      case Decomposer =>
    }
  }

  /** The energy a meal gives is the diet's nutrition-weighted bites. */
  lemma ConsumeGain(kind: OrganismType, cell: Cell, dt: real)
    ensures Consume(kind, cell, dt).gained == DietGain(kind, cell, dt, |Diet(kind)|)
  {
    match kind {
      case Producer => ProducerGain(cell, dt);
      case Consumer => ConsumerGain(cell, dt);
      case Decomposer =>
    }
  }

  lemma ProducerGain(cell: Cell, dt: real)
    ensures Consume(Producer, cell, dt).gained == DietGain(Producer, cell, dt, 3)
  {
    var s := Bite(cell, Sunlight, BiteCap(Sunlight, dt));
    var w := Bite(cell, Water, BiteCap(Water, dt));
    var m := Bite(cell, Mineral, BiteCap(Mineral, dt));
    assert Consume(Producer, cell, dt).gained == (s + w + m) * ConversionEfficiency;
    assert DietGain(Producer, cell, dt, 1) == ConversionEfficiency * s;
    assert DietGain(Producer, cell, dt, 2) == ConversionEfficiency * s + ConversionEfficiency * w;
  }

  lemma ConsumerGain(cell: Cell, dt: real)
    ensures Consume(Consumer, cell, dt).gained == DietGain(Consumer, cell, dt, 2)
  {
    var pl := Bite(cell, Plant, BiteCap(Plant, dt));
    var pr := Bite(cell, Prey, BiteCap(Prey, dt));
    assert Consume(Consumer, cell, dt).gained == (pl + pr * 2.0) * ConversionEfficiency;
    assert DietGain(Consumer, cell, dt, 1) == ConversionEfficiency * pl;
    assert Nutrition(Consumer, Prey) == 0.6;
  }

  /** With non-negative densities and time step, a meal never takes more than a
      slot holds, leaves every slot non-negative and gives non-negative energy. */
  lemma MealIsBounded(kind: OrganismType, cell: Cell, dt: real, i: nat)
    requires i < ResourceCount
    requires forall j :: 0 <= j < ResourceCount ==> cell.density[j] >= 0.0
    requires dt >= 0.0
    ensures 0.0 <= Consume(kind, cell, dt).cell.density[i] <= cell.density[i]
    ensures Consume(kind, cell, dt).gained >= 0.0
  {
    ConsumeBySlot(kind, cell, dt, i);
    ConsumeGain(kind, cell, dt);
    DietGainNonNegative(kind, cell, dt, |Diet(kind)|);
  }

  lemma {:induction false} DietGainNonNegative(kind: OrganismType, cell: Cell, dt: real, n: nat)
    requires n <= |Diet(kind)|
    requires forall j :: 0 <= j < ResourceCount ==> cell.density[j] >= 0.0
    requires dt >= 0.0
    ensures DietGain(kind, cell, dt, n) >= 0.0
  {
    if n > 0 {
      DietGainNonNegative(kind, cell, dt, n - 1);
      var t := Diet(kind)[n - 1];
      MulNonNegative(ConsumptionRate, dt);
      MulNonNegative(Nutrition(kind, t), Bite(cell, t, BiteCap(t, dt)));
    }
  }

  /** An organism's energy after a meal, capped at its capacity. */
  function Fed(o: Organism, gained: real): Organism
  {
    o.(energy := o.energy.(current := Min(o.energy.current + gained, o.energy.max)))
  }

  /** Organism i's turn at eating: only an organism in the Eating state whose cell
      exists eats. `cellIndex` is the world grid's lookup of a position. */
  function EatStep(os: seq<Organism>, cs: seq<Cell>, i: nat, cellIndex: Vec2 -> Option<nat>, dt: real): (r: (seq<Organism>, seq<Cell>))
    requires i < |os|
    ensures |r.0| == |os| && |r.1| == |cs|
  {
    var o := os[i];
    if o.behavior.state != Eating then (os, cs)
    else
      match cellIndex(o.position)
      case None => (os, cs)
      case Some(k) =>
        if k < |cs| then
          var meal := Consume(o.kind, cs[k], dt);
          (os[i := Fed(o, meal.gained)], cs[k := meal.cell])
        else (os, cs)
  }

  /** The organisms and cells after the first n organisms have had their turn. */
  function EatUpTo(os: seq<Organism>, cs: seq<Cell>, n: nat, cellIndex: Vec2 -> Option<nat>, dt: real): (r: (seq<Organism>, seq<Cell>))
    requires n <= |os|
    ensures |r.0| == |os| && |r.1| == |cs|
  {
    if n == 0 then (os, cs)
    else
      var prev := EatUpTo(os, cs, n - 1, cellIndex, dt);
      EatStep(prev.0, prev.1, n - 1, cellIndex, dt)
  }

  /** `handle_eating`. */
  method HandleEating(organisms: array<Organism>, cells: array<Cell>, cellIndex: Vec2 -> Option<nat>, dt: real)
    modifies organisms, cells
    ensures (organisms[..], cells[..]) == EatUpTo(old(organisms[..]), old(cells[..]), organisms.Length, cellIndex, dt)
  {
    ghost var os0 := organisms[..];
    ghost var cs0 := cells[..];
    for i := 0 to organisms.Length
      invariant (organisms[..], cells[..]) == EatUpTo(os0, cs0, i, cellIndex, dt)
    {
      EatAt(organisms, cells, i, cellIndex, dt);
    }
  }

  /** The body of the eating loop for organism i. */
  method EatAt(organisms: array<Organism>, cells: array<Cell>, i: nat, cellIndex: Vec2 -> Option<nat>, dt: real)
    requires i < organisms.Length
    modifies organisms, cells
    ensures (organisms[..], cells[..]) == EatStep(old(organisms[..]), old(cells[..]), i, cellIndex, dt)
  {
    var o := organisms[i];
    if o.behavior.state == Eating {
      var k := cellIndex(o.position);
      if k.Some? && k.value < cells.Length {
        var meal := Consume(o.kind, cells[k.value], dt);
        cells[k.value] := meal.cell;
        organisms[i] := o.(energy := o.energy.(current := Min(o.energy.current + meal.gained, o.energy.max)));
      }
    }
  }

  /** One turn at eating changes at most organism i, and only its current energy,
      which ends at most its capacity; it changes only cell densities, and a
      non-negative density stays non-negative. */
  lemma EatStepOutcome(os: seq<Organism>, cs: seq<Cell>, i: nat, cellIndex: Vec2 -> Option<nat>, dt: real)
    requires i < |os|
    ensures var r := EatStep(os, cs, i, cellIndex, dt);
      && (forall j :: 0 <= j < |os| && j != i ==> r.0[j] == os[j])
      && (r.0[i] == os[i] || (os[i].behavior.state == Eating
            && r.0[i] == os[i].(energy := Energy(r.0[i].energy.current, os[i].energy.max))
            && r.0[i].energy.current <= os[i].energy.max))
      && (forall k, t :: 0 <= k < |cs| && 0 <= t < ResourceCount && cs[k].density[t] >= 0.0 ==> r.1[k].density[t] >= 0.0)
      && (forall k :: 0 <= k < |cs| ==> r.1[k] == cs[k].(density := r.1[k].density))
  {
    var o := os[i];
    if o.behavior.state == Eating && cellIndex(o.position).Some? && cellIndex(o.position).value < |cs| {
      var k := cellIndex(o.position).value;
      forall t | 0 <= t < ResourceCount
        ensures Consume(o.kind, cs[k], dt).cell.density[t] >= 0.0 || Consume(o.kind, cs[k], dt).cell.density[t] == cs[k].density[t]
        ensures Consume(o.kind, cs[k], dt).cell == cs[k].(density := Consume(o.kind, cs[k], dt).cell.density)
      {
        ConsumeBySlot(o.kind, cs[k], dt, t);
      }
    }
  }

  /** What eating preserves, for the first n turns: organisms not in the Eating
      state are untouched and any organism only changes its current energy, which
      ends at most its capacity; a non-negative cell slot stays non-negative. */
  lemma {:induction false} EatingOutcome(os: seq<Organism>, cs: seq<Cell>, n: nat, cellIndex: Vec2 -> Option<nat>, dt: real)
    requires n <= |os|
    ensures var r := EatUpTo(os, cs, n, cellIndex, dt);
      && (forall j :: 0 <= j < |os| && os[j].behavior.state != Eating ==> r.0[j] == os[j])
      && (forall j :: 0 <= j < |os| ==>
            r.0[j] == os[j] || (r.0[j] == os[j].(energy := Energy(r.0[j].energy.current, os[j].energy.max))
                                && r.0[j].energy.current <= os[j].energy.max))
      && (forall k, i :: 0 <= k < |cs| && 0 <= i < ResourceCount && cs[k].density[i] >= 0.0 ==> r.1[k].density[i] >= 0.0)
      && (forall k :: 0 <= k < |cs| ==> r.1[k] == cs[k].(density := r.1[k].density))
  {
    if n > 0 {
      EatingOutcome(os, cs, n - 1, cellIndex, dt);
      var prev := EatUpTo(os, cs, n - 1, cellIndex, dt);
      EatStepOutcome(prev.0, prev.1, n - 1, cellIndex, dt);
    }
  }

  // ---------------------------------------------------------------------------
  // Ageing

  function Aged(o: Organism): Organism
  {
    o.(age := o.age.Increment(), cooldown := o.cooldown.Decrement())
  }

  /** `update_age`. */
  method UpdateAge(organisms: array<Organism>)
    modifies organisms
    ensures forall i :: 0 <= i < organisms.Length ==> organisms[i] == Aged(old(organisms[i]))
  {
    for i := 0 to organisms.Length
      invariant forall j :: 0 <= j < i ==> organisms[j] == Aged(old(organisms[j]))
      invariant forall j :: i <= j < organisms.Length ==> organisms[j] == old(organisms[j])
    {
      var o := organisms[i];
      organisms[i] := o.(age := o.age.Increment(), cooldown := o.cooldown.Decrement());
    }
  }

  /** Ageing adds one tick of age and takes one tick off a running cooldown, never
      below zero; nothing else about the organism changes. */
  lemma AgingOutcome(o: Organism)
    ensures var a := Aged(o);
      && a == o.(age := a.age, cooldown := a.cooldown)
      && a.age.ticks == o.age.ticks + 1
      && a.cooldown.ticks == if o.cooldown.ticks > 0 then o.cooldown.ticks - 1 else 0
  {
  }

  // ---------------------------------------------------------------------------
  // Reproduction

  /** The random draws for one organism's reproduction attempt: the 10% attempt
      coin, the 30% sexual coin, the per-gene crossover and mutation coins and
      mutation noise, and the offspring's offset from its parent. */
  datatype ReproductionDraws = ReproductionDraws(
    attempt: bool,
    sexual: bool,
    pickA: nat -> bool,
    mutate: nat -> bool,
    noise: nat -> real,
    offset: Vec2)

  /** Ready to reproduce: the cooldown has run out and the energy ratio has reached
      the expressed reproduction threshold. */
  predicate CanReproduce(o: Organism)
  {
    o.cooldown.IsReady() && o.energy.Ratio() >= ExpressReproductionThreshold(o.genome)
  }

  /** Whether `other` can be the mate of `o`: another entity of the same species
      within o's sensory range. */
  predicate MateFor(o: Organism, other: Organism)
  {
    other.entity != o.entity && other.species == o.species
    && AtMost(DistanceSq(o.position, other.position), ExpressSensoryRange(o.genome))
  }

  /** The genome of the first organism of the snapshot that can be o's mate. */
  function MateGenome(all: seq<Organism>, o: Organism): (r: Option<Genome>)
    ensures r.None? <==> forall x :: x in all ==> !MateFor(o, x)
    ensures r.Some? ==>
      exists i :: (0 <= i < |all| && MateFor(o, all[i]) && all[i].genome == r.value
                   && forall j :: 0 <= j < i ==> !MateFor(o, all[j]))
  {
    if |all| == 0 then None
    else if MateFor(o, all[0]) then Some(all[0].genome)
    else
      var rest := MateGenome(all[1..], o);
      assert forall x :: x in all ==> x == all[0] || x in all[1..];
      if rest.Some? then
        var i :| 0 <= i < |all[1..]| && MateFor(o, all[1..][i]) && all[1..][i].genome == rest.value
          && forall j :: 0 <= j < i ==> !MateFor(o, all[1..][j]);
        assert all[i + 1] == all[1..][i];
        rest
      else rest
  }

  /** The loop over the snapshot that looks for a mate. */
  method FindMate(all: seq<Organism>, o: Organism) returns (r: Option<Genome>)
    ensures r == MateGenome(all, o)
  {
    var sensoryRange := ExpressSensoryRange(o.genome);
    for k := 0 to |all|
      invariant MateGenome(all[k..], o) == MateGenome(all, o)
    {
      assert all[k..][1..] == all[k + 1..];
      var other := all[k];
      if other.entity == o.entity {
        continue;
      }
      if other.species != o.species {
        continue;
      }
      var distanceSq := DistanceSq(o.position, other.position);
      if AtMost(distanceSq, sensoryRange) {
        return Some(other.genome);
      }
    }
    assert all[|all|..] == [];
    return None;
  }

  /** The offspring genome organism i of the snapshot produces this tick, if any:
      with the 30% coin and a mate, a crossover with the mate; otherwise a mutated
      copy of its own genome. */
  function OffspringGenome(all: seq<Organism>, i: nat, d: ReproductionDraws): Option<Genome>
    requires i < |all|
  {
    var o := all[i];
    if !CanReproduce(o) || !d.attempt then None
    else if d.sexual then
      match MateGenome(all, o)
      case Some(mate) => Some(Crossed(o.genome, mate, d.pickA, d.mutate, d.noise))
      case None => Some(Mutated(o.genome, d.mutate, d.noise))
    else Some(Mutated(o.genome, d.mutate, d.noise))
  }

  /** A reproduction event: the parent's index and the offspring's genome. */
  datatype Birth = Birth(parent: nat, genome: Genome)

  /** Every organism's decision against the snapshot, in query order. */
  function Decisions(all: seq<Organism>, draws: nat -> ReproductionDraws): (gs: seq<Option<Genome>>)
    ensures |gs| == |all|
    ensures forall i :: 0 <= i < |all| ==> gs[i] == OffspringGenome(all, i, draws(i))
  {
    seq(|all|, i requires 0 <= i < |all| => OffspringGenome(all, i, draws(i)))
  }

  /** The events of a sequence of decisions, in order; parents are strictly
      increasing, so no organism reproduces twice. */
  function Births(gs: seq<Option<Genome>>): (bs: seq<Birth>)
    ensures forall k :: 0 <= k < |bs| ==> bs[k].parent < |gs|
    ensures forall k, m :: 0 <= k < m < |bs| ==> bs[k].parent < bs[m].parent
  {
    if |gs| == 0 then []
    else
      Births(gs[..|gs| - 1])
      + match gs[|gs| - 1] { case Some(g) => [Birth(|gs| - 1, g)] case None => [] }
  }

  /** The genome of j's event among bs, if it has one. */
  function BirthFor(bs: seq<Birth>, j: nat): (r: Option<Genome>)
    ensures r.None? <==> forall k :: 0 <= k < |bs| ==> bs[k].parent != j
  {
    if |bs| == 0 then None
    else if BirthFor(bs[..|bs| - 1], j).Some? then BirthFor(bs[..|bs| - 1], j)
    else if bs[|bs| - 1].parent == j then Some(bs[|bs| - 1].genome)
    else None
  }

  /** Appending an event for parent p settles p's entry if it had none. */
  lemma BirthForAppend(bs: seq<Birth>, b: Birth, j: nat)
    ensures BirthFor(bs + [b], j) ==
      if BirthFor(bs, j).Some? then BirthFor(bs, j) else if b.parent == j then Some(b.genome) else None
  {
    assert (bs + [b])[..|bs|] == bs;
  }

  /** Organism j has an event exactly when its decision produced a genome, and
      the event carries that genome. */
  lemma {:induction false} BirthForBirths(gs: seq<Option<Genome>>, j: nat)
    ensures BirthFor(Births(gs), j) == if j < |gs| then gs[j] else None
  {
    if |gs| > 0 {
      var init := gs[..|gs| - 1];
      BirthForBirths(init, j);
      var prev := Births(init);
      match gs[|gs| - 1] {
        case Some(g) =>
          BirthForAppend(prev, Birth(|gs| - 1, g), j);
        case None =>
          assert Births(gs) == prev;
      }
    }
  }

  /** The reproduction cooldown an offspring genome sets: its expressed cooldown
      truncated to whole ticks. */
  function CooldownTicks(g: Genome): (t: nat)
    ensures 500 <= t <= 2000
  {
    ExpressReproductionCooldown(g).Floor
  }

  /** The parent after its event: 70% of its energy, cooldown reset from the offspring genome. */
  function AsParent(o: Organism, g: Genome): Organism
  {
    o.(energy := o.energy.(current := o.energy.current * 0.7), cooldown := o.cooldown.Reset(CooldownTicks(g)))
  }

  /** The offspring of parent p with genome g, spawned at p's position plus the
      offset, with entity number `entity`. */
  function Child(p: Organism, g: Genome, offset: Vec2, entity: nat): Organism
  {
    Organism(
      entity,
      p.position.Add(offset),
      Zero,
      NewEnergy(ExpressMaxEnergy(g) * 0.5),
      Age(0),
      ExpressSize(g),
      Metabolism(ExpressMetabolismRate(g), ExpressMovementCost(g)),
      ReproductionCooldown(CooldownTicks(g)),
      g,
      p.species,
      p.kind,
      DefaultBehavior)
  }

  /** The parent state of organism j after the tick's events. */
  function AfterReproduction(all: seq<Organism>, draws: nat -> ReproductionDraws, j: nat): Organism
    requires j < |all|
  {
    ParentAfter(all[j], OffspringGenome(all, j, draws(j)))
  }

  /** One organism's reproduction decision against the snapshot. */
  method DecideOffspring(all: seq<Organism>, i: nat, d: ReproductionDraws) returns (r: Option<Genome>)
    requires i < |all|
    ensures r == OffspringGenome(all, i, d)
  {
    var o := all[i];
    if !o.cooldown.IsReady() {
      return None;
    }
    var reproductionThreshold := ExpressReproductionThreshold(o.genome);
    if o.energy.Ratio() < reproductionThreshold {
      return None;
    }
    if !d.attempt {
      return None;
    }
    var offspringGenome;
    if d.sexual {
      var mate := FindMate(all, o);
      if mate.Some? {
        offspringGenome := Crossover(o.genome, mate.value, d.pickA, d.mutate, d.noise);
      } else {
        offspringGenome := CloneWithMutation(o.genome, d.mutate, d.noise);
      }
    } else {
      offspringGenome := CloneWithMutation(o.genome, d.mutate, d.noise);
    }
    return Some(offspringGenome);
  }

  /** The decision loop over the snapshot, collecting the events in order. */
  method CollectBirths(all: seq<Organism>, draws: nat -> ReproductionDraws) returns (events: seq<Birth>)
    ensures events == Births(Decisions(all, draws))
  {
    ghost var gs := Decisions(all, draws);
    events := [];
    for i := 0 to |all|
      invariant events == Births(gs[..i])
    {
      assert gs[..i + 1][..i] == gs[..i];
      var g := DecideOffspring(all, i, draws(i));
      if g.Some? {
        events := events + [Birth(i, g.value)];
      }
    }
    assert gs[..|all|] == gs;
  }

  /** Events name existing organisms in strictly increasing order of parent. */
  predicate Scheduled(events: seq<Birth>, n: nat)
  {
    && (forall k :: 0 <= k < |events| ==> events[k].parent < n)
    && (forall k, m :: 0 <= k < m < |events| ==> events[k].parent < events[m].parent)
  }

  /** Every organism of os is its snapshot counterpart after its event, if any. */
  ghost predicate ParentsAfter(os: seq<Organism>, all: seq<Organism>, events: seq<Birth>)
    requires |os| == |all|
  {
    forall j :: 0 <= j < |os| ==> os[j] == ParentAfter(all[j], BirthFor(events, j))
  }

  /** The spawning loop: each event, in order, spawns its offspring and updates
      its parent. Offspring are numbered from `firstEntity`. */
  method ApplyBirths(organisms: array<Organism>, events: seq<Birth>, draws: nat -> ReproductionDraws, firstEntity: nat)
    returns (offspring: seq<Organism>)
    requires Scheduled(events, organisms.Length)
    modifies organisms
    ensures offspring == Offspring(old(organisms[..]), events, draws, firstEntity)
    ensures ParentsAfter(organisms[..], old(organisms[..]), events)
  {
    ghost var all := organisms[..];
    offspring := [];
    for k := 0 to |events|
      invariant offspring == Offspring(all, events[..k], draws, firstEntity)
      invariant ParentsAfter(organisms[..], all, events[..k])
    {
      assert events[..k + 1][..k] == events[..k];
      var child := ApplyBirthAt(organisms, events, k, all, draws, firstEntity);
      offspring := offspring + [child];
    }
    assert events[..|events|] == events;
  }

  /** The offspring the events spawn, in order, numbered from `firstEntity`. */
  ghost function Offspring(all: seq<Organism>, events: seq<Birth>, draws: nat -> ReproductionDraws, firstEntity: nat): (r: seq<Organism>)
    requires forall k :: 0 <= k < |events| ==> events[k].parent < |all|
    ensures |r| == |events|
  {
    if |events| == 0 then []
    else
      var e := events[|events| - 1];
      Offspring(all, events[..|events| - 1], draws, firstEntity) + [Child(all[e.parent], e.genome, draws(e.parent).offset, firstEntity + |events| - 1)]
  }

  lemma {:induction false} OffspringAt(all: seq<Organism>, events: seq<Birth>, draws: nat -> ReproductionDraws, firstEntity: nat, k: nat)
    requires forall m :: 0 <= m < |events| ==> events[m].parent < |all|
    requires k < |events|
    ensures Offspring(all, events, draws, firstEntity)[k]
      == Child(all[events[k].parent], events[k].genome, draws(events[k].parent).offset, firstEntity + k)
  {
    if k < |events| - 1 {
      OffspringAt(all, events[..|events| - 1], draws, firstEntity, k);
    }
  }

  /** The body of the spawning loop for event k: spawn the offspring, then take
      30% of the parent's energy and reset its cooldown. */
  method ApplyBirthAt(
    organisms: array<Organism>, events: seq<Birth>, k: nat, ghost all: seq<Organism>,
    draws: nat -> ReproductionDraws, firstEntity: nat) returns (child: Organism)
    requires k < |events| && |all| == organisms.Length && Scheduled(events, organisms.Length)
    requires ParentsAfter(organisms[..], all, events[..k])
    modifies organisms
    ensures ParentsAfter(organisms[..], all, events[..k + 1])
    ensures child == Child(all[events[k].parent], events[k].genome, draws(events[k].parent).offset, firstEntity + k)
  {
    var e := events[k];
    assert events[..k + 1] == events[..k] + [e];
    assert BirthFor(events[..k], e.parent).None? by {
      forall m | 0 <= m < k ensures events[..k][m].parent != e.parent {
        assert events[m].parent < e.parent;
      }
    }
    forall j | 0 <= j < organisms.Length {
      BirthForAppend(events[..k], e, j);
    }
    var parent := organisms[e.parent];
    child := SpawnOffspring(parent, e.genome, draws(e.parent).offset, firstEntity + k);
    organisms[e.parent] := parent.(energy := parent.energy.(current := parent.energy.current * 0.7),
                                   cooldown := parent.cooldown.Reset(CooldownTicks(e.genome)));
  }

  /** Spawning one offspring: its traits are expressed from its genome, it starts
      at its parent's position plus the offset, still, with half its expressed
      maximum energy as a full store, aged zero and in the default behaviour. */
  method SpawnOffspring(parent: Organism, genome: Genome, offset: Vec2, entity: nat) returns (child: Organism)
    ensures child == Child(parent, genome, offset, entity)
  {
    var size := ExpressSize(genome);
    var maxEnergy := ExpressMaxEnergy(genome);
    var metabolismRate := ExpressMetabolismRate(genome);
    var movementCost := ExpressMovementCost(genome);
    var reproductionCooldown := CooldownTicks(genome);
    child := Organism(
      entity,
      parent.position.Add(offset),
      Zero,
      NewEnergy(maxEnergy * 0.5),
      Age(0),
      size,
      Metabolism(metabolismRate, movementCost),
      ReproductionCooldown(reproductionCooldown),
      genome,
      parent.species,
      parent.kind,
      DefaultBehavior);
  }

  /** `handle_reproduction`: the snapshot, then the decisions against it, then the
      events applied in order. Spawned offspring are returned, numbered from
      `firstEntity`. */
  method HandleReproduction(organisms: array<Organism>, draws: nat -> ReproductionDraws, firstEntity: nat)
    returns (offspring: seq<Organism>)
    modifies organisms
    ensures var bs := Births(Decisions(old(organisms[..]), draws));
      && |offspring| == |bs|
      && (forall k :: 0 <= k < |bs| ==>
            offspring[k] == Child(old(organisms[bs[k].parent]), bs[k].genome, draws(bs[k].parent).offset, firstEntity + k))
    ensures forall j :: 0 <= j < organisms.Length ==> organisms[j] == AfterReproduction(old(organisms[..]), draws, j)
  {
    var all := organisms[..];
    var events := CollectBirths(all, draws);
    offspring := ApplyBirths(organisms, events, draws, firstEntity);
    forall k | 0 <= k < |events|
      ensures offspring[k] == Child(all[events[k].parent], events[k].genome, draws(events[k].parent).offset, firstEntity + k)
    {
      OffspringAt(all, events, draws, firstEntity, k);
    }
    forall j | 0 <= j < organisms.Length
      ensures organisms[j] == AfterReproduction(all, draws, j)
    {
      assert organisms[j] == organisms[..][j];
      BirthForBirths(Decisions(all, draws), j);
    }
  }

  /** A parent-to-be after its event, if it has one. */
  function ParentAfter(o: Organism, g: Option<Genome>): Organism
  {
    match g
    case Some(genome) => AsParent(o, genome)
    case None => o
  }

  /** Only organisms that are ready and have reached their threshold reproduce; a
      parent keeps 70% of its energy and cannot reproduce again until its new
      cooldown of at least 500 ticks has run out; every other organism is unchanged. */
  lemma ReproductionOutcome(all: seq<Organism>, draws: nat -> ReproductionDraws, j: nat)
    requires j < |all|
    ensures OffspringGenome(all, j, draws(j)).Some? ==> CanReproduce(all[j]) && draws(j).attempt
    ensures var p := AfterReproduction(all, draws, j);
      OffspringGenome(all, j, draws(j)).Some? ==>
        p.energy.current == all[j].energy.current * 0.7 && p.energy.max == all[j].energy.max
        && !p.cooldown.IsReady() && p.cooldown.ticks >= 500
        && p == all[j].(energy := p.energy, cooldown := p.cooldown)
    ensures OffspringGenome(all, j, draws(j)).None? ==> AfterReproduction(all, draws, j) == all[j]
  {
  }

  /** An offspring inherits its parent's species and type, starts still with a
      full store of half its expressed maximum energy, ready to reproduce only
      after its own cooldown. */
  lemma ChildOutcome(p: Organism, g: Genome, offset: Vec2, entity: nat)
    ensures var c := Child(p, g, offset, entity);
      && c.species == p.species && c.kind == p.kind
      && c.velocity == Zero
      && c.energy.current == c.energy.max == ExpressMaxEnergy(g) * 0.5
      && 15.0 <= c.energy.max <= 75.0
      && c.age.ticks == 0 && !c.cooldown.IsReady()
      && c.behavior == DefaultBehavior
  {
  }

  /** Genes stay in [0, 1] from parent to offspring: a crossover clamps every gene,
      and a mutated copy clamps what it moves and keeps the rest. */
  lemma OffspringGenesInRange(all: seq<Organism>, i: nat, d: ReproductionDraws)
    requires i < |all|
    requires forall k :: 0 <= k < |all[i].genome.genes| ==> 0.0 <= all[i].genome.genes[k] <= 1.0
    ensures OffspringGenome(all, i, d).Some? ==>
      var g := OffspringGenome(all, i, d).value;
      forall k :: 0 <= k < |g.genes| ==> 0.0 <= g.genes[k] <= 1.0
  {
  }

  /** Each parent has exactly one event: organism j reproduces iff an event names it. */
  lemma OneOffspringPerParent(all: seq<Organism>, draws: nat -> ReproductionDraws, j: nat)
    requires j < |all|
    ensures var bs := Births(Decisions(all, draws));
      (OffspringGenome(all, j, draws(j)).Some? <==> exists k :: 0 <= k < |bs| && bs[k].parent == j)
      && forall k, m :: 0 <= k < |bs| && 0 <= m < |bs| && bs[k].parent == j && bs[m].parent == j ==> k == m
  {
    BirthForBirths(Decisions(all, draws), j);
  }

  // ---------------------------------------------------------------------------
  // Death

  function Survivors(os: seq<Organism>): seq<Organism>
  {
    if |os| == 0 then []
    else Survivors(os[..|os| - 1]) + if os[|os| - 1].energy.IsDead() then [] else [os[|os| - 1]]
  }

  function DeadEntities(os: seq<Organism>): seq<nat>
  {
    if |os| == 0 then []
    else DeadEntities(os[..|os| - 1]) + if os[|os| - 1].energy.IsDead() then [os[|os| - 1].entity] else []
  }

  /** `handle_death`: the despawned entities, and the organisms that remain. */
  method HandleDeath(organisms: array<Organism>) returns (survivors: seq<Organism>, removed: seq<nat>)
    ensures survivors == Survivors(organisms[..])
    ensures removed == DeadEntities(organisms[..])
  {
    survivors := [];
    removed := [];
    for i := 0 to organisms.Length
      invariant survivors == Survivors(organisms[..i])
      invariant removed == DeadEntities(organisms[..i])
    {
      assert organisms[..i + 1][..i] == organisms[..i];
      var o := organisms[i];
      if o.energy.IsDead() {
        removed := removed + [o.entity];
      } else {
        survivors := survivors + [o];
      }
    }
    assert organisms[..organisms.Length] == organisms[..];
  }

  /** Exactly the organisms with energy at most zero are removed: the survivors are
      the live ones, every removed entity is a dead organism's, and every organism
      is counted once. */
  lemma {:induction false} DeathOutcome(os: seq<Organism>)
    ensures forall o :: o in Survivors(os) <==> o in os && !o.energy.IsDead()
    ensures forall e :: e in DeadEntities(os) <==> exists o :: o in os && o.energy.IsDead() && o.entity == e
    ensures |Survivors(os)| + |DeadEntities(os)| == |os|
  {
    if |os| > 0 {
      var init := os[..|os| - 1];
      var last := os[|os| - 1];
      DeathOutcome(init);
      assert os == init + [last];
      assert forall o :: o in os <==> o in init || o == last;
    }
  }
}
