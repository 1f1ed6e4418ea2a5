# Evolution-Sim-2.0: a verified model of the simulation core

Evolution-Sim-2.0 is an ecosystem simulator built on the Bevy engine. The
world is a grid of 64×64-cell chunks. Each cell holds six resource densities
(Plant, Mineral, Sunlight, Water, Detritus, Prey), a pressure and an
adaptation value per resource, a temperature, a humidity, an elevation and a
terrain type. Each tick, resources regenerate, decay, are quantised and
diffuse between neighbouring cells. Organisms live on top of the grid. They
are Producers, Consumers or Decomposers, each carrying a 32-gene genome from
which its traits are expressed. Every tick runs the same systems in order:

1. metabolism;
2. sensing and behaviour decisions;
3. movement;
4. eating;
5. ageing;
6. reproduction, with mutation and crossover;
7. death.

Two trackers watch the population. One groups genomes into species by
distance to a centroid. The other collects population and trait statistics
per species. The tuning presets are named parameter sets for balancing the
ecosystem.

This project models that core in Dafny and proves what the code promises
about it.

How the model is built:

- **Value records.** They become datatypes: `Cell`, `Genome`, `Energy`,
  `Age`, `ReproductionCooldown`, `Behavior` and the tuning record. Their
  `&mut self` methods are functions that return the updated record.
- **Chunk.** It is a class over an `array<Cell>` with its dirty flag and
  dirty set.
- **Climate, species tracker and statistics.** Each is a class whose methods
  update its fields.
- **Organism passes.** Each system is a method over an `array<Organism>`.
  The cell buffer is an `array<Cell>`.
- **Specifications.** Every method is proved against a specification
  function or predicate. Where the source iterates a hash map, the
  predicate allows any order: `Assigned` for one species lookup and
  `ReassignedBy` for a whole reassignment pass, which a ghost trace of
  the tracker states witnesses. Lemmas about those definitions prove the
  properties.

Floating-point values are `real`. The source's `u32` and `usize` values are
`nat`. Euclidean distances are compared as squares, so no square root is
needed:

- `d <= r` is `AtMost(d², r)`;
- `d < r` is `LessThan(d², r)`.

The model follows the code in these places, where one might expect otherwise:

- there are six behaviour states (there is no migration state);
- the flee threshold is `10 + 20·boldness`;
- sexual reproduction is chosen with probability 0.3;
- eating does not update pressure;
- the centroid accumulator starts from a genome filled with 0.5, not from
  zero;
- `collect_sensory_data` passes the predator test its arguments in the order
  that makes a Consumer flag every non-Consumer it sees as a predator
  (`PredatorFlagQuirk`).

Module layout: one file per source file, plus shared helpers.

| file | source |
|---|---|
| `cell.dfy` | `world/cell.rs` |
| `chunk.dfy` | `world/chunk.rs` |
| `resources.dfy` | `world/resources.rs` |
| `world.dfy` | `world/mod.rs` |
| `climate.dfy` | `world/climate.rs` |
| `components.dfy` | `organisms/components.rs` |
| `genetics.dfy` | `organisms/genetics.rs` |
| `behavior.dfy` | `organisms/behavior.rs` |
| `systems.dfy` | `organisms/systems.rs` |
| `speciation.dfy` | `organisms/speciation.rs` |
| `ecosystem_stats.dfy` | `organisms/ecosystem_stats.rs` |
| `tuning.dfy` | `organisms/tuning.rs` |
| `util.dfy` | clamps, minimum and maximum, squared comparisons, map totals |

## Model

| member | source | states |
|---|---|---|
| WorldCell.TerrainType.Index | src/world/cell.rs:76-85 | a terrain's discriminant, which selects its row of the rate tables, is below 8 |
| WorldCell.ResourceType.Index | src/world/cell.rs:96-105 | a resource's slot index is below 6, and the slot loops' index-to-resource mapping gives that resource back |
| WorldCell.ResourceAtIndex | src/world/resources.rs:63-71 | for every slot index below 6, the resource the slot loop picks has that index, so slot loops and typed access agree |
| WorldCell.WithTerrain | src/world/cell.rs:22-48 | the result has the requested terrain and is otherwise the default cell: zero arrays, temperature and humidity 0.5, elevation 0 |
| WorldCell.Cell.SetResource | src/world/cell.rs:56-58 | stores `max(v, 0)` at the resource's slot; every other slot and every other field is unchanged |
| WorldCell.GetAfterSet | src/world/cell.rs:51-58 | reading a slot after a write gives `max(v, 0)` for that slot and the old value for any other slot |
| WorldCell.SetResourceHasNoCap | src/world/cell.rs:57 | a value above 1 is stored as given, because there is no upper clamp |
| WorldCell.Cell.AddResource | src/world/cell.rs:61-64 | equals writing `old + amount` through the setter, so the slot stays non-negative |
| WorldCell.Cell.AddPressure | src/world/cell.rs:67-70 | the pressure slot becomes `min(old + amount, 10)`: the sum when it is at most 10, exactly 10 when it is larger, so never above 10; no other pressure and no other field changes |
| WorldCell.AddPressureHasNoFloor | src/world/cell.rs:69 | a large negative amount drives the pressure below zero, because there is no lower clamp |
| WorldChunk.IndexOf | src/world/chunk.rs:40 | an in-chunk coordinate pair maps to the row-major index `y·64 + x`, which is below 4096 |
| WorldChunk.CoordsOf | src/world/chunk.rs:10-12 | every index below 4096 is the row-major index of exactly one in-chunk coordinate pair |
| WorldChunk.CoordsOfIndex | src/world/chunk.rs:40 | coordinates to index and back gives the same coordinates (the layout is a bijection) |
| WorldChunk.Chunk.constructor | src/world/chunk.rs:25-35 | a new chunk has 4096 default cells, the given chunk coordinates, a clear dirty flag and an empty dirty set |
| WorldChunk.Chunk.GetCell | src/world/chunk.rs:38-44 | returns a cell exactly when `x < 64 && y < 64`, and then it is the cell at `y·64 + x` |
| WorldChunk.Chunk.GetCellMut | src/world/chunk.rs:47-55 | in bounds, returns index `y·64 + x`, sets the dirty flag and adds `(x, y)` to the dirty set; out of bounds, returns nothing and changes nothing; every dirty coordinate stays in range |
| WorldChunk.Chunk.MarkClean | src/world/chunk.rs:74-77 | clears the dirty flag and the dirty set and leaves the cells alone |
| WorldChunk.Chunk.CellsMut | src/world/chunk.rs:90-93 | hands out the chunk's own cell buffer, sets the dirty flag and leaves the dirty set unchanged |
| WorldChunk.WorldCoordinatesDecompose | src/world/chunk.rs:58-71 | the local coordinates lie in [0, 64) even for negative world coordinates, and `64·chunk + local == floor(w)` on each axis |
| Resources.RegenerationRatesInUnitRange | src/world/resources.rs:5-22 | every entry of the regeneration table lies in [0, 1] |
| Resources.NoPlantGrowthOnOceanOrVolcanic | src/world/resources.rs:5-22 | on Ocean and Volcanic terrain, regeneration never raises Plant; it can only cap it at 1 |
| Resources.TemperatureMultiplierSpec | src/world/resources.rs:38-43 | the multiplier lies in [0, 1]; it is 1 exactly at temperature 0.5 and 0 exactly when the temperature is at least 0.5 away from it |
| Resources.HumidityMultiplierSpec | src/world/resources.rs:46-55 | Sunlight and Mineral get 1 whatever the humidity and Water gets the humidity itself; for humidity in [0, 1] every multiplier lies in [0, 1] |
| Resources.RegenerateResources | src/world/resources.rs:58-80 | the slot loop computes `min(x + rate·temp·humidity·dt, 1)` for each slot, as the regeneration specification function defines it |
| Resources.RegeneratedAtMostMax | src/world/resources.rs:77 | after regeneration every density is at most 1 |
| Resources.RegenerationNeverLowers | src/world/resources.rs:58-80 | for humidity ≥ 0 and dt ≥ 0, no density drops below `min(old, 1)`, and a density that is at most 1 never decreases |
| Resources.EffectiveRateNonNegative | src/world/resources.rs:73-74 | the combined rate (table rate × temperature factor × humidity factor) is non-negative whenever humidity is |
| Resources.NoGrowthAtExtremeTemperature | src/world/resources.rs:60-77 | when the temperature is at least 0.5 away from 0.5, regeneration changes nothing beyond capping at 1 |
| Resources.DecayResources | src/world/resources.rs:83-90 | the slot loop computes `max(x·(1 − rate·dt), 0)` for each slot with a positive decay rate and skips the others (Mineral) |
| Resources.DecayKeepsMineralsAndSign | src/world/resources.rs:83-90 | decay leaves Mineral untouched and leaves every other density non-negative |
| Resources.DecayNeverRaises | src/world/resources.rs:86-87 | for a non-negative density and dt ≥ 0, decay never increases it |
| Resources.QuantizeResources | src/world/resources.rs:93-99 | the slot loop sets each density below the threshold to 0 and leaves the others as they were |
| Resources.QuantizeZeroesSmallAndIsIdempotent | src/world/resources.rs:93-99 | a slot ends at 0 exactly when it was below the threshold or already 0, and quantising twice equals quantising once |
| World.InitialChunkCount | src/world/mod.rs:44-49 | the initial chunk coordinates {−1, 0, 1}² are exactly nine pairs |
| World.InitializeWorld | src/world/mod.rs:39-55 | the double loop creates exactly the nine chunks keyed by {−1, 0, 1}², each fresh, at its own key and with its own separate cell buffer |
| World.TickCell | src/world/mod.rs:98-107 | one cell's tick is regeneration, then decay, then quantisation at 0.001, in that order |
| World.RegenerateAndDecayChunk | src/world/mod.rs:88-112 | every cell of the chunk is replaced by its ticked value, and every coordinate is recorded as dirty |
| World.ResourceTickInUnitRange | src/world/mod.rs:100-106 | for a non-negative density, humidity ≥ 0 and dt ≥ 0, the ticked density lies in [0, 1] and is either 0 or at least the quantisation threshold |
| World.SnapshotDensities | src/world/mod.rs:130-139 | the temporary buffer is a fresh copy of every cell's density array, in index order |
| World.NeighborStats | src/world/mod.rs:145-165 | the neighbour loop returns the number of in-chunk neighbours and, per resource, the sum of their snapshot densities |
| World.NeighborCountShape | src/world/mod.rs:148-164 | with the unsigned wrap sending −1 out of range, a cell has 3 neighbours at a corner, 5 on an edge and 8 inside, so never 0 |
| World.DiffuseCell | src/world/mod.rs:168-178 | each density becomes `clamp(own + (average − own)·0.1·dt, 0, 1)` and no other field of the cell changes |
| World.FlowResources | src/world/mod.rs:116-184 | every cell's densities become the diffusion of the snapshot taken before any write; all other fields stay and every coordinate is recorded as dirty |
| World.DiffusedInUnitRange | src/world/mod.rs:175-176 | every density after the flow pass lies in [0, 1] |
| World.DiffusionFollowsGradient | src/world/mod.rs:170-176 | for a value in [0, 1] and dt ≥ 0, a neighbour average at or above the value never lowers it, and one at or below never raises it |
| World.DiffusionStaysBetween | src/world/mod.rs:172-176 | when `0 ≤ 0.1·dt ≤ 1`, the new value lies between the old value and the neighbour average |
| World.DiffusionExample | src/world/mod.rs:172-176 | an illustration on one input, not a general property: an empty cell surrounded by full neighbours reaches 0.1 after one unit of time |
| World.OrderIndependent | src/world/mod.rs:142-181 | writing diffused cells from the snapshot gives the same chunk for any two visiting orders that cover the same cells |
| World.FlowMatchesAnyOrder | src/world/mod.rs:130-181 | visiting every cell in any order gives exactly the flow pass's result |
| Climate.Season | src/world/climate.rs:33-35 | the season phase always lies in [0, 1) |
| Climate.ClimateState.constructor | src/world/climate.rs:17-26 | the default climate starts with base temperature and humidity 0.5, season 0 and time 0 |
| Climate.ClimateState.Update | src/world/climate.rs:30-52 | time advances by exactly 1; the season follows the new time; base temperature is the seasonal value plus drift, clamped to [0.2, 0.8] whatever the draw; base humidity follows the season inversely |
| Climate.ClimateState.CellTemperature | src/world/climate.rs:55-75 | the cell temperature lies in [0, 1] for every elevation and terrain |
| Climate.ClimateState.HigherIsNotWarmer | src/world/climate.rs:58-60 | on one terrain, a higher elevation never gives a higher temperature |
| Climate.ClimateState.CellHumidity | src/world/climate.rs:78-97 | the cell humidity lies in [0, 1] for every terrain and temperature |
| Climate.ClimateState.HumidityFollowsTemperature | src/world/climate.rs:93-96 | on one terrain, humidity never decreases as temperature rises |
| Climate.ClimateState.UpdateCellClimate | src/world/climate.rs:101-104 | the cell gets the computed temperature, then the humidity computed from that new temperature; nothing else changes and both values lie in [0, 1] |
| Components.NewEnergy | src/organisms/components.rs:48-50 | current energy equals maximum energy, and both equal the argument |
| Components.WithEnergy | src/organisms/components.rs:52-57 | current energy is `min(current, max)` with the given maximum |
| Components.Energy.Ratio | src/organisms/components.rs:59-65 | the ratio is 0 when max ≤ 0 and `current / max` otherwise, and it lies in [0, 1] when `0 ≤ current ≤ max` |
| Components.Age.Increment | src/organisms/components.rs:81-83 | the age grows by exactly one tick |
| Components.ReproductionCooldown.Decrement | src/organisms/components.rs:221-225 | a positive cooldown drops by one and zero stays zero, so it never underflows |
| Components.ReproductionCooldown.Reset | src/organisms/components.rs:227-229 | the cooldown becomes exactly `t`, and it is ready exactly when `t == 0` |
| Components.CooldownReadyAfter | src/organisms/components.rs:217-225 | after `n` decrements the cooldown is `max(t − n, 0)`, and it is ready exactly when `n ≥ t` |
| Genetics.NewGenome | src/organisms/genetics.rs:28-38 | the genome has 32 genes; gene `i` is the clamped input where one exists and 0.5 beyond the input |
| Genetics.Genome.GetGene | src/organisms/genetics.rs:41-47 | returns 0.5 past the end and the gene clamped to [0, 1] otherwise, so the result always lies in [0, 1] |
| Genetics.Genome.SetGene | src/organisms/genetics.rs:50-54 | in range, writes the clamped value at that index only; out of range, changes nothing |
| Genetics.MutatedGene | src/organisms/genetics.rs:64-74 | an unmutated gene is unchanged, and a mutated gene lies in [0, 1] whatever the noise |
| Genetics.Mutated | src/organisms/genetics.rs:57-80 | mutation preserves the length, keeps every unmutated gene and leaves every mutated gene in [0, 1] |
| Genetics.CloneWithMutation | src/organisms/genetics.rs:57-80 | the gene loop computes exactly the mutation specification function |
| Genetics.Crossed | src/organisms/genetics.rs:83-113 | the child has 32 genes, all in [0, 1]; each unmutated gene equals parent a's `get_gene(i)` or parent b's |
| Genetics.Crossover | src/organisms/genetics.rs:83-113 | the gene loop computes exactly the crossover specification function |
| Genetics.NoMutationPreservesGenome | src/organisms/genetics.rs:57-113 | with no gene mutated, cloning returns the parent, and crossing a genome with itself gives its `get_gene` values |
| Genetics.Distance | src/organisms/genetics.rs:116-126 | the loop over the common prefix computes the mean squared difference, or nothing for an empty genome (the source's `0/0`) |
| Genetics.SquaredDiffSumSymmetric | src/organisms/genetics.rs:120-123 | the sum of squared differences does not depend on argument order |
| Genetics.SquaredDiffSumNonNegative | src/organisms/genetics.rs:120-123 | the sum of squared differences is non-negative |
| Genetics.SquaredDiffSumSelf | src/organisms/genetics.rs:120-123 | the sum of squared differences of a genome with itself is 0 |
| Genetics.DistanceIsPseudoMetric | src/organisms/genetics.rs:116-126 | distance is symmetric and non-negative, defined exactly when both genomes are non-empty, and 0 from a non-empty genome to itself |
| Genetics.ExpressTrait | src/organisms/genetics.rs:169-173 | the trait lies in [min, max] when min ≤ max; it is min at gene 0, max at gene 1 and the midpoint for a missing gene |
| Genetics.ExpressTraitMonotone | src/organisms/genetics.rs:169-173 | a larger gene never expresses a smaller trait |
| Genetics.ExpressSpeed | src/organisms/genetics.rs:176-178 | speed lies in [0.5, 20] |
| Genetics.ExpressSize | src/organisms/genetics.rs:181-183 | size lies in [0.3, 3] |
| Genetics.ExpressMetabolismRate | src/organisms/genetics.rs:186-188 | the metabolism rate lies in [0.005, 0.02] |
| Genetics.ExpressMovementCost | src/organisms/genetics.rs:191-193 | the movement cost lies in [0.01, 0.1] |
| Genetics.ExpressMaxEnergy | src/organisms/genetics.rs:196-198 | maximum energy lies in [30, 150] |
| Genetics.ExpressReproductionCooldown | src/organisms/genetics.rs:202-204 | the reproduction cooldown lies in [500, 2000] |
| Genetics.ExpressReproductionThreshold | src/organisms/genetics.rs:208-210 | the reproduction threshold lies in [0.5, 0.9] |
| Genetics.ExpressSensoryRange | src/organisms/genetics.rs:213-215 | the sensory range lies in [5, 50] |
| OrganismBehavior.Behavior.SetState | src/organisms/behavior.rs:52-61 | a different state is stored with state time 0 and both targets cleared; the same state changes nothing |
| OrganismBehavior.SetStateIdempotent | src/organisms/behavior.rs:52-61 | setting a state twice equals setting it once, and a second, different state leaves only that state with the timers and targets reset |
| OrganismBehavior.IsPredatorOf | src/organisms/behavior.rs:171-187 | holds exactly when the attacker is a Consumer and the victim is either not a Consumer or smaller than attacker size / 1.5 |
| OrganismBehavior.IsPreyOf | src/organisms/behavior.rs:190-192 | the prey relation is the predator relation with nothing changed |
| OrganismBehavior.Sight | src/organisms/behavior.rs:103-126 | another organism is recorded exactly when it is not the observer and lies within sensory range, with its true squared distance; a mate has the same species and type, is alive and lies within half the range |
| OrganismBehavior.SightingsExactly | src/organisms/behavior.rs:103-126 | a sighting is in `nearby_organisms` exactly when some other organism produces it |
| OrganismBehavior.PredatorFlagQuirk | src/organisms/behavior.rs:110-111 | with the arguments passed as written, a Consumer flags every non-Consumer it sees as a predator, and a non-Consumer flags nothing as predator or prey |
| OrganismBehavior.SenseCell | src/organisms/behavior.rs:141-156 | the loop over the four sensed resources yields the cell's reading list |
| OrganismBehavior.CellReadingsSpec | src/organisms/behavior.rs:141-156 | each reading is Plant, Water, Detritus or Prey, has a value above 0.1 equal to the cell's density, and carries the cell's position and distance |
| OrganismBehavior.SenseOffset | src/organisms/behavior.rs:134-158 | one grid offset yields the readings of the cell there, if that cell exists and is within range |
| OrganismBehavior.OffsetReadingsSound | src/organisms/behavior.rs:134-158 | every reading from one offset is a sensed resource, above 0.1 and within range |
| OrganismBehavior.ScanRow | src/organisms/behavior.rs:133-159 | the inner loop collects one row of offsets from −radius to radius, in order |
| OrganismBehavior.RowReadingsSound | src/organisms/behavior.rs:133-159 | every reading from a row is a sensed resource, above 0.1 and within range |
| OrganismBehavior.ScanRows | src/organisms/behavior.rs:132-160 | the outer loop collects the rows from −radius to radius, in order |
| OrganismBehavior.GridReadingsSound | src/organisms/behavior.rs:132-160 | every reading from the grid scan is a sensed resource, above 0.1 and within range |
| OrganismBehavior.ScanGrid | src/organisms/behavior.rs:128-160 | the scan uses the radius `ceil(range)` and yields the grid's readings |
| OrganismBehavior.InsertByDistanceSpec | src/organisms/behavior.rs:162-165 | inserting one reading adds exactly that reading and keeps a sorted list sorted |
| OrganismBehavior.SortByDistanceSpec | src/organisms/behavior.rs:162-165 | the sorted readings are a permutation of the input, in non-decreasing distance |
| OrganismBehavior.InsertByDistanceStable | src/organisms/behavior.rs:162-165 | an inserted reading goes after every reading at its own distance, so the readings at any one distance keep their order |
| OrganismBehavior.SortByDistanceStable | src/organisms/behavior.rs:162-165 | the sort is stable, as `sort_by` is: the readings at any one distance appear in their input order |
| OrganismBehavior.CollectSensoryData | src/organisms/behavior.rs:85-168 | the three parts are the sightings, the sorted grid readings and the current cell's densities |
| OrganismBehavior.SensingIsSound | src/organisms/behavior.rs:103-165 | every recorded organism is not the observer, lies within range and matches some other organism's entity and position; every recorded resource is a sensed kind above 0.1 within range; the resource list is sorted by distance |
| OrganismBehavior.NearestSpec | src/organisms/behavior.rs:211-213 | the nearest sighting with a relation exists exactly when some sighting has it; it is one of them, and no other sighting with the relation is strictly closer |
| OrganismBehavior.NearestIsFirstMinimum | src/organisms/behavior.rs:211-213 | among equally near sightings, `min_by` returns the first one |
| OrganismBehavior.FirstOfTypeSpec | src/organisms/behavior.rs:290-292 | the first reading of a type exists exactly when the list holds one, and it is the earliest such reading |
| OrganismBehavior.BestFoodSpec | src/organisms/behavior.rs:281-300 | a returned food source is of a preferred type, above 0.2 and the first reading of its type; none is returned exactly when no preferred type's first reading is above 0.2 |
| OrganismBehavior.FindBestFoodSource | src/organisms/behavior.rs:281-300 | the preference loop returns the position of the best food reading, if there is one |
| OrganismBehavior.ProducerFindsOnlyWater | src/organisms/behavior.rs:281-300 | from sensed readings a Producer can only find Water, because Sunlight and Mineral are never sensed |
| OrganismBehavior.IsAtFoodSource | src/organisms/behavior.rs:303-318 | holds exactly when the current cell holds more than 0.2 of some resource the organism's type eats on the spot |
| OrganismBehavior.DecideBehavior | src/organisms/behavior.rs:196-278 | a predator within the flee threshold always gives Fleeing from it; Fleeing happens only then; Wandering carries no targets |
| OrganismBehavior.FleeingOverridesAll | src/organisms/behavior.rs:211-221 | when the nearest predator is closer than `10 + 20·boldness`, the decision is Fleeing with that predator and its position, whatever the energy, food or mates |
| OrganismBehavior.DecisionConditions | src/organisms/behavior.rs:224-277 | Eating or Chasing without a target entity needs ratio < 0.3; with a target entity it is a Consumer hunting the nearest prey within chase range, above the hunting ratio and aggression; Mating needs ratio ≥ threshold and the nearest mate closer than 15; Resting needs ratio < 0.15 and has no targets; Wandering needs ratio ≥ 0.15 |
| OrganismBehavior.HungryOrganismSeeksFood | src/organisms/behavior.rs:224-234 | without a predator to flee, an organism below 0.3 energy that sees food eats or chases it, targeting the food's position and no entity |
| OrganismBehavior.CurrentSpeed | src/organisms/behavior.rs:329-331 | the effective speed, the expressed speed times `max(ratio, 0.3)`, is at least 0.15 |
| OrganismBehavior.BehaviorVelocity | src/organisms/behavior.rs:321-377 | velocity is zero while Eating or Resting, and while Chasing or Mating without a target position |
| OrganismBehavior.VelocityBounded | src/organisms/behavior.rs:329-376 | for unit headings, the speed never exceeds 1.5 × the current speed while fleeing and the current speed otherwise |
| OrganismBehavior.VelocityAsScaled | src/organisms/behavior.rs:333-376 | every velocity is a unit heading scaled by a factor in [0, 1.5 × speed], and by at most the speed when not fleeing |
| Systems.UpdateMetabolism | src/organisms/systems.rs:132-160 | given the true vector length, every organism's energy becomes `max(old − (rate·size + speed·cost)·dt, 0)` |
| Systems.MetabolismDrains | src/organisms/systems.rs:146-158 | with `length` the true vector length, energy is never negative afterwards, only the current energy changes, and it never rises for a non-negative size, time step and energy |
| Systems.UpdateOneBehavior | src/organisms/systems.rs:180-213 | one organism senses, adds dt to its state time, decides and applies the decision |
| Systems.UpdateBehavior | src/organisms/systems.rs:163-214 | with `others` the views of the organisms themselves (the second query over all live organisms), every organism gets the behaviour decided from that snapshot, and the views are still the same afterwards |
| Systems.BehaviorKeepsViews | src/organisms/systems.rs:174-197 | the behaviour pass changes nothing that other organisms sense, so sensing the updated array gives what the snapshot gave |
| Systems.BehaviorUpdateOutcome | src/organisms/systems.rs:182-212 | the targets equal the decision's, state time is 0 exactly when the state changed (otherwise old + dt), and nothing but behaviour changes |
| Systems.ClampToWorld | src/organisms/systems.rs:264-266 | a clamped position lies inside [−200, 200]² |
| Systems.UpdateMovement | src/organisms/systems.rs:217-274 | every organism gets the velocity and position of the movement step |
| Systems.MovementOutcome | src/organisms/systems.rs:236-266 | only velocity and position change; a dead organism stops and keeps its position; a live one ends inside [−200, 200]², and an eating one keeps 0.7 of its velocity |
| Systems.ConsumeBySlot | src/organisms/systems.rs:301-331 | a Producer touches only Sunlight, Water and Mineral; a Consumer only Plant and Prey; a Decomposer only Detritus; each bite takes `min(density, cap)` from its slot |
| Systems.ConsumeGain | src/organisms/systems.rs:301-332 | the energy gained is the sum over the diet of bite × nutrition value |
| Systems.ProducerGain | src/organisms/systems.rs:302-313 | a Producer's gain is its three bites at their nutrition values |
| Systems.ConsumerGain | src/organisms/systems.rs:314-323 | a Consumer's gain is its Plant bite plus its Prey bite counted double |
| Systems.DietGainNonNegative | src/organisms/systems.rs:301-332 | for non-negative densities, the gain is non-negative |
| Systems.MealIsBounded | src/organisms/systems.rs:300-336 | no bite takes more than the cell held, so densities stay in `[0, old]`, and the gain is non-negative |
| Systems.HandleEating | src/organisms/systems.rs:277-339 | the organism loop computes the eating specification over organisms and cells, in order |
| Systems.EatStepOutcome | src/organisms/systems.rs:294-336 | one step changes no other organism, and changes organism i only if it is Eating, and then only its current energy, which ends at most max; cells change only in their densities, and non-negative densities stay non-negative |
| Systems.EatingOutcome | src/organisms/systems.rs:294-338 | over the whole pass, organisms not in the Eating state are unchanged, an organism changes only in current energy, which ends at most max; cells change only in densities, and non-negative densities stay non-negative |
| Systems.UpdateAge | src/organisms/systems.rs:342-349 | every organism is aged by one tick, with its cooldown decremented |
| Systems.AgingOutcome | src/organisms/systems.rs:345-348 | ageing adds one tick, lowers a positive cooldown by one (0 stays 0) and changes nothing else |
| Systems.MateGenome | src/organisms/systems.rs:398-412 | a mate genome exists exactly when some other organism of the same species lies within the sensory range, and it is the genome of the first such organism in the snapshot |
| Systems.FindMate | src/organisms/systems.rs:396-412 | the search loop returns the mate genome |
| Systems.DecideOffspring | src/organisms/systems.rs:375-421 | one organism's decision against the snapshot: mutation or crossover if it can reproduce and the draws allow, nothing otherwise |
| Systems.Decisions | src/organisms/systems.rs:374-424 | every decision is made against the unchanged snapshot, one per organism |
| Systems.Births | src/organisms/systems.rs:374-424 | birth events refer to valid parents, in strictly increasing order, so no parent appears twice |
| Systems.CollectBirths | src/organisms/systems.rs:372-424 | the decision loop produces exactly the birth events of the snapshot's decisions |
| Systems.CooldownTicks | src/organisms/systems.rs:434 | the parent's new cooldown, the truncated expressed cooldown, lies in [500, 2000] |
| Systems.SpawnOffspring | src/organisms/systems.rs:430-454 | builds the child for one birth event |
| Systems.ChildOutcome | src/organisms/systems.rs:441-454 | the child inherits species and type, has zero velocity, age 0, a running cooldown and the default behaviour, and has `current == max ==` half its expressed max energy, so in [15, 75] |
| Systems.OffspringGenesInRange | src/organisms/systems.rs:414-421 | when every gene of the parent lies in [0, 1], so does every gene of its offspring, whether crossed over or a mutated copy |
| Systems.ApplyBirths | src/organisms/systems.rs:427-464 | birth events are applied in order: each parent is updated and one child per event is produced |
| Systems.HandleReproduction | src/organisms/systems.rs:352-465 | the offspring list has one child per birth event, in parent order; every organism becomes its after-reproduction state |
| Systems.ReproductionOutcome | src/organisms/systems.rs:375-460 | only a ready organism with ratio ≥ threshold and a successful draw reproduces; it keeps 0.7 of its energy, its maximum is unchanged and its cooldown is reset to at least 500 ticks; nothing else changes, and an organism that does not reproduce is unchanged |
| Systems.OneOffspringPerParent | src/organisms/systems.rs:372-427 | an organism has a birth event exactly when its decision produced a genome, and then exactly one |
| Systems.HandleDeath | src/organisms/systems.rs:468-483 | the loop returns the survivors and the removed entities |
| Systems.DeathOutcome | src/organisms/systems.rs:473-481 | survivors are exactly the organisms with energy > 0; removed entities are exactly those with energy ≤ 0; together they account for everyone |
| Speciation.Matching | src/organisms/speciation.rs:46-51 | the matching ids are exactly the centroids closer than the threshold |
| Speciation.AssignedGrowth | src/organisms/speciation.rs:44-58 | the returned id is a species afterwards, no species disappears, and the count grows by at most one; an overwrite leaves the count unchanged |
| Speciation.FoundedSpeciesMatches | src/organisms/speciation.rs:54-57 | a newly founded species matches its founder genome |
| Speciation.CreateCanOverwrite | src/organisms/speciation.rs:54-56 | the new-id insert can replace an existing centroid whose id equals the next id |
| Speciation.SpeciesTracker.constructor | src/organisms/speciation.rs:23-32 | a new tracker has no centroids, counters at 0 and the default threshold |
| Speciation.SpeciesTracker.WithThreshold | src/organisms/speciation.rs:36-41 | as the default tracker, but with the given threshold |
| Speciation.SpeciesTracker.FindOrCreateSpecies | src/organisms/speciation.rs:44-58 | with a match, returns some matching id (any, since map order is unspecified) and changes nothing; otherwise returns the old next id, increments it and stores the genome as that id's centroid |
| Speciation.GroupBySpecies | src/organisms/speciation.rs:66-73 | the groups are keyed by exactly the species present, each holding its members' genomes in order |
| Speciation.SpeciesOfSpec | src/organisms/speciation.rs:66-73 | a species is present exactly when some organism carries it |
| Speciation.Members | src/organisms/speciation.rs:66-73 | a species' member list is non-empty exactly when the species is present |
| Speciation.MembersSound | src/organisms/speciation.rs:66-73 | every member genome belongs to an organism of that species |
| Speciation.AddGenes | src/organisms/speciation.rs:87-91 | accumulating a genome adds each of its genes to the running sums, with a missing gene counting 0 |
| Speciation.AverageGenome | src/organisms/speciation.rs:81-98 | the averaging loop computes the centroid specification |
| Speciation.Centroid | src/organisms/speciation.rs:82-98 | a centroid has 32 genes, each `clamp((0.5 + Σ gᵢ) / n, 0, 1)`, so in [0, 1] |
| Speciation.SingleMemberCentroid | src/organisms/speciation.rs:82-98 | the centroid of one genome is `clamp(0.5 + g, 0, 1)`, so gene values of 0.5 or more saturate at 1 |
| Speciation.CentroidBias | src/organisms/speciation.rs:82-98 | because of the 0.5 starting value, every centroid gene is at least `0.5 / n` |
| Speciation.GeneSumBounds | src/organisms/speciation.rs:87-91 | for genes in [0, 1], the gene sum over n members lies in [0, n] |
| Speciation.SpeciesTracker.UpdateCentroids | src/organisms/speciation.rs:61-102 | the centroids become the updated-centroid specification, with counters and threshold unchanged |
| Speciation.UpdatedCentroidsFrame | src/organisms/speciation.rs:76-101 | only the centroids of present species change, each to its members' centroid; the others keep their value |
| Speciation.SpeciesTracker.SpeciesCount | src/organisms/speciation.rs:105-107 | the count is the number of centroid ids |
| Speciation.SpeciesTracker.AllSpecies | src/organisms/speciation.rs:115-117 | returns exactly the centroid ids, as many as the species count |
| Speciation.SpeciesTracker.CleanupExtinct | src/organisms/speciation.rs:110-112 | exactly the old ids that are also active remain, with their centroids unchanged |
| Speciation.SpeciesTracker.Reassign | src/organisms/speciation.rs:145-153 | the organisms are visited in order and organism j gets exactly the id one `find_or_create_species` call returns for its genome from the tracker state the previous calls left (`ReassignedBy`); only its species changes, which is known afterwards; no species disappears and at most one is founded per organism |
| Speciation.SpeciesTracker.UpdateSpeciation | src/organisms/speciation.rs:121-164 | the counter grows by one per call; a tuning value replaces the threshold; centroids are recomputed only at multiples of 100; at multiples of 500 the reassignment pass (`ReassignedBy`) starts from the recomputed centroids and ends in the new state |
| Speciation.ReassignedGrowth | src/organisms/speciation.rs:145-153 | over the first n calls of a pass no species disappears, at most n are added, the id counter grows by at most n, and every id handed out is still a species |
| EcosystemStatistics.EcosystemStats.constructor | src/organisms/ecosystem_stats.rs:6-18 | a fresh tracker has zero counters and empty maps |
| EcosystemStatistics.EcosystemStats.Reset | src/organisms/ecosystem_stats.rs:30-35 | the population total becomes 0 and all three maps are cleared; the tick counter is kept |
| EcosystemStatistics.EcosystemStats.Collect | src/organisms/ecosystem_stats.rs:39-119 | the tick counter grows by one per call; off multiples of 100 nothing else changes; on them the statistics are rebuilt from the organisms and are mutually consistent |
| EcosystemStatistics.EcosystemStats.Rebuild | src/organisms/ecosystem_stats.rs:60-97 | the statistics are the counts and averages of the organisms, and the totals agree with them |
| EcosystemStatistics.EcosystemStats.Tally | src/organisms/ecosystem_stats.rs:64-81 | one organism adds 1 to the total, to its type and to its species, and adds its traits to its species' sums |
| EcosystemStatistics.EcosystemStats.FillAverages | src/organisms/ecosystem_stats.rs:84-97 | each species with members gets its averages, and no other species gets an entry |
| EcosystemStatistics.PopCount | src/organisms/ecosystem_stats.rs:72 | a species' count is positive exactly when it is present, and at most the population |
| EcosystemStatistics.TypeCount | src/organisms/ecosystem_stats.rs:68 | a type's count is positive exactly when it is present, and at most the population |
| EcosystemStatistics.SpeciesPopulationStep | src/organisms/ecosystem_stats.rs:72 | one more organism adds exactly 1 to its own species' count |
| EcosystemStatistics.TypePopulationStep | src/organisms/ecosystem_stats.rs:68 | one more organism adds exactly 1 to its own type's count |
| EcosystemStatistics.SpeciesSumsStep | src/organisms/ecosystem_stats.rs:75-80 | one more organism adds its traits to its own species' sums only |
| EcosystemStatistics.PopulationTotals | src/organisms/ecosystem_stats.rs:64-81 | the species counts and the type counts each add up to the population |
| EcosystemStatistics.Averaged | src/organisms/ecosystem_stats.rs:86-94 | each average times the count is the sum, and the count is carried over |
| EcosystemStatistics.AverageWithin | src/organisms/ecosystem_stats.rs:84-95 | if every member's trait lies in [lo, hi], the species average does too |
| EcosystemStatistics.AverageTraitsInRange | src/organisms/ecosystem_stats.rs:84-95 | every species' average speed lies in [0.5, 20] and its average sensory range in [5, 50] |
| Tuning.Default | src/organisms/tuning.rs:43-83 | the default has speciation threshold 0.15, consumption base 5 and conversion efficiency 0.3, with minimum cooldown below maximum |
| Tuning.Balanced | src/organisms/tuning.rs:87-89 | the balanced preset differs from the default in no field |
| Tuning.BalancedIsDefault | src/organisms/tuning.rs:87-89 | the balanced preset is the default |
| Tuning.FastEvolution | src/organisms/tuning.rs:92-99 | more reproduction, shorter cooldowns, faster plant growth, minimum cooldown below maximum |
| Tuning.FastEvolutionChanges | src/organisms/tuning.rs:92-99 | the preset differs from the default in exactly four fields |
| Tuning.Stable | src/organisms/tuning.rs:102-110 | less reproduction, longer cooldowns, faster plant and water growth, minimum cooldown below maximum |
| Tuning.StableChanges | src/organisms/tuning.rs:102-110 | the preset differs from the default in exactly five fields |
| Tuning.Competitive | src/organisms/tuning.rs:113-120 | slower plant and water growth, faster plant decay, a higher consumption base, minimum cooldown below maximum |
| Tuning.CompetitiveChanges | src/organisms/tuning.rs:113-120 | the preset differs from the default in exactly four fields |

## Left out

- Logging and file I/O: `TrackedOrganism`, `log_tracked_organism`, the CSV output and every `info!` call. They have no effect on simulation state.
- `spawn_initial_organisms` and `Genome::random`: random initial placement and genomes drawn from the thread RNG.
- `world/terrain.rs`, `main.rs` and `organisms/mod.rs`: procedural terrain generation, window and camera setup, and plugin and scheduler wiring. The systems are modelled one by one.
- Random draws: `gen_bool`, `gen`, the Box–Muller noise, the `fastrand` drift and the spawn offsets are parameters of the operations that use them.
- Transcendental functions: the seasonal `sin`, the `from_angle` wander heading and `normalize_or_zero` are parameters. Only bounded unit headings are assumed where a lemma needs them.
- Square roots: Euclidean distances are compared as squares, and the velocity length used by metabolism is a parameter.
- Genetics.Distance: returns the mean squared difference, not its square root. Speciation compares it with the square of the threshold, which is equivalent for a positive threshold.
- IEEE `f32` behaviour: rounding is not modelled. The NaN that `distance` produces for an empty genome is an explicit "no value".
- Integer width: `u32` and `u64` overflow of `next_species_id`, `update_counter`, `tick_counter`, ages and populations is not modelled; counters are unbounded.
- `WorldGrid` is not part of this model. Sensing takes a cell lookup by world position, and eating takes a lookup from position to cell index, both as parameters.
- `express_aggression`, `express_boldness` and `CachedTraits` are not part of this model. Aggression and boldness are parameters. The statistics take speed and sensory range from the genome's expressed traits.
- `SpatialHashTracker`, `SpatialHashGrid` and `SensoryDataCache` are not part of this model; sensing scans all other organisms.
- HashMap iteration order: which of several matching species is chosen, and the order of centroid and statistics loops, are modelled as nondeterministic.
- Bevy ECS: `Query`, `Commands`, `Entity` and `despawn` become arrays of organism records with numeric entity ids. Spawned children and despawned entities are returned as sequences.
- `update_chunks` (`world/mod.rs:64-84`): it calls `update_cell_climate` with three arguments, but `climate.rs` defines it with two. The model has the two-argument per-cell update, `UpdateCellClimate`, and not the chunk loop.
- `update_climate` (`world/mod.rs:58-60`) only forwards to `ClimateState::update`, which is modelled.
- `Chunk::get_dirty_cells`, `Chunk::cells`, `Cell::get_resource`, `Energy::is_dead` and `ReproductionCooldown::is_ready` are read directly as fields or predicates. They carry no contract of their own.
- Tuning presets are records only. As in the source, only the speciation threshold of a preset is wired into the simulation.
