/** Ecosystem statistics: every 100 ticks, a counting pass over the live
    organisms fills the population totals by type and by species and the per-species
    trait averages. The speed and sensory range of an organism are its cached
    traits, which are the expressed values of its genome. */
module EcosystemStatistics {
  import opened Util
  import opened Components
  import opened Genetics
  import opened Systems
  import opened Speciation

  /** Statistics are collected every this many ticks. */
  const CollectPeriod: nat := 100

  datatype SpeciesTraits = SpeciesTraits(
    avgSize: real, avgEnergy: real, avgSpeed: real, avgSensoryRange: real, count: nat)

  /** The running sums kept per species during a collection. */
  datatype TraitSums = TraitSums(size: real, energy: real, speed: real, sensoryRange: real, count: nat)

  const NoSums: TraitSums := TraitSums(0.0, 0.0, 0.0, 0.0, 0)

  // ---------------------------------------------------------------------------
  // Specification functions

  function SizeOf(o: Organism): real { o.size }
  function EnergyOf(o: Organism): real { o.energy.current }
  function SpeedOf(o: Organism): real { ExpressSpeed(o.genome) }
  function SensoryRangeOf(o: Organism): real { ExpressSensoryRange(o.genome) }

  /** The organism types occurring among the organisms. */
  function TypesOf(os: seq<Organism>): set<OrganismType>
  {
    if |os| == 0 then {} else TypesOf(os[..|os| - 1]) + {os[|os| - 1].kind}
  }

  /** The number of organisms of species s; positive exactly when s occurs. */
  function PopCount(os: seq<Organism>, s: nat): (n: nat)
    ensures n > 0 <==> s in SpeciesOf(os)
    ensures n <= |os|
  {
    if |os| == 0 then 0
    else PopCount(os[..|os| - 1], s) + (if os[|os| - 1].species == s then 1 else 0)
  }

  /** The number of organisms of type t; positive exactly when t occurs. */
  function TypeCount(os: seq<Organism>, t: OrganismType): (n: nat)
    ensures n > 0 <==> t in TypesOf(os)
    ensures n <= |os|
  {
    if |os| == 0 then 0
    else TypeCount(os[..|os| - 1], t) + (if os[|os| - 1].kind == t then 1 else 0)
  }

  /** The sum of f over the organisms of species s. */
  function StatSum(os: seq<Organism>, s: nat, f: Organism -> real): real
  {
    if |os| == 0 then 0.0
    else StatSum(os[..|os| - 1], s, f) + (if os[|os| - 1].species == s then f(os[|os| - 1]) else 0.0)
  }

  function Sums(os: seq<Organism>, s: nat): TraitSums
  {
    TraitSums(StatSum(os, s, SizeOf), StatSum(os, s, EnergyOf), StatSum(os, s, SpeedOf),
              StatSum(os, s, SensoryRangeOf), PopCount(os, s))
  }

  /** The population of each species that occurs. */
  function SpeciesPopulation(os: seq<Organism>): map<nat, nat>
  {
    map s | s in SpeciesOf(os) :: PopCount(os, s)
  }

  /** The population of each type that occurs. */
  function TypePopulation(os: seq<Organism>): map<OrganismType, nat>
  {
    map t | t in TypesOf(os) :: TypeCount(os, t)
  }

  function SpeciesSums(os: seq<Organism>): map<nat, TraitSums>
  {
    map s | s in SpeciesOf(os) :: Sums(os, s)
  }

  /** Each sum divided by the count. */
  function Averaged(t: TraitSums): (a: SpeciesTraits)
    requires t.count > 0
    ensures a.count == t.count
    ensures a.avgSize * t.count as real == t.size
    ensures a.avgEnergy * t.count as real == t.energy
    ensures a.avgSpeed * t.count as real == t.speed
    ensures a.avgSensoryRange * t.count as real == t.sensoryRange
  {
    var n := t.count as real;
    SpeciesTraits(t.size / n, t.energy / n, t.speed / n, t.sensoryRange / n, t.count)
  }

  /** The averages of each species that occurs. */
  function SpeciesAverages(os: seq<Organism>): map<nat, SpeciesTraits>
  {
    map s | s in SpeciesOf(os) :: Averaged(Sums(os, s))
  }

  /** The running sums after one more organism of their species. */
  function AddTo(t: TraitSums, o: Organism): TraitSums
  {
    TraitSums(t.size + SizeOf(o), t.energy + EnergyOf(o), t.speed + SpeedOf(o),
              t.sensoryRange + SensoryRangeOf(o), t.count + 1)
  }

  // ---------------------------------------------------------------------------
  // Lemmas

  /** One more organism bumps its species' count; nothing else changes. */
  lemma {:induction false} SpeciesPopulationStep(os: seq<Organism>, j: nat)
    requires j < |os|
    ensures SpeciesPopulation(os[..j + 1]) == Bump(SpeciesPopulation(os[..j]), os[j].species)
  {
    var init, o := os[..j], os[j];
    assert os[..j + 1][..j] == init;
    var a, b := SpeciesPopulation(os[..j + 1]), Bump(SpeciesPopulation(init), o.species);
    assert a.Keys == b.Keys;
    forall s | s in a
      ensures a[s] == b[s]
    {
      if s !in SpeciesOf(init) {
        assert PopCount(init, s) == 0;
      }
    }
  }

  /** One more organism bumps its type's count; nothing else changes. */
  lemma {:induction false} TypePopulationStep(os: seq<Organism>, j: nat)
    requires j < |os|
    ensures TypePopulation(os[..j + 1]) == Bump(TypePopulation(os[..j]), os[j].kind)
  {
    var init, o := os[..j], os[j];
    assert os[..j + 1][..j] == init;
    var a, b := TypePopulation(os[..j + 1]), Bump(TypePopulation(init), o.kind);
    assert a.Keys == b.Keys;
    forall t | t in a
      ensures a[t] == b[t]
    {
      if t !in TypesOf(init) {
        assert TypeCount(init, t) == 0;
      }
    }
  }

  /** One more organism is added to its species' sums, which start at zero. */
  lemma {:induction false} SpeciesSumsStep(os: seq<Organism>, j: nat)
    requires j < |os|
    ensures var init, o := os[..j], os[j];
      SpeciesSums(os[..j + 1]) == SpeciesSums(init)[o.species :=
        AddTo(if o.species in SpeciesSums(init) then SpeciesSums(init)[o.species] else NoSums, o)]
  {
    var init, o := os[..j], os[j];
    assert os[..j + 1][..j] == init;
    var a := SpeciesSums(os[..j + 1]);
    var b := SpeciesSums(init)[o.species :=
        AddTo(if o.species in SpeciesSums(init) then SpeciesSums(init)[o.species] else NoSums, o)];
    assert a.Keys == b.Keys;
    forall s | s in a
      ensures a[s] == b[s]
    {
      if s == o.species && s !in SpeciesOf(init) {
        StatSumAbsent(init, s, SizeOf);
        StatSumAbsent(init, s, EnergyOf);
        StatSumAbsent(init, s, SpeedOf);
        StatSumAbsent(init, s, SensoryRangeOf);
        assert Sums(init, s) == NoSums;
      }
    }
  }

  /** A species that does not occur has every sum zero. */
  lemma {:induction false} StatSumAbsent(os: seq<Organism>, s: nat, f: Organism -> real)
    requires s !in SpeciesOf(os)
    ensures StatSum(os, s, f) == 0.0
  {
    if |os| > 0 {
      StatSumAbsent(os[..|os| - 1], s, f);
    }
  }

  /** The population by species adds up to the number of organisms counted. */
  lemma {:induction false} SpeciesPrefixTotal(os: seq<Organism>, j: nat)
    requires j <= |os|
    ensures MapTotal(SpeciesPopulation(os[..j])) == j
    decreases j
  {
    if j == 0 {
      assert SpeciesPopulation(os[..0]) == map[];
    } else {
      SpeciesPrefixTotal(os, j - 1);
      SpeciesPopulationStep(os, j - 1);
      MapTotalIncrement(SpeciesPopulation(os[..j - 1]), os[j - 1].species);
    }
  }

  /** The population by type adds up to the number of organisms counted. */
  lemma {:induction false} TypePrefixTotal(os: seq<Organism>, j: nat)
    requires j <= |os|
    ensures MapTotal(TypePopulation(os[..j])) == j
    decreases j
  {
    if j == 0 {
      assert TypePopulation(os[..0]) == map[];
    } else {
      TypePrefixTotal(os, j - 1);
      TypePopulationStep(os, j - 1);
      MapTotalIncrement(TypePopulation(os[..j - 1]), os[j - 1].kind);
    }
  }

  /** The population by species and the population by type both add up to the
      number of organisms. */
  lemma {:induction false} PopulationTotals(os: seq<Organism>)
    ensures MapTotal(SpeciesPopulation(os)) == |os|
    ensures MapTotal(TypePopulation(os)) == |os|
  {
    SpeciesPrefixTotal(os, |os|);
    TypePrefixTotal(os, |os|);
    assert os[..|os|] == os;
  }

  /** x added to itself n times. */
  function Repeat(x: real, n: nat): real
  {
    if n == 0 then 0.0 else Repeat(x, n - 1) + x
  }

  lemma {:induction false} RepeatIsProduct(x: real, n: nat)
    ensures Repeat(x, n) == x * n as real
  {
    if n > 0 {
      RepeatIsProduct(x, n - 1);
      assert x * n as real == x * (n - 1) as real + x;
    }
  }

  /** When f lies in [lo, hi] on every organism of species s, the sum lies
      between n copies of lo and n copies of hi, for the species' count n. */
  lemma {:induction false} StatSumBounds(os: seq<Organism>, s: nat, f: Organism -> real, lo: real, hi: real)
    requires forall j :: 0 <= j < |os| && os[j].species == s ==> lo <= f(os[j]) <= hi
    ensures Repeat(lo, PopCount(os, s)) <= StatSum(os, s, f) <= Repeat(hi, PopCount(os, s))
  {
    if |os| > 0 {
      var init := os[..|os| - 1];
      assert forall j :: 0 <= j < |init| ==> init[j] == os[j];
      StatSumBounds(init, s, f, lo, hi);
    }
  }

  /** A species average lies within any bounds that hold for all its members: in
      particular the average of equal values is that value. */
  lemma {:induction false} AverageWithin(os: seq<Organism>, s: nat, f: Organism -> real, lo: real, hi: real)
    requires s in SpeciesOf(os)
    requires forall j :: 0 <= j < |os| && os[j].species == s ==> lo <= f(os[j]) <= hi
    ensures lo <= StatSum(os, s, f) / PopCount(os, s) as real <= hi
  {
    StatSumBounds(os, s, f, lo, hi);
    DivideBounds(StatSum(os, s, f), PopCount(os, s), lo, hi);
  }

  /** Every species' average speed and sensory range lie within the ranges of the
      expressed traits they average. */
  lemma {:induction false} AverageTraitsInRange(os: seq<Organism>, s: nat)
    requires s in SpeciesOf(os)
    ensures 0.5 <= SpeciesAverages(os)[s].avgSpeed <= 20.0
    ensures 5.0 <= SpeciesAverages(os)[s].avgSensoryRange <= 50.0
  {
    AverageWithin(os, s, SpeedOf, 0.5, 20.0);
    AverageWithin(os, s, SensoryRangeOf, 5.0, 50.0);
  }

  lemma DivideBounds(sum: real, n: nat, lo: real, hi: real)
    requires n > 0 && Repeat(lo, n) <= sum <= Repeat(hi, n)
    ensures lo <= sum / n as real <= hi
  {
    RepeatIsProduct(lo, n);
    RepeatIsProduct(hi, n);
    QuotientBounds(sum, n as real, lo, hi);
  }

  lemma QuotientBounds(sum: real, m: real, lo: real, hi: real)
    requires m > 0.0 && lo * m <= sum <= hi * m
    ensures lo <= sum / m <= hi
  {
    var a := sum / m;
    assert a * m == sum;
    assert (a - lo) * m == sum - lo * m;
    assert (hi - a) * m == hi * m - sum;
  }

  // ---------------------------------------------------------------------------
  // The statistics resource

  class EcosystemStats {
    var totalPopulation: nat
    var populationByType: map<OrganismType, nat>
    var populationBySpecies: map<nat, nat>
    var speciesTraits: map<nat, SpeciesTraits>
    var tickCounter: nat

    /** `EcosystemStats::default`. */
    constructor ()
      ensures totalPopulation == 0 && tickCounter == 0
      ensures populationByType == map[] && populationBySpecies == map[] && speciesTraits == map[]
    {
      totalPopulation := 0;
      populationByType := map[];
      populationBySpecies := map[];
      speciesTraits := map[];
      tickCounter := 0;
    }

    /** The tallies after counting the organisms `os`, with `sums` the running
        per-species sums. */
    ghost predicate Tallied(os: seq<Organism>, sums: map<nat, TraitSums>)
      reads this
    {
      totalPopulation == |os| &&
      populationByType == TypePopulation(os) &&
      populationBySpecies == SpeciesPopulation(os) &&
      sums == SpeciesSums(os)
    }

    /** The state after a collection over `os`. */
    ghost predicate Collected(os: seq<Organism>)
      reads this
    {
      totalPopulation == |os| &&
      populationByType == TypePopulation(os) &&
      populationBySpecies == SpeciesPopulation(os) &&
      speciesTraits == SpeciesAverages(os)
    }

    /** `reset`: zeroes the totals and leaves the tick counter alone. */
    method Reset()
      modifies this
      ensures totalPopulation == 0
      ensures populationByType == map[] && populationBySpecies == map[] && speciesTraits == map[]
      ensures tickCounter == old(tickCounter)
    {
      totalPopulation := 0;
      populationByType := map[];
      populationBySpecies := map[];
      speciesTraits := map[];
    }

    /** `collect_ecosystem_stats` over the live organisms `os`: every call counts a
        tick; on every 100th the statistics are rebuilt from scratch. The totals
        agree: both populations add up to the total, and each species' trait count
        is its population. */
    method Collect(os: seq<Organism>)
      modifies this
      ensures tickCounter == old(tickCounter) + 1
      ensures tickCounter % CollectPeriod != 0 ==>
        totalPopulation == old(totalPopulation) && populationByType == old(populationByType) &&
        populationBySpecies == old(populationBySpecies) && speciesTraits == old(speciesTraits)
      ensures tickCounter % CollectPeriod == 0 ==> Collected(os) && Consistent()
    {
      tickCounter := tickCounter + 1;
      if tickCounter % CollectPeriod != 0 {
        return;
      }
      Rebuild(os);
    }

    /** The totals agree: both populations add up to the total, and each species'
        trait count is its population. */
    ghost predicate Consistent()
      reads this
    {
      MapTotal(populationBySpecies) == totalPopulation &&
      MapTotal(populationByType) == totalPopulation &&
      speciesTraits.Keys == populationBySpecies.Keys &&
      forall s :: s in speciesTraits ==> speciesTraits[s].count == populationBySpecies[s] > 0
    }

    /** The collection proper: reset, the counting loop, then the averages. */
    method Rebuild(os: seq<Organism>)
      modifies this
      ensures Collected(os) && Consistent()
      ensures tickCounter == old(tickCounter)
    {
      Reset();
      var sums: map<nat, TraitSums> := map[];
      assert os[..0] == [];
      for j := 0 to |os|
        invariant tickCounter == old(tickCounter)
        invariant speciesTraits == map[]
        invariant Tallied(os[..j], sums)
      {
        sums := Tally(os, j, sums);
      }
      assert os[..|os|] == os;
      FillAverages(os, sums);
      PopulationTotals(os);
    }

    /** The body of the counting loop for the organism at j. */
    method Tally(os: seq<Organism>, j: nat, sums: map<nat, TraitSums>) returns (sums': map<nat, TraitSums>)
      requires j < |os| && Tallied(os[..j], sums)
      modifies this
      ensures Tallied(os[..j + 1], sums')
      ensures tickCounter == old(tickCounter) && speciesTraits == old(speciesTraits)
    {
      var o := os[j];
      totalPopulation := totalPopulation + 1;
      populationByType := Bump(populationByType, o.kind);
      populationBySpecies := Bump(populationBySpecies, o.species);
      var entry := if o.species in sums then sums[o.species] else NoSums;
      sums' := sums[o.species := AddTo(entry, o)];
      SpeciesPopulationStep(os, j);
      TypePopulationStep(os, j);
      SpeciesSumsStep(os, j);
    }

    /** The averaging loop: one entry per species with a positive count. */
    method FillAverages(os: seq<Organism>, sums: map<nat, TraitSums>)
      requires Tallied(os, sums) && speciesTraits == map[]
      modifies this
      ensures Collected(os)
      ensures tickCounter == old(tickCounter)
    {
      var pending := sums.Keys;
      while pending != {}
        invariant pending <= sums.Keys
        invariant Tallied(os, sums) && tickCounter == old(tickCounter)
        invariant speciesTraits == map s | s in sums.Keys - pending :: Averaged(sums[s])
        decreases pending
      {
        var s :| s in pending;
        var t := sums[s];
        if t.count > 0 {
          var n := t.count as real;
          speciesTraits := speciesTraits[s := SpeciesTraits(t.size / n, t.energy / n, t.speed / n, t.sensoryRange / n, t.count)];
        }
        pending := pending - {s};
      }
    }
  }
}
