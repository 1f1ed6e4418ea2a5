/** The genome: a vector of genes in [0, 1], with padding construction, clamped
    access, mutation, uniform crossover, genetic distance and the linear
    expression of genes into trait values. Random draws are parameters: one
    coin per gene for "mutate", one standard normal sample per gene for the
    Box-Muller noise, one coin per gene for "take parent A". */
module Genetics {
  import opened Util

  /** GENOME_SIZE. */
  const GenomeSize: nat := 32

  /** DEFAULT_MUTATION_RATE. */
  const DefaultMutationRate: real := 0.01

  /** Standard deviation of a mutation step. */
  const MutationScale: real := 0.1

  datatype Genome = Genome(genes: seq<real>)
  {
    /** Gene `index` clamped to [0, 1]; 0.5 beyond the end. */
    function GetGene(index: nat): (g: real)
      ensures 0.0 <= g <= 1.0
      ensures index >= |genes| ==> g == 0.5
      ensures index < |genes| ==> g == Clamp(genes[index], 0.0, 1.0)
    {
      if index < |genes| then Clamp(genes[index], 0.0, 1.0) else 0.5
    }

    /** Writes the clamped value at `index`; does nothing beyond the end. */
    function SetGene(index: nat, value: real): (r: Genome)
      ensures |r.genes| == |genes|
      ensures index < |genes| ==> r.genes[index] == Clamp(value, 0.0, 1.0)
      ensures forall j :: 0 <= j < |genes| && j != index ==> r.genes[j] == genes[j]
      ensures index >= |genes| ==> r == this
    {
      if index < |genes| then Genome(genes[index := Clamp(value, 0.0, 1.0)]) else this
    }
  }

  /** `Genome::new`: the first 32 inputs clamped, then 0.5 up to 32 genes. */
  method NewGenome(input: seq<real>) returns (g: Genome)
    ensures |g.genes| == GenomeSize
    ensures forall i :: 0 <= i < GenomeSize && i < |input| ==> g.genes[i] == Clamp(input[i], 0.0, 1.0)
    ensures forall i :: |input| <= i < GenomeSize ==> g.genes[i] == 0.5
  {
    var genes: seq<real> := [];
    var n := MinNat(|input|, GenomeSize);
    for i := 0 to n
      invariant |genes| == i
      invariant forall j :: 0 <= j < i ==> genes[j] == Clamp(input[j], 0.0, 1.0)
    {
      genes := genes + [Clamp(input[i], 0.0, 1.0)];
    }
    while |genes| < GenomeSize
      invariant n <= |genes| <= GenomeSize
      invariant forall j :: 0 <= j < n ==> genes[j] == Clamp(input[j], 0.0, 1.0)
      invariant forall j :: n <= j < |genes| ==> genes[j] == 0.5
      decreases GenomeSize - |genes|
    {
      genes := genes + [0.5];
    }
    g := Genome(genes);
  }

  /** One gene after the mutation step: moved by 0.1 * noise and clamped when the coin
      says so, otherwise kept exactly, unclamped. */
  function MutatedGene(gene: real, mutate: bool, noise: real): (r: real)
    ensures mutate ==> 0.0 <= r <= 1.0
    ensures !mutate ==> r == gene
  {
    if mutate then Clamp(gene + noise * MutationScale, 0.0, 1.0) else gene
  }

  /** The genome `clone_with_mutation` builds from the given draws. */
  function Mutated(g: Genome, mutate: nat -> bool, noise: nat -> real): (r: Genome)
    ensures |r.genes| == |g.genes|
    ensures forall i :: 0 <= i < |g.genes| && !mutate(i) ==> r.genes[i] == g.genes[i]
    ensures forall i :: 0 <= i < |g.genes| && mutate(i) ==> 0.0 <= r.genes[i] <= 1.0
  {
    Genome(seq(|g.genes|, i requires 0 <= i < |g.genes| => MutatedGene(g.genes[i], mutate(i), noise(i))))
  }

  /** `clone_with_mutation`: one pass over the parent's genes. */
  method CloneWithMutation(g: Genome, mutate: nat -> bool, noise: nat -> real) returns (r: Genome)
    ensures r == Mutated(g, mutate, noise)
  {
    var genes: seq<real> := [];
    for i := 0 to |g.genes|
      invariant |genes| == i
      invariant forall j :: 0 <= j < i ==> genes[j] == MutatedGene(g.genes[j], mutate(j), noise(j))
    {
      var newGene := g.genes[i];
      if mutate(i) {
        var mutation := noise(i) * MutationScale;
        newGene := Clamp(newGene + mutation, 0.0, 1.0);
      }
      genes := genes + [newGene];
    }
    r := Genome(genes);
  }

  /** The genome `crossover` builds from the given draws. */
  function Crossed(a: Genome, b: Genome, pickA: nat -> bool, mutate: nat -> bool, noise: nat -> real): (r: Genome)
    ensures |r.genes| == GenomeSize
    ensures forall i :: 0 <= i < GenomeSize ==> 0.0 <= r.genes[i] <= 1.0
    ensures forall i :: 0 <= i < GenomeSize && !mutate(i) ==>
      r.genes[i] == (if pickA(i) then a.GetGene(i) else b.GetGene(i))
  {
    var genes := seq(GenomeSize, i requires 0 <= i < GenomeSize =>
      MutatedGene(if pickA(i) then a.GetGene(i) else b.GetGene(i), mutate(i), noise(i)));
    assert forall i :: 0 <= i < GenomeSize ==> 0.0 <= genes[i] <= 1.0 by {
      forall i | 0 <= i < GenomeSize
        ensures 0.0 <= genes[i] <= 1.0
      {
        var parent := if pickA(i) then a.GetGene(i) else b.GetGene(i);
        assert genes[i] == MutatedGene(parent, mutate(i), noise(i));
      }
    }
    Genome(genes)
  }

  /** `crossover`: 32 genes, each taken from one parent and possibly mutated. */
  method Crossover(a: Genome, b: Genome, pickA: nat -> bool, mutate: nat -> bool, noise: nat -> real) returns (r: Genome)
    ensures r == Crossed(a, b, pickA, mutate, noise)
  {
    var genes: seq<real> := [];
    for i := 0 to GenomeSize
      invariant |genes| == i
      invariant forall j :: 0 <= j < i ==> genes[j] == MutatedGene(if pickA(j) then a.GetGene(j) else b.GetGene(j), mutate(j), noise(j))
    {
      var geneA := a.GetGene(i);
      var geneB := b.GetGene(i);
      var newGene := if pickA(i) then geneA else geneB;
      if mutate(i) {
        var mutation := noise(i) * MutationScale;
        newGene := Clamp(newGene + mutation, 0.0, 1.0);
      }
      genes := genes + [newGene];
    }
    r := Genome(genes);
  }

  /** Without mutation, cloning is the identity, and crossing a genome with itself
      gives its first 32 genes (clamped, padded with 0.5). */
  lemma NoMutationPreservesGenome(g: Genome, pickA: nat -> bool, noise: nat -> real)
    ensures Mutated(g, _ => false, noise) == g
    ensures forall i :: 0 <= i < GenomeSize ==> Crossed(g, g, pickA, _ => false, noise).genes[i] == g.GetGene(i)
  {
    assert Mutated(g, _ => false, noise).genes == g.genes;
  }

  // ---------------------------------------------------------------------------
  // Distance

  /** The sum of squared differences of the first n genes. */
  function SquaredDiffSum(a: seq<real>, b: seq<real>, n: nat): real
    requires n <= |a| && n <= |b|
  {
    if n == 0 then 0.0
    else SquaredDiffSum(a, b, n - 1) + Abs(a[n - 1] - b[n - 1]) * Abs(a[n - 1] - b[n - 1])
  }

  /** The square of `distance`: the mean squared difference over the shorter
      genome. With no common gene the source divides 0 by 0; here that is None. */
  function MeanSquaredDistance(a: Genome, b: Genome): Option<real>
  {
    var n := MinNat(|a.genes|, |b.genes|);
    if n == 0 then None else Some(SquaredDiffSum(a.genes, b.genes, n) / n as real)
  }

  /** `distance`, without the final square root. */
  method Distance(a: Genome, b: Genome) returns (d: Option<real>)
    ensures d == MeanSquaredDistance(a, b)
  {
    var sum := 0.0;
    var minLen := MinNat(|a.genes|, |b.genes|);
    for i := 0 to minLen
      invariant sum == SquaredDiffSum(a.genes, b.genes, i)
    {
      var diff := Abs(a.genes[i] - b.genes[i]);
      sum := sum + diff * diff;
    }
    if minLen == 0 {
      d := None;
    } else {
      d := Some(sum / minLen as real);
    }
  }

  lemma {:induction false} SquaredDiffSumSymmetric(a: seq<real>, b: seq<real>, n: nat)
    requires n <= |a| && n <= |b|
    ensures SquaredDiffSum(a, b, n) == SquaredDiffSum(b, a, n)
  {
    if n > 0 {
      SquaredDiffSumSymmetric(a, b, n - 1);
      assert Abs(a[n - 1] - b[n - 1]) == Abs(b[n - 1] - a[n - 1]);
    }
  }

  lemma {:induction false} SquaredDiffSumNonNegative(a: seq<real>, b: seq<real>, n: nat)
    requires n <= |a| && n <= |b|
    ensures SquaredDiffSum(a, b, n) >= 0.0
  {
    if n > 0 {
      SquaredDiffSumNonNegative(a, b, n - 1);
      var d := Abs(a[n - 1] - b[n - 1]);
      assert d * d >= 0.0;
    }
  }

  lemma {:induction false} SquaredDiffSumSelf(a: seq<real>, n: nat)
    requires n <= |a|
    ensures SquaredDiffSum(a, a, n) == 0.0
  {
    if n > 0 {
      SquaredDiffSumSelf(a, n - 1);
    }
  }

  /** Distance is symmetric, non-negative, and zero between a genome and itself;
      two genomes with a common gene always have a distance. */
  lemma DistanceIsPseudoMetric(a: Genome, b: Genome)
    ensures MeanSquaredDistance(a, b) == MeanSquaredDistance(b, a)
    ensures MeanSquaredDistance(a, b).Some? <==> |a.genes| > 0 && |b.genes| > 0
    ensures MeanSquaredDistance(a, b).Some? ==> MeanSquaredDistance(a, b).value >= 0.0
    ensures |a.genes| > 0 ==> MeanSquaredDistance(a, a) == Some(0.0)
  {
    var n := MinNat(|a.genes|, |b.genes|);
    SquaredDiffSumSymmetric(a.genes, b.genes, n);
    SquaredDiffSumNonNegative(a.genes, b.genes, n);
    SquaredDiffSumSelf(a.genes, |a.genes|);
    assert MinNat(|b.genes|, |a.genes|) == n;
  }

  /** `distance(a, b) < threshold`, decided on the squared distance; a missing
      distance (NaN in the source) is never below any threshold. */
  predicate Closer(a: Genome, b: Genome, threshold: real)
  {
    var d := MeanSquaredDistance(a, b);
    d.Some? && LessThan(d.value, threshold)
  }

  // ---------------------------------------------------------------------------
  // Trait expression

  const SpeedGene: nat := 0
  const SizeGene: nat := 1
  const MetabolismRateGene: nat := 2
  const MovementCostGene: nat := 3
  const MaxEnergyGene: nat := 4
  const ReproductionCooldownGene: nat := 5
  const ReproductionThresholdGene: nat := 6
  const SensoryRangeGene: nat := 7
  const AggressionGene: nat := 8
  const BoldnessGene: nat := 9

  /** Linear interpolation from min to max by the gene's value. */
  function ExpressTrait(g: Genome, index: nat, min: real, max: real): (r: real)
    ensures min <= max ==> min <= r <= max
    ensures g.GetGene(index) == 0.0 ==> r == min
    ensures g.GetGene(index) == 1.0 ==> r == max
    ensures index >= |g.genes| ==> r == (min + max) / 2.0
  {
    var v := g.GetGene(index);
    var r := min + v * (max - min);
    if min <= max then Interpolates(v, min, max, r); r else r
  }

  lemma Interpolates(v: real, min: real, max: real, r: real)
    requires 0.0 <= v <= 1.0 && min <= max && r == min + v * (max - min)
    ensures min <= r <= max
  {
    var k := max - min;
    MulNonNegative(v, k);
    MulNonNegative(1.0 - v, k);
    assert k - v * k == (1.0 - v) * k;
  }

  /** A larger gene value never expresses a smaller trait. */
  lemma ExpressTraitMonotone(g: Genome, h: Genome, index: nat, min: real, max: real)
    requires min <= max && g.GetGene(index) <= h.GetGene(index)
    ensures ExpressTrait(g, index, min, max) <= ExpressTrait(h, index, min, max)
  {
    ScaleMonotone(g.GetGene(index), h.GetGene(index), max - min,
      ExpressTrait(g, index, min, max) - min, ExpressTrait(h, index, min, max) - min);
  }

  lemma ScaleMonotone(a: real, b: real, k: real, ak: real, bk: real)
    requires a <= b && k >= 0.0 && ak == a * k && bk == b * k
    ensures ak <= bk
  {
    MulNonNegative(b - a, k);
    assert bk - ak == (b - a) * k;
  }

  function ExpressSpeed(g: Genome): (r: real)
    ensures 0.5 <= r <= 20.0
  {
    ExpressTrait(g, SpeedGene, 0.5, 20.0)
  }

  function ExpressSize(g: Genome): (r: real)
    ensures 0.3 <= r <= 3.0
  {
    ExpressTrait(g, SizeGene, 0.3, 3.0)
  }

  function ExpressMetabolismRate(g: Genome): (r: real)
    ensures 0.005 <= r <= 0.02
  {
    ExpressTrait(g, MetabolismRateGene, 0.005, 0.02)
  }

  function ExpressMovementCost(g: Genome): (r: real)
    ensures 0.01 <= r <= 0.1
  {
    ExpressTrait(g, MovementCostGene, 0.01, 0.1)
  }

  function ExpressMaxEnergy(g: Genome): (r: real)
    ensures 30.0 <= r <= 150.0
  {
    ExpressTrait(g, MaxEnergyGene, 30.0, 150.0)
  }

  function ExpressReproductionCooldown(g: Genome): (r: real)
    ensures 500.0 <= r <= 2000.0
  {
    ExpressTrait(g, ReproductionCooldownGene, 500.0, 2000.0)
  }

  function ExpressReproductionThreshold(g: Genome): (r: real)
    ensures 0.5 <= r <= 0.9
  {
    ExpressTrait(g, ReproductionThresholdGene, 0.5, 0.9)
  }

  function ExpressSensoryRange(g: Genome): (r: real)
    ensures 5.0 <= r <= 50.0
  {
    ExpressTrait(g, SensoryRangeGene, 5.0, 50.0)
  }
}
