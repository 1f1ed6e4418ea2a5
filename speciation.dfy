/** The species tracker: a map from species id to a centroid genome, the next
    fresh id, an update counter and the distance threshold below which a genome
    belongs to a species. `HashMap` iteration order is unspecified, so every loop
    over the centroids picks its next key nondeterministically. */
module Speciation {
  import opened Util
  import opened Genetics
  import opened Systems
  import opened Tuning

  /** DEFAULT_SPECIATION_THRESHOLD. */
  const DefaultSpeciationThreshold: real := 0.15

  /** Centroids are recomputed every this many updates ... */
  const CentroidPeriod: nat := 100
  /** ... and organisms reassigned every this many. */
  const ReassignPeriod: nat := 500

  // ---------------------------------------------------------------------------
  // Specification functions

  /** Ids of species whose centroid is closer than the threshold to `g`. */
  function Matching(centroids: map<nat, Genome>, g: Genome, threshold: real): (ids: set<nat>)
    ensures forall k :: k in ids <==> k in centroids && Closer(g, centroids[k], threshold)
  {
    set k | k in centroids && Closer(g, centroids[k], threshold)
  }

  /** Gene i of g as the accumulation loop adds it: absent genes add nothing. */
  function GeneAt(g: Genome, i: int): real
  {
    if 0 <= i < |g.genes| then g.genes[i] else 0.0
  }

  /** The sum of gene i over a group of genomes, in group order. */
  function GeneSum(group: seq<Genome>, i: int): real
  {
    if |group| == 0 then 0.0 else GeneSum(group[..|group| - 1], i) + GeneAt(group[|group| - 1], i)
  }

  /** The centroid the tracker stores for a group: 32 genes, each the clamped
      average of the group's genes on an accumulator that starts at 0.5. */
  function Centroid(group: seq<Genome>): (c: Genome)
    requires |group| > 0
    ensures |c.genes| == GenomeSize
    ensures forall i :: 0 <= i < GenomeSize ==> 0.0 <= c.genes[i] <= 1.0
  {
    Genome(seq(GenomeSize, i => Clamp((0.5 + GeneSum(group, i)) / |group| as real, 0.0, 1.0)))
  }

  /** The species ids occurring among the organisms. */
  function SpeciesOf(os: seq<Organism>): set<nat>
  {
    if |os| == 0 then {} else SpeciesOf(os[..|os| - 1]) + {os[|os| - 1].species}
  }

  lemma {:induction false} SpeciesOfSpec(os: seq<Organism>)
    ensures forall s :: s in SpeciesOf(os) <==> exists j :: 0 <= j < |os| && os[j].species == s
  {
    if |os| > 0 {
      var init := os[..|os| - 1];
      SpeciesOfSpec(init);
      forall s | s in SpeciesOf(os)
        ensures exists j :: 0 <= j < |os| && os[j].species == s
      {
        if s in SpeciesOf(init) {
          var j :| 0 <= j < |init| && init[j].species == s;
          assert os[j] == init[j];
        } else {
          assert os[|os| - 1].species == s;
        }
      }
      forall s, j | 0 <= j < |os| && os[j].species == s
        ensures s in SpeciesOf(os)
      {
        if j < |init| {
          assert init[j] == os[j];
        }
      }
    }
  }

  /** The genomes of organisms of species s, in query order; there are some
      exactly when s occurs. */
  function Members(os: seq<Organism>, s: nat): (m: seq<Genome>)
    ensures |m| > 0 <==> s in SpeciesOf(os)
  {
    if |os| == 0 then []
    else Members(os[..|os| - 1], s) + (if os[|os| - 1].species == s then [os[|os| - 1].genome] else [])
  }

  /** The centroid map after `update_centroids`: every species that occurs gets the
      centroid of its members, every other entry is kept. */
  ghost function UpdatedCentroids(centroids: map<nat, Genome>, os: seq<Organism>): map<nat, Genome>
  {
    map s | s in centroids.Keys + SpeciesOf(os) ::
      if s in SpeciesOf(os) then Centroid(Members(os, s)) else centroids[s]
  }

  /** Every member genome belongs to an organism of that species. */
  lemma {:induction false} MembersSound(os: seq<Organism>, s: nat)
    ensures forall g :: g in Members(os, s) ==> exists j :: 0 <= j < |os| && os[j].species == s && os[j].genome == g
  {
    if |os| > 0 {
      var init := os[..|os| - 1];
      MembersSound(init, s);
      forall g | g in Members(os, s)
        ensures exists j :: 0 <= j < |os| && os[j].species == s && os[j].genome == g
      {
        if g in Members(init, s) {
          var j :| 0 <= j < |init| && init[j].species == s && init[j].genome == g;
          assert os[j] == init[j];
        } else {
          assert os[|os| - 1].genome == g;
        }
      }
    }
  }

  /** `update_centroids` keeps every existing id, adds the ids that occur, changes
      only entries of species that occur, and every recomputed entry is a
      32-gene centroid of the species' members. */
  lemma UpdatedCentroidsFrame(centroids: map<nat, Genome>, os: seq<Organism>)
    ensures UpdatedCentroids(centroids, os).Keys == centroids.Keys + SpeciesOf(os)
    ensures forall s :: s in centroids && s !in SpeciesOf(os) ==> UpdatedCentroids(centroids, os)[s] == centroids[s]
    ensures forall s :: s in SpeciesOf(os) ==> UpdatedCentroids(centroids, os)[s] == Centroid(Members(os, s))
  {
  }

  /** Each gene of the members lies in [0, 1], so each sum lies in [0, n]. */
  lemma {:induction false} GeneSumBounds(group: seq<Genome>, i: nat)
    requires forall g :: g in group ==> forall k :: 0 <= k < |g.genes| ==> 0.0 <= g.genes[k] <= 1.0
    ensures 0.0 <= GeneSum(group, i) <= |group| as real
  {
    if |group| > 0 {
      var init := group[..|group| - 1];
      assert forall g :: g in init ==> g in group;
      assert group[|group| - 1] in group;
      GeneSumBounds(init, i);
    }
  }

  /** Because the accumulator starts at 0.5 rather than 0, a species with a single
      member whose gene is at least 0.5 gets the centroid gene 1. */
  lemma SingleMemberCentroid(g: Genome, i: nat)
    requires i < GenomeSize
    ensures Centroid([g]).genes[i] == Clamp(0.5 + GeneAt(g, i), 0.0, 1.0)
    ensures i < |g.genes| && g.genes[i] >= 0.5 ==> Centroid([g]).genes[i] == 1.0
  {
    assert [g][..0] == [];
    assert GeneSum([g], i) == GeneAt(g, i);
    assert |[g]| as real == 1.0;
  }

  /** Every centroid gene lies above 0.5 / n when the members' genes are in [0, 1],
      so a centroid gene is never 0 however small the members' genes. */
  lemma CentroidBias(group: seq<Genome>, i: nat)
    requires |group| > 0 && i < GenomeSize
    requires forall g :: g in group ==> forall k :: 0 <= k < |g.genes| ==> 0.0 <= g.genes[k] <= 1.0
    ensures Centroid(group).genes[i] >= 0.5 / |group| as real
  {
    GeneSumBounds(group, i);
    DivideMonotone(0.5, 0.5 + GeneSum(group, i), |group| as real);
  }

  lemma DivideMonotone(x: real, y: real, n: real)
    requires x <= y && n > 0.0
    ensures x / n <= y / n
  {
    assert (y / n - x / n) * n == y - x;
  }

  /** The state a `find_or_create_species` call leaves: with a match, one matching
      id and no change; without one, the old next id, the counter one higher and
      that id now mapped to the genome. */
  predicate Assigned(centroids: map<nat, Genome>, next: nat, threshold: real, g: Genome,
                     id: nat, centroids': map<nat, Genome>, next': nat)
  {
    if Matching(centroids, g, threshold) != {} then
      id in Matching(centroids, g, threshold) && centroids' == centroids && next' == next
    else
      id == next && next' == next + 1 && centroids' == centroids[next := g]
  }

  /** A call grows the species count by at most one, and by none when the new id
      was already present (the insert then overwrites its centroid). */
  lemma AssignedGrowth(centroids: map<nat, Genome>, next: nat, threshold: real, g: Genome,
                       id: nat, centroids': map<nat, Genome>, next': nat)
    requires Assigned(centroids, next, threshold, g, id, centroids', next')
    ensures id in centroids'
    ensures centroids.Keys <= centroids'.Keys
    ensures |centroids'| <= |centroids| + 1
    ensures next in centroids && Matching(centroids, g, threshold) == {} ==> |centroids'| == |centroids|
  {
    if Matching(centroids, g, threshold) == {} {
      if next in centroids {
        assert centroids'.Keys == centroids.Keys;
      } else {
        assert centroids'.Keys == centroids.Keys + {next};
      }
    }
  }

  /** A whole reassignment pass over `before`: `trace[j]` is the tracker state
      before organism j's call and `trace[j + 1]` the state after it, organism j
      receives the id that call returns, and nothing else about it changes. */
  ghost predicate ReassignedBy(trace: seq<(map<nat, Genome>, nat)>, threshold: real,
                               before: seq<Organism>, after: seq<Organism>)
  {
    |trace| == |before| + 1 && |after| == |before| &&
    forall j :: 0 <= j < |before| ==>
      after[j] == before[j].(species := after[j].species) &&
      Assigned(trace[j].0, trace[j].1, threshold, before[j].genome, after[j].species,
               trace[j + 1].0, trace[j + 1].1)
  }

  /** Over the first n calls of a pass species only accumulate: no id is lost, at
      most one is added and the counter grows by at most one per call, and every id
      handed out so far is still mapped. */
  lemma {:induction false} ReassignedGrowth(trace: seq<(map<nat, Genome>, nat)>, threshold: real,
                                            before: seq<Organism>, after: seq<Organism>, n: nat)
    requires ReassignedBy(trace, threshold, before, after) && n <= |before|
    ensures trace[0].0.Keys <= trace[n].0.Keys
    ensures |trace[n].0| <= |trace[0].0| + n
    ensures trace[0].1 <= trace[n].1 <= trace[0].1 + n
    ensures forall j :: 0 <= j < n ==> after[j].species in trace[n].0
  {
    if n > 0 {
      ReassignedGrowth(trace, threshold, before, after, n - 1);
      AssignedGrowth(trace[n - 1].0, trace[n - 1].1, threshold, before[n - 1].genome,
                     after[n - 1].species, trace[n].0, trace[n].1);
    }
  }

  /** A genome that has just founded a species is matched by it on the next call,
      so a second call with the same genome returns an existing id and changes
      nothing. */
  lemma FoundedSpeciesMatches(centroids: map<nat, Genome>, next: nat, threshold: real, g: Genome)
    requires threshold > 0.0 && |g.genes| > 0
    ensures next in Matching(centroids[next := g], g, threshold)
  {
    DistanceIsPseudoMetric(g, g);
  }

  /** The new-id insert can overwrite a centroid: after `update_centroids` has
      recorded species 0 while the next id is still 0, a genome far from it takes
      id 0, replaces its centroid, and the species count stays at 1. */
  lemma CreateCanOverwrite()
    ensures var old0 := Genome(seq(GenomeSize, _ => 0.0));
            var g := Genome(seq(GenomeSize, _ => 1.0));
            var c := map[0 := old0];
            Matching(c, g, DefaultSpeciationThreshold) == {} &&
            Assigned(c, 0, DefaultSpeciationThreshold, g, 0, map[0 := g], 1) &&
            |map[0 := g]| == |c| && map[0 := g][0] != old0
  {
    var old0 := Genome(seq(GenomeSize, _ => 0.0));
    var g := Genome(seq(GenomeSize, _ => 1.0));
    var c := map[0 := old0];
    AllOnesFromZeros(GenomeSize);
    assert MeanSquaredDistance(g, old0) == Some(1.0);
    assert !Closer(g, old0, DefaultSpeciationThreshold);
    assert Matching(c, g, DefaultSpeciationThreshold) == {};
    assert c[0 := g] == map[0 := g];
  }

  lemma {:induction false} AllOnesFromZeros(n: nat)
    requires n <= GenomeSize
    ensures SquaredDiffSum(seq(GenomeSize, _ => 1.0), seq(GenomeSize, _ => 0.0), n) == n as real
  {
    if n > 0 {
      AllOnesFromZeros(n - 1);
    }
  }

  // ---------------------------------------------------------------------------
  // The tracker

  class SpeciesTracker {
    var centroids: map<nat, Genome>
    var nextSpeciesId: nat
    var updateCounter: nat
    var threshold: real

    /** `SpeciesTracker::default`. */
    constructor ()
      ensures centroids == map[] && nextSpeciesId == 0 && updateCounter == 0
      ensures threshold == DefaultSpeciationThreshold
    {
      centroids := map[];
      nextSpeciesId := 0;
      updateCounter := 0;
      threshold := DefaultSpeciationThreshold;
    }

    /** `SpeciesTracker::with_threshold`. */
    constructor WithThreshold(t: real)
      ensures centroids == map[] && nextSpeciesId == 0 && updateCounter == 0
      ensures threshold == t
    {
      centroids := map[];
      nextSpeciesId := 0;
      updateCounter := 0;
      threshold := t;
    }

    /** `find_or_create_species`: scans the centroids in some order and returns the
        first id closer than the threshold, or founds a new species. */
    method FindOrCreateSpecies(genome: Genome) returns (id: nat)
      modifies this
      ensures Assigned(old(centroids), old(nextSpeciesId), threshold, genome, id, centroids, nextSpeciesId)
      ensures threshold == old(threshold) && updateCounter == old(updateCounter)
    {
      var keys := centroids.Keys;
      while keys != {}
        invariant centroids == old(centroids) && nextSpeciesId == old(nextSpeciesId)
        invariant threshold == old(threshold) && updateCounter == old(updateCounter)
        invariant keys <= centroids.Keys
        invariant forall k :: k in centroids && k !in keys ==> !Closer(genome, centroids[k], threshold)
        decreases keys
      {
        var k :| k in keys;
        var d := Distance(genome, centroids[k]);
        if d.Some? && LessThan(d.value, threshold) {
          assert k in Matching(centroids, genome, threshold);
          return k;
        }
        keys := keys - {k};
      }
      assert Matching(centroids, genome, threshold) == {};
      id := nextSpeciesId;
      nextSpeciesId := nextSpeciesId + 1;
      centroids := centroids[id := genome];
    }

    /** `update_centroids`: groups the organisms' genomes by species, then stores
        each group's centroid under its id. */
    method UpdateCentroids(os: seq<Organism>)
      modifies this
      ensures centroids == UpdatedCentroids(old(centroids), os)
      ensures nextSpeciesId == old(nextSpeciesId) && updateCounter == old(updateCounter)
      ensures threshold == old(threshold)
    {
      var groups := GroupBySpecies(os);
      ghost var start := centroids;
      var pending := groups.Keys;
      while pending != {}
        invariant pending <= groups.Keys
        invariant nextSpeciesId == old(nextSpeciesId) && updateCounter == old(updateCounter)
        invariant threshold == old(threshold)
        invariant centroids.Keys == start.Keys + (groups.Keys - pending)
        invariant forall s :: s in centroids ==>
          centroids[s] == if s in groups && s !in pending then Centroid(groups[s]) else start[s]
        decreases pending
      {
        var s :| s in pending;
        var avg := AverageGenome(groups[s]);
        centroids := centroids[s := avg];
        pending := pending - {s};
      }
      UpdatedCentroidsFrame(start, os);
    }

    /** `species_count`. */
    function SpeciesCount(): (n: nat)
      reads this
      ensures n == |centroids.Keys|
    {
      |centroids|
    }

    /** `get_all_species`, as the set of ids (the source returns them in map order). */
    function AllSpecies(): (ids: set<nat>)
      reads this
      ensures forall s :: s in ids <==> s in centroids
      ensures |ids| == SpeciesCount()
    {
      centroids.Keys
    }

    /** `cleanup_extinct`: keeps exactly the entries whose id is active. */
    method CleanupExtinct(active: set<nat>)
      modifies this
      ensures centroids.Keys == old(centroids).Keys * active
      ensures forall s :: s in centroids ==> centroids[s] == old(centroids)[s]
      ensures nextSpeciesId == old(nextSpeciesId) && updateCounter == old(updateCounter)
      ensures threshold == old(threshold)
    {
      centroids := map s | s in centroids && s in active :: centroids[s];
    }

    /** The reassignment pass of `update_speciation`: each organism, in query
        order, gets the id `find_or_create_species` returns for its genome; the
        ghost `trace` records the tracker state around every call. */
    method Reassign(organisms: array<Organism>) returns (ghost trace: seq<(map<nat, Genome>, nat)>)
      modifies this, organisms
      ensures ReassignedBy(trace, threshold, old(organisms[..]), organisms[..])
      ensures trace[0] == (old(centroids), old(nextSpeciesId))
      ensures trace[|trace| - 1] == (centroids, nextSpeciesId)
      ensures old(centroids).Keys <= centroids.Keys
      ensures |centroids| <= |old(centroids)| + organisms.Length
      ensures old(nextSpeciesId) <= nextSpeciesId <= old(nextSpeciesId) + organisms.Length
      ensures forall j :: 0 <= j < organisms.Length ==>
        organisms[j] == old(organisms[j]).(species := organisms[j].species) && organisms[j].species in centroids
      ensures threshold == old(threshold) && updateCounter == old(updateCounter)
    {
      ghost var before := organisms[..];
      trace := [(centroids, nextSpeciesId)];
      for j := 0 to organisms.Length
        invariant |trace| == j + 1
        invariant trace[0] == (old(centroids), old(nextSpeciesId))
        invariant trace[j] == (centroids, nextSpeciesId)
        invariant threshold == old(threshold) && updateCounter == old(updateCounter)
        invariant forall k :: 0 <= k < j ==>
          organisms[k] == before[k].(species := organisms[k].species) &&
          Assigned(trace[k].0, trace[k].1, threshold, before[k].genome, organisms[k].species,
                   trace[k + 1].0, trace[k + 1].1)
        invariant forall k :: j <= k < organisms.Length ==> organisms[k] == before[k]
      {
        var id := FindOrCreateSpecies(organisms[j].genome);
        if id != organisms[j].species {
          organisms[j] := organisms[j].(species := id);
        }
        trace := trace + [(centroids, nextSpeciesId)];
      }
      ReassignedGrowth(trace, threshold, before, organisms[..], organisms.Length);
    }

    /** `update_speciation`: takes the tuned threshold when tuning is present, counts
        the call, recomputes centroids every 100 calls and reassigns every 500; on a
        reassigning call `trace` starts from the recomputed centroids. */
    method UpdateSpeciation(tuning: Option<EcosystemTuning>, organisms: array<Organism>)
      returns (ghost trace: seq<(map<nat, Genome>, nat)>)
      modifies this, organisms
      ensures updateCounter == old(updateCounter) + 1
      ensures threshold == if tuning.Some? then tuning.value.speciationThreshold else old(threshold)
      ensures updateCounter % CentroidPeriod != 0 ==>
        centroids == old(centroids) && nextSpeciesId == old(nextSpeciesId) && organisms[..] == old(organisms[..])
      ensures updateCounter % CentroidPeriod == 0 && updateCounter % ReassignPeriod != 0 ==>
        centroids == UpdatedCentroids(old(centroids), old(organisms[..])) &&
        nextSpeciesId == old(nextSpeciesId) && organisms[..] == old(organisms[..])
      ensures updateCounter % ReassignPeriod == 0 ==>
        ReassignedBy(trace, threshold, old(organisms[..]), organisms[..]) &&
        trace[0] == (UpdatedCentroids(old(centroids), old(organisms[..])), old(nextSpeciesId)) &&
        trace[|trace| - 1] == (centroids, nextSpeciesId)
      ensures updateCounter % ReassignPeriod == 0 ==>
        UpdatedCentroids(old(centroids), old(organisms[..])).Keys <= centroids.Keys &&
        forall j :: 0 <= j < organisms.Length ==>
          organisms[j] == old(organisms[j]).(species := organisms[j].species) && organisms[j].species in centroids
    {
      trace := [];
      if tuning.Some? {
        threshold := tuning.value.speciationThreshold;
      }
      updateCounter := updateCounter + 1;
      if updateCounter % CentroidPeriod == 0 {
        UpdateCentroids(organisms[..]);
      }
      if updateCounter % ReassignPeriod == 0 {
        trace := Reassign(organisms);
      }
    }
  }

  /** The grouping loop of `update_centroids`. */
  method GroupBySpecies(os: seq<Organism>) returns (groups: map<nat, seq<Genome>>)
    ensures groups.Keys == SpeciesOf(os)
    ensures forall s :: s in groups ==> groups[s] == Members(os, s)
  {
    groups := map[];
    for j := 0 to |os|
      invariant groups.Keys == SpeciesOf(os[..j])
      invariant forall s :: s in groups ==> groups[s] == Members(os[..j], s)
    {
      assert os[..j + 1][..j] == os[..j];
      var s := os[j].species;
      var existing := if s in groups then groups[s] else [];
      groups := groups[s := existing + [os[j].genome]];
    }
    assert os[..|os|] == os;
  }

  /** One group's centroid: 32 genes of 0.5, each member's genes added in order,
      then every gene divided by the group size and clamped. */
  method AverageGenome(group: seq<Genome>) returns (avg: Genome)
    requires |group| > 0
    ensures avg == Centroid(group)
  {
    var start := NewGenome(seq(|group[0].genes|, _ => 0.5));
    var acc := start.genes;
    for j := 0 to |group|
      invariant |acc| == GenomeSize
      invariant forall i :: 0 <= i < GenomeSize ==> acc[i] == 0.5 + GeneSum(group[..j], i)
    {
      assert group[..j + 1][..j] == group[..j];
      acc := AddGenes(acc, group[j]);
    }
    assert group[..|group|] == group;
    var n := |group| as real;
    for i := 0 to GenomeSize
      invariant |acc| == GenomeSize
      invariant forall k :: 0 <= k < i ==> acc[k] == Clamp((0.5 + GeneSum(group, k)) / n, 0.0, 1.0)
      invariant forall k :: i <= k < GenomeSize ==> acc[k] == 0.5 + GeneSum(group, k)
    {
      acc := acc[i := Clamp(acc[i] / n, 0.0, 1.0)];
    }
    avg := Genome(acc);
  }

  /** The inner loop: adds the genome's genes to the first min(32, len) slots. */
  method AddGenes(acc: seq<real>, g: Genome) returns (acc': seq<real>)
    requires |acc| == GenomeSize
    ensures |acc'| == GenomeSize
    ensures forall i :: 0 <= i < GenomeSize ==> acc'[i] == acc[i] + GeneAt(g, i)
  {
    acc' := acc;
    for i := 0 to MinNat(GenomeSize, |g.genes|)
      invariant |acc'| == GenomeSize
      invariant forall k :: 0 <= k < i ==> acc'[k] == acc[k] + g.genes[k]
      invariant forall k :: i <= k < GenomeSize ==> acc'[k] == acc[k]
    {
      acc' := acc'[i := acc'[i] + g.genes[i]];
    }
  }
}
