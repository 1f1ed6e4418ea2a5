/** The behaviour state machine of an organism: the state record and its
    transition rule, the predator/prey relation, sensing of nearby organisms and
    resource-rich cells, the strict-priority decision (flee, seek food, hunt,
    mate, rest, wander) and the velocity each state asks for. Distances are
    carried squared; headings that need trigonometry or a square root are
    parameters. */
module OrganismBehavior {
  import opened Util
  import opened WorldCell
  import opened Components
  import opened Genetics

  datatype BehaviorState = Wandering | Chasing | Eating | Fleeing | Mating | Resting

  /** The `Behavior` component; entities are identified by number. */
  datatype Behavior = Behavior(
    state: BehaviorState,
    targetEntity: Option<nat>,
    targetPosition: Option<Vec2>,
    stateTime: real)
  {
    /** Entering a different state restarts the state clock and forgets both
        targets; re-entering the current state changes nothing. */
    function SetState(newState: BehaviorState): (b: Behavior)
      ensures b.state == newState
      ensures newState != state ==> b.stateTime == 0.0 && b.targetEntity.None? && b.targetPosition.None?
      ensures newState == state ==> b == this
    {
      if state != newState then Behavior(newState, None, None, 0.0) else this
    }
  }

  /** `Behavior::default()`. */
  const DefaultBehavior: Behavior := Behavior(Wandering, None, None, 0.0)

  /** Setting the same state twice is the same as setting it once. */
  lemma SetStateIdempotent(b: Behavior, s: BehaviorState, t: BehaviorState)
    ensures b.SetState(s).SetState(s) == b.SetState(s)
    ensures s != t ==> b.SetState(s).SetState(t) == b.SetState(t).(stateTime := 0.0, targetEntity := None, targetPosition := None)
  {
  }

  // ---------------------------------------------------------------------------
  // Predators and prey

  /** `is_predator_of(attacker, victim, attacker size, victim size)`: only a
      Consumer attacks; it attacks any Producer or Decomposer, and a Consumer
      only when more than one and a half times the victim's size. */
  function IsPredatorOf(attacker: OrganismType, victim: OrganismType, attackerSize: real, victimSize: real): (r: bool)
    ensures r <==> attacker == Consumer && (victim != Consumer || attackerSize > victimSize * 1.5)
  {
    match (attacker, victim)
    case (Consumer, Consumer) => attackerSize > victimSize * 1.5
    case (Consumer, Producer) => true
    case (Consumer, Decomposer) => true
    case _ => false
  }

  /** `is_prey_of` is the same relation with the same argument order. */
  function IsPreyOf(attacker: OrganismType, victim: OrganismType, attackerSize: real, victimSize: real): (r: bool)
    ensures r == IsPredatorOf(attacker, victim, attackerSize, victimSize)
  {
    IsPredatorOf(attacker, victim, attackerSize, victimSize)
  }

  // ---------------------------------------------------------------------------
  // Sensing

  /** The organism doing the sensing. */
  datatype Observer = Observer(
    entity: nat,
    position: Vec2,
    sensoryRange: real,
    species: nat,
    kind: OrganismType,
    size: real)

  /** Another live organism, as the sensing pass sees it. */
  datatype Observed = Observed(
    entity: nat,
    position: Vec2,
    species: nat,
    kind: OrganismType,
    size: real,
    energy: Energy)

  /** One entry of `nearby_organisms`. */
  datatype Sighting = Sighting(
    entity: nat,
    position: Vec2,
    distanceSq: real,
    isPredator: bool,
    isPrey: bool,
    isMate: bool)

  /** One entry of `nearby_resources`. */
  datatype Reading = Reading(position: Vec2, resource: ResourceType, distanceSq: real, value: real)

  datatype SensoryData = SensoryData(
    nearbyOrganisms: seq<Sighting>,
    nearbyResources: seq<Reading>,
    currentCellResources: Slots)

  function DistanceSq(a: Vec2, b: Vec2): real
  {
    a.Sub(b).LengthSq()
  }

  /** What the observer records about one other organism, if anything: nothing
      about itself or anything beyond its sensory range. The predator flag asks
      whether the other organism attacks the observer with the observer's type
      in the attacker's place, as the source passes the arguments. A mate is of
      the same species and type, alive and within half the range. */
  function Sight(me: Observer, o: Observed): (r: Option<Sighting>)
    ensures r.Some? <==> o.entity != me.entity && AtMost(DistanceSq(me.position, o.position), me.sensoryRange)
    ensures r.Some? ==>
      r.value.entity == o.entity && r.value.position == o.position
      && r.value.distanceSq == DistanceSq(me.position, o.position)
    ensures r.Some? && r.value.isMate ==>
      o.species == me.species && o.kind == me.kind && o.energy.current > 0.0
      && AtMost(r.value.distanceSq, me.sensoryRange * 0.5)
  {
    var dsq := DistanceSq(me.position, o.position);
    if o.entity == me.entity || !AtMost(dsq, me.sensoryRange) then None
    else
      Some(Sighting(
        o.entity, o.position, dsq,
        IsPredatorOf(me.kind, o.kind, o.size, me.size),
        IsPreyOf(me.kind, o.kind, me.size, o.size),
        o.species == me.species && o.kind == me.kind && !o.energy.IsDead()
          && AtMost(dsq, me.sensoryRange * 0.5)))
  }

  /** `nearby_organisms`: the sightings of `others`, in their order. */
  function Sightings(me: Observer, others: seq<Observed>): seq<Sighting>
  {
    if |others| == 0 then []
    else
      Sightings(me, others[..|others| - 1])
      + match Sight(me, others[|others| - 1]) { case Some(s) => [s] case None => [] }
  }

  /** A sighting is recorded exactly when some other organism gives rise to it. */
  lemma {:induction false} SightingsExactly(me: Observer, others: seq<Observed>, s: Sighting)
    ensures s in Sightings(me, others) <==> exists o :: o in others && Sight(me, o) == Some(s)
  {
    if |others| > 0 {
      var init := others[..|others| - 1];
      var last := others[|others| - 1];
      SightingsExactly(me, init, s);
      assert others == init + [last];
      if s in Sightings(me, others) && !(s in Sightings(me, init)) {
        assert Sight(me, last) == Some(s);
      }
      if exists o :: o in others && Sight(me, o) == Some(s) {
        var o :| o in others && Sight(me, o) == Some(s);
        if o != last {
          assert o in init;
        }
      }
    }
  }

  /** The resource types the scan records. */
  const SensedResources: seq<ResourceType> := [Plant, Water, Detritus, Prey]

  /** What a recorded resource reading guarantees. */
  predicate SoundReading(r: Reading, range: real)
  {
    r.resource in SensedResources && r.value > 0.1 && AtMost(r.distanceSq, range)
  }

  /** The readings of one cell over the first n sensed types. */
  function CellReadings(cell: Cell, at: Vec2, dsq: real, n: nat): seq<Reading>
    requires n <= |SensedResources|
  {
    if n == 0 then []
    else
      var t := SensedResources[n - 1];
      var value := cell.GetResource(t);
      CellReadings(cell, at, dsq, n - 1) + if value > 0.1 then [Reading(at, t, dsq, value)] else []
  }

  /** A cell's readings are of sensed types above 0.1, at the cell, and report
      the cell's density. */
  lemma {:induction false} CellReadingsSpec(cell: Cell, at: Vec2, dsq: real, n: nat)
    requires n <= |SensedResources|
    ensures forall r :: r in CellReadings(cell, at, dsq, n) ==>
      r.resource in SensedResources && r.value > 0.1
      && r.position == at && r.distanceSq == dsq && r.value == cell.GetResource(r.resource)
  {
    if n > 0 {
      CellReadingsSpec(cell, at, dsq, n - 1);
    }
  }

  /** The readings for the grid offset (dx, dy) from `position`: none beyond the range
      or where the world has no cell. */
  function OffsetReadings(position: Vec2, range: real, cellAt: (real, real) -> Option<Cell>, dx: int, dy: int): seq<Reading>
  {
    var dsq := (dx * dx + dy * dy) as real;
    if !AtMost(dsq, range) then []
    else
      var at := Vec2(position.x + dx as real, position.y + dy as real);
      match cellAt(at.x, at.y)
      case None => []
      case Some(cell) => CellReadings(cell, at, dsq, |SensedResources|)
  }

  lemma OffsetReadingsSound(position: Vec2, range: real, cellAt: (real, real) -> Option<Cell>, dx: int, dy: int)
    ensures forall r :: r in OffsetReadings(position, range, cellAt, dx, dy) ==> SoundReading(r, range)
  {
    var dsq := (dx * dx + dy * dy) as real;
    var at := Vec2(position.x + dx as real, position.y + dy as real);
    if AtMost(dsq, range) && cellAt(at.x, at.y).Some? {
      CellReadingsSpec(cellAt(at.x, at.y).value, at, dsq, |SensedResources|);
    }
  }

  /** Offsets (-radius .. dx-1, dy) of one scan row. */
  function RowReadings(position: Vec2, range: real, cellAt: (real, real) -> Option<Cell>, radius: int, dy: int, dx: int): seq<Reading>
    decreases dx + radius
  {
    if dx <= -radius then []
    else RowReadings(position, range, cellAt, radius, dy, dx - 1) + OffsetReadings(position, range, cellAt, dx - 1, dy)
  }

  lemma {:induction false} RowReadingsSound(position: Vec2, range: real, cellAt: (real, real) -> Option<Cell>, radius: int, dy: int, dx: int)
    ensures forall r :: r in RowReadings(position, range, cellAt, radius, dy, dx) ==> SoundReading(r, range)
    decreases dx + radius
  {
    if dx > -radius {
      RowReadingsSound(position, range, cellAt, radius, dy, dx - 1);
      OffsetReadingsSound(position, range, cellAt, dx - 1, dy);
    }
  }

  /** Rows -radius .. dy-1 of the scan, each over offsets -radius ..= radius. */
  function GridReadings(position: Vec2, range: real, cellAt: (real, real) -> Option<Cell>, radius: int, dy: int): seq<Reading>
    decreases dy + radius
  {
    if dy <= -radius then []
    else GridReadings(position, range, cellAt, radius, dy - 1) + RowReadings(position, range, cellAt, radius, dy - 1, radius + 1)
  }

  /** Every reading of the scan is of a sensed type, above 0.1 and within range. */
  lemma {:induction false} GridReadingsSound(position: Vec2, range: real, cellAt: (real, real) -> Option<Cell>, radius: int, dy: int)
    ensures forall r :: r in GridReadings(position, range, cellAt, radius, dy) ==> SoundReading(r, range)
    decreases dy + radius
  {
    if dy > -radius {
      GridReadingsSound(position, range, cellAt, radius, dy - 1);
      RowReadingsSound(position, range, cellAt, radius, dy - 1, radius + 1);
    }
  }

  /** `ceil(range)`, the half-width of the scanned square. */
  function SearchRadius(range: real): int
  {
    -((-range).Floor)
  }

  /** Every reading of the unsorted scan, in scan order. */
  function ScanReadings(position: Vec2, range: real, cellAt: (real, real) -> Option<Cell>): seq<Reading>
  {
    var radius := SearchRadius(range);
    GridReadings(position, range, cellAt, radius, radius + 1)
  }

  predicate SortedByDistance(rs: seq<Reading>)
  {
    forall i, j :: 0 <= i < j < |rs| ==> rs[i].distanceSq <= rs[j].distanceSq
  }

  /** Inserts r after every reading that is no farther. */
  function InsertByDistance(r: Reading, rs: seq<Reading>): seq<Reading>
  {
    if |rs| == 0 then [r]
    else if rs[|rs| - 1].distanceSq <= r.distanceSq then rs + [r]
    else InsertByDistance(r, rs[..|rs| - 1]) + [rs[|rs| - 1]]
  }

  /** Insertion adds exactly r and keeps a sorted sequence sorted. */
  lemma {:induction false} InsertByDistanceSpec(r: Reading, rs: seq<Reading>)
    ensures multiset(InsertByDistance(r, rs)) == multiset(rs) + multiset{r}
    ensures SortedByDistance(rs) ==> SortedByDistance(InsertByDistance(r, rs))
  {
    if |rs| > 0 && r.distanceSq < rs[|rs| - 1].distanceSq {
      var init := rs[..|rs| - 1];
      assert rs == init + [rs[|rs| - 1]];
      InsertByDistanceSpec(r, init);
      InsertedBelow(r, rs, InsertByDistance(r, init));
    }
  }

  lemma InsertedBelow(r: Reading, rs: seq<Reading>, front: seq<Reading>)
    requires |rs| > 0 && r.distanceSq < rs[|rs| - 1].distanceSq
    requires multiset(front) == multiset(rs[..|rs| - 1]) + multiset{r}
    requires SortedByDistance(rs) ==> SortedByDistance(front)
    ensures SortedByDistance(rs) ==> SortedByDistance(front + [rs[|rs| - 1]])
  {
    if SortedByDistance(rs) {
      var last := rs[|rs| - 1];
      forall i | 0 <= i < |front|
        ensures front[i].distanceSq <= last.distanceSq
      {
        assert front[i] in multiset(front);
        if front[i] != r {
          assert front[i] in multiset(rs[..|rs| - 1]);
          var k :| 0 <= k < |rs| - 1 && rs[k] == front[i];
        }
      }
    }
  }

  /** The stable sort by distance that `sort_by` performs. */
  function SortByDistance(rs: seq<Reading>): seq<Reading>
  {
    if |rs| == 0 then []
    else InsertByDistance(rs[|rs| - 1], SortByDistance(rs[..|rs| - 1]))
  }

  /** The sort yields a sorted permutation of its input. */
  lemma {:induction false} SortByDistanceSpec(rs: seq<Reading>)
    ensures SortedByDistance(SortByDistance(rs))
    ensures multiset(SortByDistance(rs)) == multiset(rs)
  {
    if |rs| > 0 {
      var init := rs[..|rs| - 1];
      assert rs == init + [rs[|rs| - 1]];
      SortByDistanceSpec(init);
      InsertByDistanceSpec(rs[|rs| - 1], SortByDistance(init));
    }
  }

  /** The readings at squared distance d, in their order in rs. */
  function AtDistance(rs: seq<Reading>, d: real): seq<Reading>
  {
    if |rs| == 0 then []
    else AtDistance(rs[..|rs| - 1], d) + (if rs[|rs| - 1].distanceSq == d then [rs[|rs| - 1]] else [])
  }

  /** Insertion puts r after every reading at its own distance. */
  lemma {:induction false} InsertByDistanceStable(r: Reading, rs: seq<Reading>, d: real)
    ensures AtDistance(InsertByDistance(r, rs), d) == AtDistance(rs, d) + (if r.distanceSq == d then [r] else [])
  {
    if |rs| == 0 {
    } else if rs[|rs| - 1].distanceSq <= r.distanceSq {
      var s := rs + [r];
      assert s[..|s| - 1] == rs && s[|s| - 1] == r;
    } else {
      var init, last := rs[..|rs| - 1], rs[|rs| - 1];
      var front := InsertByDistance(r, init);
      var s := front + [last];
      assert InsertByDistance(r, rs) == s;
      InsertByDistanceStable(r, init, d);
      assert s[..|s| - 1] == front && s[|s| - 1] == last;
      assert AtDistance(s, d) == AtDistance(front, d) + (if last.distanceSq == d then [last] else []);
      // r is strictly nearer than last, so at most one of them is at distance d.
      assert r.distanceSq != d || last.distanceSq != d;
    }
  }

  /** The sort is stable, as `sort_by` is: readings at equal distance keep their
      input order. */
  lemma {:induction false} SortByDistanceStable(rs: seq<Reading>, d: real)
    ensures AtDistance(SortByDistance(rs), d) == AtDistance(rs, d)
  {
    if |rs| > 0 {
      SortByDistanceStable(rs[..|rs| - 1], d);
      InsertByDistanceStable(rs[|rs| - 1], SortByDistance(rs[..|rs| - 1]), d);
    }
  }

  /** The densities of the cell under the observer, or zeros where there is none. */
  function CurrentResources(position: Vec2, cellAt: (real, real) -> Option<Cell>): Slots
  {
    match cellAt(position.x, position.y)
    case Some(cell) => cell.density
    case None => ZeroSlots
  }

  /** The readings of one cell, one resource type at a time. */
  method SenseCell(cell: Cell, at: Vec2, dsq: real) returns (rs: seq<Reading>)
    ensures rs == CellReadings(cell, at, dsq, |SensedResources|)
  {
    rs := [];
    for n := 0 to |SensedResources|
      invariant rs == CellReadings(cell, at, dsq, n)
    {
      var t := SensedResources[n];
      var value := cell.GetResource(t);
      if value > 0.1 {
        rs := rs + [Reading(at, t, dsq, value)];
      }
    }
  }

  /** One row of the scan: the offsets -radius ..= radius at height dy. */
  method ScanRow(position: Vec2, range: real, cellAt: (real, real) -> Option<Cell>, radius: int, dy: int)
    returns (row: seq<Reading>)
    requires radius >= 0
    ensures row == RowReadings(position, range, cellAt, radius, dy, radius + 1)
  {
    var dx := -radius;
    row := [];
    while dx <= radius
      invariant -radius <= dx <= radius + 1
      invariant row == RowReadings(position, range, cellAt, radius, dy, dx)
      decreases radius - dx
    {
      var here := SenseOffset(position, range, cellAt, dx, dy);
      row := row + here;
      dx := dx + 1;
    }
  }

  /** The readings at one grid offset, skipped beyond the range. */
  method SenseOffset(position: Vec2, range: real, cellAt: (real, real) -> Option<Cell>, dx: int, dy: int)
    returns (here: seq<Reading>)
    ensures here == OffsetReadings(position, range, cellAt, dx, dy)
  {
    var dsq := (dx * dx + dy * dy) as real;
    var at := Vec2(position.x + dx as real, position.y + dy as real);
    here := [];
    if AtMost(dsq, range) {
      match cellAt(at.x, at.y) {
        case Some(cell) => here := SenseCell(cell, at, dsq);
        case None =>
      }
    }
  }

  /** The square of grid offsets within `ceil(range)` of the position, row by row. */
  method ScanGrid(position: Vec2, range: real, cellAt: (real, real) -> Option<Cell>) returns (raw: seq<Reading>)
    ensures raw == ScanReadings(position, range, cellAt)
  {
    var radius := SearchRadius(range);
    if radius >= 0 {
      raw := ScanRows(position, range, cellAt, radius);
    } else {
      raw := [];
      assert radius + 1 <= -radius;
    }
  }

  /** Rows -radius ..= radius of the scan. */
  method ScanRows(position: Vec2, range: real, cellAt: (real, real) -> Option<Cell>, radius: int) returns (raw: seq<Reading>)
    requires radius >= 0
    ensures raw == GridReadings(position, range, cellAt, radius, radius + 1)
  {
    raw := [];
    var dy := -radius;
    while dy <= radius
      invariant -radius <= dy <= radius + 1
      invariant raw == GridReadings(position, range, cellAt, radius, dy)
      decreases radius - dy
    {
      var row := ScanRow(position, range, cellAt, radius, dy);
      raw := raw + row;
      dy := dy + 1;
    }
  }

  /** What the observer senses: the sightings of the other organisms, the scanned
      readings nearest first, and the densities of its own cell. */
  function SensedData(me: Observer, others: seq<Observed>, cellAt: (real, real) -> Option<Cell>): SensoryData
  {
    SensoryData(
      Sightings(me, others),
      SortByDistance(ScanReadings(me.position, me.sensoryRange, cellAt)),
      CurrentResources(me.position, cellAt))
  }

  /** `collect_sensory_data`: a scan of every other organism, then of the square of
      grid offsets around the observer, then the sort by distance. */
  method CollectSensoryData(me: Observer, others: seq<Observed>, cellAt: (real, real) -> Option<Cell>)
    returns (sensory: SensoryData)
    ensures sensory == SensedData(me, others, cellAt)
  {
    var current := ZeroSlots;
    match cellAt(me.position.x, me.position.y) {
      case Some(cell) => current := cell.density;
      case None =>
    }
    var organisms: seq<Sighting> := [];
    for i := 0 to |others|
      invariant organisms == Sightings(me, others[..i])
    {
      assert others[..i + 1][..i] == others[..i];
      var o := others[i];
      var dsq := DistanceSq(me.position, o.position);
      if o.entity != me.entity && AtMost(dsq, me.sensoryRange) {
        var isPredator := IsPredatorOf(me.kind, o.kind, o.size, me.size);
        var isPrey := IsPreyOf(me.kind, o.kind, me.size, o.size);
        var isMate := o.species == me.species && o.kind == me.kind && !o.energy.IsDead()
          && AtMost(dsq, me.sensoryRange * 0.5);
        organisms := organisms + [Sighting(o.entity, o.position, dsq, isPredator, isPrey, isMate)];
      }
    }
    assert others[..|others|] == others;
    var raw := ScanGrid(me.position, me.sensoryRange, cellAt);
    sensory := SensoryData(organisms, SortByDistance(raw), current);
  }

  /** Everything the sensing pass records is sound: sightings come from other
      organisms within range, and resource readings are of the four sensed types,
      above 0.1, within range and sorted nearest first. */
  lemma SensingIsSound(me: Observer, others: seq<Observed>, cellAt: (real, real) -> Option<Cell>, s: Sighting, r: Reading)
    ensures s in Sightings(me, others) ==>
      s.entity != me.entity && AtMost(s.distanceSq, me.sensoryRange)
      && exists o :: o in others && o.entity == s.entity && o.position == s.position
    ensures r in SortByDistance(ScanReadings(me.position, me.sensoryRange, cellAt)) ==>
      SoundReading(r, me.sensoryRange)
    ensures SortedByDistance(SortByDistance(ScanReadings(me.position, me.sensoryRange, cellAt)))
  {
    SightingsExactly(me, others, s);
    var raw := ScanReadings(me.position, me.sensoryRange, cellAt);
    var radius := SearchRadius(me.sensoryRange);
    GridReadingsSound(me.position, me.sensoryRange, cellAt, radius, radius + 1);
    SortByDistanceSpec(raw);
    if r in SortByDistance(raw) {
      assert r in multiset(SortByDistance(raw));
      assert r in raw;
    }
  }

  // ---------------------------------------------------------------------------
  // Choosing the nearest sighting of a kind

  datatype Relation = PredatorRelation | PreyRelation | MateRelation

  predicate Has(s: Sighting, rel: Relation)
  {
    match rel
    case PredatorRelation => s.isPredator
    case PreyRelation => s.isPrey
    case MateRelation => s.isMate
  }

  /** `filter(flag).min_by(distance)`: the nearest sighting with the flag, the
      first one among equally near ones. */
  function Nearest(ss: seq<Sighting>, rel: Relation): Option<Sighting>
  {
    if |ss| == 0 then None
    else
      var best := Nearest(ss[..|ss| - 1], rel);
      var last := ss[|ss| - 1];
      if !Has(last, rel) then best
      else if best.None? || last.distanceSq < best.value.distanceSq then Some(last)
      else best
  }

  /** Nearest finds nothing exactly when no sighting has the flag; otherwise it
      finds a flagged sighting no farther than any other flagged one. */
  lemma {:induction false} NearestSpec(ss: seq<Sighting>, rel: Relation)
    ensures Nearest(ss, rel).None? <==> forall s :: s in ss ==> !Has(s, rel)
    ensures Nearest(ss, rel).Some? ==> Nearest(ss, rel).value in ss && Has(Nearest(ss, rel).value, rel)
    ensures Nearest(ss, rel).Some? ==>
      forall s :: s in ss && Has(s, rel) ==> Nearest(ss, rel).value.distanceSq <= s.distanceSq
  {
    if |ss| > 0 {
      var init := ss[..|ss| - 1];
      assert ss == init + [ss[|ss| - 1]];
      NearestSpec(init, rel);
    }
  }

  /** Of equally near candidates the earliest wins. */
  lemma {:induction false} NearestIsFirstMinimum(ss: seq<Sighting>, rel: Relation, j: nat)
    requires Nearest(ss, rel).Some? && j < |ss| && Has(ss[j], rel)
    requires ss[j].distanceSq == Nearest(ss, rel).value.distanceSq
    ensures exists i :: 0 <= i <= j && ss[i] == Nearest(ss, rel).value
  {
    var init := ss[..|ss| - 1];
    var last := ss[|ss| - 1];
    var best := Nearest(init, rel);
    NearestSpec(init, rel);
    if j == |ss| - 1 {
      if Nearest(ss, rel).value != last {
        assert Nearest(ss, rel) == best && best.Some?;
        var i :| 0 <= i < |init| && init[i] == best.value;
        assert ss[i] == best.value;
      }
    } else {
      assert ss[j] == init[j] && ss[j] in init;
      assert best.Some? && best.value.distanceSq <= ss[j].distanceSq;
      NearestIsFirstMinimum(init, rel, j);
      var i :| 0 <= i <= j && init[i] == best.value;
      assert ss[i] == init[i];
    }
  }

  // ---------------------------------------------------------------------------
  // Food

  /** The resources an organism type looks for, in order of preference. */
  function PreferredFood(kind: OrganismType): seq<ResourceType>
  {
    match kind
    case Producer => [Sunlight, Water, Mineral]
    case Consumer => [Prey, Plant]
    case Decomposer => [Detritus]
  }

  /** The resources that make the current cell a food source. */
  function FoodAtHand(kind: OrganismType): seq<ResourceType>
  {
    match kind
    case Producer => [Sunlight, Water]
    case Consumer => [Plant, Prey]
    case Decomposer => [Detritus]
  }

  /** `find(|r| r.type == t)`: the first reading of type t. */
  function FirstOfType(rs: seq<Reading>, t: ResourceType): Option<Reading>
  {
    if |rs| == 0 then None
    else if rs[0].resource == t then Some(rs[0])
    else FirstOfType(rs[1..], t)
  }

  /** FirstOfType finds nothing exactly when no reading has type t, and otherwise
      finds the earliest reading of that type. */
  lemma {:induction false} FirstOfTypeSpec(rs: seq<Reading>, t: ResourceType)
    ensures FirstOfType(rs, t).None? <==> forall x :: x in rs ==> x.resource != t
    ensures FirstOfType(rs, t).Some? ==>
      FirstOfType(rs, t).value.resource == t
      && exists i :: 0 <= i < |rs| && rs[i] == FirstOfType(rs, t).value && forall j :: 0 <= j < i ==> rs[j].resource != t
  {
    if |rs| > 0 && rs[0].resource != t {
      var rest := FirstOfType(rs[1..], t);
      FirstOfTypeSpec(rs[1..], t);
      assert forall x :: x in rs ==> x == rs[0] || x in rs[1..];
      if rest.Some? {
        var i :| 0 <= i < |rs[1..]| && rs[1..][i] == rest.value && forall j :: 0 <= j < i ==> rs[1..][j].resource != t;
        assert rs[i + 1] == rest.value;
      }
    } else if |rs| > 0 {
      assert rs[0] == FirstOfType(rs, t).value;
    }
  }

  /** The first preferred type whose first reading holds more than 0.2, and that reading. */
  function BestFood(prefs: seq<ResourceType>, rs: seq<Reading>): Option<Reading>
  {
    if |prefs| == 0 then None
    else
      match FirstOfType(rs, prefs[0])
      case Some(x) => if x.value > 0.2 then Some(x) else BestFood(prefs[1..], rs)
      case None => BestFood(prefs[1..], rs)
  }

  /** BestFood picks a preferred type's first reading above 0.2, and finds nothing
      exactly when no preferred type has one. */
  lemma {:induction false} BestFoodSpec(prefs: seq<ResourceType>, rs: seq<Reading>)
    ensures BestFood(prefs, rs).Some? ==>
      BestFood(prefs, rs).value.resource in prefs && BestFood(prefs, rs).value.value > 0.2
      && FirstOfType(rs, BestFood(prefs, rs).value.resource) == Some(BestFood(prefs, rs).value)
    ensures BestFood(prefs, rs).None? <==> forall t :: t in prefs ==>
      FirstOfType(rs, t).None? || FirstOfType(rs, t).value.value <= 0.2
  {
    if |prefs| > 0 {
      BestFoodSpec(prefs[1..], rs);
      FirstOfTypeSpec(rs, prefs[0]);
      assert forall t :: t in prefs ==> t == prefs[0] || t in prefs[1..];
    }
  }

  /** `find_best_food_source`: tries the preferred types in order. */
  method FindBestFoodSource(kind: OrganismType, sensory: SensoryData) returns (p: Option<Vec2>)
    ensures p.Some? <==> BestFood(PreferredFood(kind), sensory.nearbyResources).Some?
    ensures p.Some? ==> p.value == BestFood(PreferredFood(kind), sensory.nearbyResources).value.position
  {
    var prefs := PreferredFood(kind);
    var k := 0;
    while k < |prefs|
      invariant 0 <= k <= |prefs|
      invariant BestFood(prefs[k..], sensory.nearbyResources) == BestFood(prefs, sensory.nearbyResources)
    {
      assert prefs[k..][1..] == prefs[k + 1..];
      var found := FirstOfType(sensory.nearbyResources, prefs[k]);
      if found.Some? && found.value.value > 0.2 {
        return Some(found.value.position);
      }
      k := k + 1;
    }
    return None;
  }

  /** Whether the current cell holds more than 0.2 of a resource the type eats in place. */
  predicate AtFoodSource(kind: OrganismType, current: Slots)
  {
    exists t :: t in FoodAtHand(kind) && current[t.Index()] > 0.2
  }

  /** `is_at_food_source`. */
  method IsAtFoodSource(kind: OrganismType, sensory: SensoryData) returns (b: bool)
    ensures b <==> AtFoodSource(kind, sensory.currentCellResources)
  {
    var prefs := FoodAtHand(kind);
    for k := 0 to |prefs|
      invariant forall j :: 0 <= j < k ==> sensory.currentCellResources[prefs[j].Index()] <= 0.2
    {
      if sensory.currentCellResources[prefs[k].Index()] > 0.2 {
        return true;
      }
    }
    return false;
  }

  /** A Producer can only ever be sent to a Water reading: the scan never records
      Sunlight or Mineral. */
  lemma ProducerFindsOnlyWater(rs: seq<Reading>, range: real)
    requires forall r :: r in rs ==> SoundReading(r, range)
    ensures BestFood(PreferredFood(Producer), rs).Some? ==> BestFood(PreferredFood(Producer), rs).value.resource == Water
  {
    BestFoodSpec(PreferredFood(Producer), rs);
    FirstOfTypeSpec(rs, Sunlight);
    FirstOfTypeSpec(rs, Mineral);
  }

  // ---------------------------------------------------------------------------
  // The decision

  /** The outcome of `decide_behavior`: a state with its optional targets. */
  datatype Decision = Decision(state: BehaviorState, targetEntity: Option<nat>, targetPosition: Option<Vec2>)

  const FoodSeekingRatio: real := 0.3
  const HuntingRatio: real := 0.4
  const HuntingAggression: real := 0.5
  const RestingRatio: real := 0.15
  const AttackRange: real := 5.0
  const ChaseRange: real := 30.0
  const MatingRange: real := 15.0
  const SettlingTime: real := 2.0

  /** Bolder organisms let a predator come closer before fleeing. */
  function FleeThreshold(boldness: real): real
  {
    10.0 + boldness * 20.0
  }

  /** Priority 1: flee the nearest predator if it is within the flee threshold. */
  function FleeChoice(sensory: SensoryData, boldness: real): Option<Decision>
  {
    match Nearest(sensory.nearbyOrganisms, PredatorRelation)
    case Some(p) =>
      if LessThan(p.distanceSq, FleeThreshold(boldness))
      then Some(Decision(Fleeing, Some(p.entity), Some(p.position)))
      else None
    case None => None
  }

  /** Priority 2: below 30% energy, head for the best food source (or keep eating
      there if eating began less than 2 time units ago), else eat in place when the
      current cell is a food source. */
  function FoodChoice(ratio: real, kind: OrganismType, sensory: SensoryData, currentState: BehaviorState, stateTime: real): Option<Decision>
  {
    if ratio >= FoodSeekingRatio then None
    else
      match BestFood(PreferredFood(kind), sensory.nearbyResources)
      case Some(food) =>
        if currentState == Eating && stateTime < SettlingTime
        then Some(Decision(Eating, None, Some(food.position)))
        else Some(Decision(Chasing, None, Some(food.position)))
      case None =>
        if AtFoodSource(kind, sensory.currentCellResources) then Some(Decision(Eating, None, None))
        else None
  }

  /** Priority 3: an aggressive Consumer with more than 40% energy attacks the
      nearest prey within 5, or chases it within 30. */
  function HuntChoice(ratio: real, kind: OrganismType, aggression: real, sensory: SensoryData): Option<Decision>
  {
    if kind == Consumer && ratio > HuntingRatio && aggression > HuntingAggression then
      match Nearest(sensory.nearbyOrganisms, PreyRelation)
      case Some(p) =>
        if LessThan(p.distanceSq, AttackRange) then Some(Decision(Eating, Some(p.entity), Some(p.position)))
        else if LessThan(p.distanceSq, ChaseRange) then Some(Decision(Chasing, Some(p.entity), Some(p.position)))
        else None
      case None => None
    else None
  }

  /** Priority 4: at or above the reproduction threshold, court the nearest mate within 15. */
  function MateChoice(ratio: real, threshold: real, sensory: SensoryData): Option<Decision>
  {
    if ratio >= threshold then
      match Nearest(sensory.nearbyOrganisms, MateRelation)
      case Some(m) =>
        if LessThan(m.distanceSq, MatingRange) then Some(Decision(Mating, Some(m.entity), Some(m.position)))
        else None
      case None => None
    else None
  }

  /** Priority 5: rest below 15% energy. */
  function RestChoice(ratio: real): Option<Decision>
  {
    if ratio < RestingRatio then Some(Decision(Resting, None, None)) else None
  }

  /** `decide_behavior`: the first priority that applies, or Wandering. Aggression
      and boldness are the organism's expressed traits. */
  function DecideBehavior(
    energy: Energy, genome: Genome, kind: OrganismType, sensory: SensoryData,
    currentState: BehaviorState, stateTime: real, aggression: real, boldness: real): (d: Decision)
    ensures FleeChoice(sensory, boldness).Some? ==> d == FleeChoice(sensory, boldness).value
    ensures d.state == Fleeing <==> FleeChoice(sensory, boldness).Some?
    ensures d.state == Wandering ==> d.targetEntity.None? && d.targetPosition.None?
  {
    var ratio := energy.Ratio();
    var flee := FleeChoice(sensory, boldness);
    var food := FoodChoice(ratio, kind, sensory, currentState, stateTime);
    var hunt := HuntChoice(ratio, kind, aggression, sensory);
    var mate := MateChoice(ratio, ExpressReproductionThreshold(genome), sensory);
    var rest := RestChoice(ratio);
    if flee.Some? then flee.value
    else if food.Some? then food.value
    else if hunt.Some? then hunt.value
    else if mate.Some? then mate.value
    else if rest.Some? then rest.value
    else Decision(Wandering, None, None)
  }

  /** A predator closer than the flee threshold overrides everything: the result
      is Fleeing from the nearest predator, whatever the energy, food or mates. */
  lemma FleeingOverridesAll(
    energy: Energy, genome: Genome, kind: OrganismType, sensory: SensoryData,
    currentState: BehaviorState, stateTime: real, aggression: real, boldness: real)
    requires Nearest(sensory.nearbyOrganisms, PredatorRelation).Some?
    requires LessThan(Nearest(sensory.nearbyOrganisms, PredatorRelation).value.distanceSq, FleeThreshold(boldness))
    ensures var d := DecideBehavior(energy, genome, kind, sensory, currentState, stateTime, aggression, boldness);
      var p := Nearest(sensory.nearbyOrganisms, PredatorRelation).value;
      d == Decision(Fleeing, Some(p.entity), Some(p.position))
  {
  }

  /** What each outcome of the decision requires of the organism and its senses. */
  lemma DecisionConditions(
    energy: Energy, genome: Genome, kind: OrganismType, sensory: SensoryData,
    currentState: BehaviorState, stateTime: real, aggression: real, boldness: real)
    ensures var d := DecideBehavior(energy, genome, kind, sensory, currentState, stateTime, aggression, boldness);
      var ratio := energy.Ratio();
      && ((d.state == Eating || d.state == Chasing) && d.targetEntity.None? ==> ratio < FoodSeekingRatio)
      && ((d.state == Eating || d.state == Chasing) && d.targetEntity.Some? ==>
            kind == Consumer && ratio > HuntingRatio && aggression > HuntingAggression
            && d.targetEntity == Some(Nearest(sensory.nearbyOrganisms, PreyRelation).value.entity)
            && LessThan(Nearest(sensory.nearbyOrganisms, PreyRelation).value.distanceSq, ChaseRange))
      && (d.state == Mating ==>
            ratio >= ExpressReproductionThreshold(genome)
            && Nearest(sensory.nearbyOrganisms, MateRelation).Some?
            && LessThan(Nearest(sensory.nearbyOrganisms, MateRelation).value.distanceSq, MatingRange)
            && d.targetEntity == Some(Nearest(sensory.nearbyOrganisms, MateRelation).value.entity))
      && (d.state == Resting ==> ratio < RestingRatio && d.targetEntity.None? && d.targetPosition.None?)
      && (d.state == Wandering ==> ratio >= RestingRatio)
  {
  }

  /** Below 30% energy with a food source in sight and no predator to flee, the
      organism heads for that food source (or keeps eating it). */
  lemma HungryOrganismSeeksFood(
    energy: Energy, genome: Genome, kind: OrganismType, sensory: SensoryData,
    currentState: BehaviorState, stateTime: real, aggression: real, boldness: real)
    requires FleeChoice(sensory, boldness).None?
    requires energy.Ratio() < FoodSeekingRatio
    requires BestFood(PreferredFood(kind), sensory.nearbyResources).Some?
    ensures var d := DecideBehavior(energy, genome, kind, sensory, currentState, stateTime, aggression, boldness);
      (d.state == Chasing || d.state == Eating) && d.targetEntity.None?
      && d.targetPosition == Some(BestFood(PreferredFood(kind), sensory.nearbyResources).value.position)
  {
  }

  /** With the argument order of the sensing pass, a Consumer counts every Producer
      and Decomposer it sees as a predator, so one inside the flee threshold makes
      it flee; a Producer or Decomposer never sees a predator. */
  lemma PredatorFlagQuirk(me: Observer, o: Observed)
    requires Sight(me, o).Some?
    ensures me.kind == Consumer && o.kind != Consumer ==> Sight(me, o).value.isPredator
    ensures me.kind != Consumer ==> !Sight(me, o).value.isPredator && !Sight(me, o).value.isPrey
  {
  }

  // ---------------------------------------------------------------------------
  // Velocity

  /** Expressed speed scaled by the energy ratio, never below 30% of it. */
  function CurrentSpeed(genome: Genome, energy: Energy): (s: real)
    ensures s >= 0.15
  {
    var speedFactor := Max(energy.Ratio(), 0.3);
    var s := ExpressSpeed(genome) * speedFactor;
    ProductAtLeast(ExpressSpeed(genome), speedFactor, 0.5, 0.3, s);
    s
  }

  lemma ProductAtLeast(a: real, b: real, la: real, lb: real, p: real)
    requires la >= 0.0 && lb >= 0.0 && a >= la && b >= lb && p == a * b
    ensures p >= la * lb
  {
    MulNonNegative(a - la, b);
    MulNonNegative(la, b - lb);
    assert p - la * lb == (a - la) * b + la * (b - lb);
  }

  /** `calculate_behavior_velocity`. `normalize` is `normalize_or_zero`;
      `fleeHeading` and `wanderHeading` are the unit vectors `from_angle` gives
      for this moment. */
  function BehaviorVelocity(
    b: Behavior, position: Vec2, genome: Genome, energy: Energy,
    normalize: Vec2 -> Vec2, fleeHeading: Vec2, wanderHeading: Vec2): (v: Vec2)
    ensures b.state == Eating || b.state == Resting ==> v == Zero
    ensures (b.state == Chasing || b.state == Mating) && b.targetPosition.None? ==> v == Zero
  {
    var speed := CurrentSpeed(genome, energy);
    match b.state
    case Fleeing =>
      (match b.targetPosition
       case Some(from) => normalize(position.Sub(from)).Scale(speed * 1.5)
       case None => fleeHeading.Scale(speed))
    case Chasing =>
      (match b.targetPosition
       case Some(target) => normalize(target.Sub(position)).Scale(speed)
       case None => Zero)
    case Eating => Zero
    case Mating =>
      (match b.targetPosition
       case Some(target) => normalize(target.Sub(position)).Scale(speed * 0.5)
       case None => Zero)
    case Resting => Zero
    case Wandering => wanderHeading.Scale(speed * 0.7)
  }

  /** With unit-or-shorter headings, no state asks for more than one and a half
      times the current speed, and only fleeing asks for more than the speed itself. */
  lemma VelocityBounded(
    b: Behavior, position: Vec2, genome: Genome, energy: Energy,
    normalize: Vec2 -> Vec2, fleeHeading: Vec2, wanderHeading: Vec2)
    requires forall u :: normalize(u).LengthSq() <= 1.0
    requires fleeHeading.LengthSq() <= 1.0 && wanderHeading.LengthSq() <= 1.0
    ensures var s := CurrentSpeed(genome, energy);
      var v := BehaviorVelocity(b, position, genome, energy, normalize, fleeHeading, wanderHeading);
      v.LengthSq() <= 2.25 * (s * s)
      && (b.state != Fleeing ==> v.LengthSq() <= s * s)
  {
    var s := CurrentSpeed(genome, energy);
    var u, k := VelocityAsScaled(b, position, genome, energy, normalize, fleeHeading, wanderHeading);
    ScaledWithin(u, k, s, 1.5);
    if b.state != Fleeing {
      ScaledWithin(u, k, s, 1.0);
    }
  }

  /** Every state's velocity is a unit-or-shorter heading scaled by a factor of
      the current speed: at most 1.5 of it, and at most 1 of it unless fleeing. */
  lemma VelocityAsScaled(
    b: Behavior, position: Vec2, genome: Genome, energy: Energy,
    normalize: Vec2 -> Vec2, fleeHeading: Vec2, wanderHeading: Vec2) returns (u: Vec2, k: real)
    requires forall u :: normalize(u).LengthSq() <= 1.0
    requires fleeHeading.LengthSq() <= 1.0 && wanderHeading.LengthSq() <= 1.0
    ensures BehaviorVelocity(b, position, genome, energy, normalize, fleeHeading, wanderHeading) == u.Scale(k)
    ensures u.LengthSq() <= 1.0 && 0.0 <= k <= CurrentSpeed(genome, energy) * 1.5
    ensures b.state != Fleeing ==> k <= CurrentSpeed(genome, energy)
  {
    var s := CurrentSpeed(genome, energy);
    u, k := Zero, 0.0;
    match b.state {
      case Fleeing =>
        match b.targetPosition {
          case Some(from) => u, k := normalize(position.Sub(from)), s * 1.5;
          case None => u, k := fleeHeading, s;
        }
      case Chasing =>
        match b.targetPosition {
          case Some(target) => u, k := normalize(target.Sub(position)), s;
          case None =>
        }
      case Mating =>
        match b.targetPosition {
          case Some(target) => u, k := normalize(target.Sub(position)), s * 0.5;
          case None =>
        }
      case Wandering => u, k := wanderHeading, s * 0.7;
      case Eating =>
      case Resting =>
    }
  }

  /** Scaling a unit-or-shorter vector by 0 <= k <= c * s gives a squared length
      at most c * c * (s * s). */
  lemma ScaledWithin(u: Vec2, k: real, s: real, c: real)
    requires u.LengthSq() <= 1.0 && 0.0 <= k <= c * s && c >= 0.0
    ensures u.Scale(k).LengthSq() <= (c * c) * (s * s)
  {
    assert u.Scale(k).LengthSq() == k * k * u.LengthSq();
    MulNonNegative(k, k);
    assert k * k * u.LengthSq() <= k * k;
    ProductAtLeast(c * s, c * s, k, k, (c * s) * (c * s));
    assert (c * s) * (c * s) == (c * c) * (s * s);
  }

}
