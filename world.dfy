/** The world systems that work chunk by chunk: creating the initial 3 x 3 block
    of chunks, the per-tick resource update of every cell, and the snapshot-based
    diffusion of densities between each cell and its in-chunk neighbours. */
module World {
  import opened Util
  import opened WorldCell
  import opened WorldChunk
  import opened Resources

  /** Densities below this become zero at the end of each resource update. */
  const QuantizeThreshold: real := 0.001

  /** How quickly densities flow towards the neighbour average. */
  const DiffusionRate: real := 0.1

  // ---------------------------------------------------------------------------
  // Initialisation

  ghost function InitialChunkCoords(): set<(int, int)>
  {
    set cx: int, cy: int | -1 <= cx <= 1 && -1 <= cy <= 1 :: (cx, cy)
  }

  lemma InitialChunkCount()
    ensures |InitialChunkCoords()| == 9
  {
    assert InitialChunkCoords() == {(-1, -1), (-1, 0), (-1, 1), (0, -1), (0, 0), (0, 1), (1, -1), (1, 0), (1, 1)};
  }

  /** The coordinates created before (cx, cy) in the loop order: every column
      left of cx, then the rows of column cx below cy. */
  ghost function CreatedBefore(cx: int, cy: int): set<(int, int)>
  {
    set i: int, j: int | -1 <= i <= cx && -1 <= j <= 1 && (i < cx || j < cy) :: (i, j)
  }

  lemma CreatedBeforeStep(cx: int, cy: int)
    requires -1 <= cx && -1 <= cy <= 1
    ensures CreatedBefore(cx, cy + 1) == CreatedBefore(cx, cy) + {(cx, cy)}
  {
    forall p | p in CreatedBefore(cx, cy) + {(cx, cy)}
      ensures p in CreatedBefore(cx, cy + 1)
    {
      if p != (cx, cy) {
        var i, j :| -1 <= i <= cx && -1 <= j <= 1 && (i < cx || j < cy) && p == (i, j);
      }
      assert -1 <= p.0 <= cx && -1 <= p.1 <= 1 && (p.0 < cx || p.1 < cy + 1);
    }
    forall p | p in CreatedBefore(cx, cy + 1)
      ensures p in CreatedBefore(cx, cy) + {(cx, cy)}
    {
      assert p == (p.0, p.1);
      if p != (cx, cy) {
        assert p.0 < cx || p.1 < cy;
      }
    }
  }

  lemma CreatedBeforeColumn(cx: int)
    ensures CreatedBefore(cx, 2) == CreatedBefore(cx + 1, -1)
  {
  }

  lemma CreatedBeforeAll()
    ensures CreatedBefore(2, -1) == InitialChunkCoords()
  {
  }

  /** Every chunk of the map is valid, clean and knows its own coordinates. */
  ghost predicate ChunksInPlace(chunks: map<(int, int), Chunk>)
    reads chunks.Values
  {
    forall p :: p in chunks ==>
      chunks[p].Valid() && chunks[p].chunkX == p.0 && chunks[p].chunkY == p.1 && !chunks[p].dirty
  }

  /** No two chunks of the map share a cell buffer. */
  predicate SeparateBuffers(chunks: map<(int, int), Chunk>)
  {
    forall p, q :: p in chunks && q in chunks && p != q ==> chunks[p].cells != chunks[q].cells
  }

  /** `initialize_world`: one fresh default chunk for every coordinate in {-1, 0, 1}^2,
      each knowing its own coordinates, no two sharing a cell buffer. */
  method InitializeWorld() returns (chunks: map<(int, int), Chunk>)
    ensures chunks.Keys == InitialChunkCoords() && |chunks| == 9
    ensures forall p :: p in chunks ==> fresh(chunks[p]) && fresh(chunks[p].cells)
    ensures ChunksInPlace(chunks) && SeparateBuffers(chunks)
  {
    chunks := map[];
    for cx := -1 to 2
      invariant chunks.Keys == CreatedBefore(cx, -1)
      invariant forall p :: p in chunks ==> fresh(chunks[p]) && fresh(chunks[p].cells)
      invariant ChunksInPlace(chunks) && SeparateBuffers(chunks)
    {
      for cy := -1 to 2
        invariant chunks.Keys == CreatedBefore(cx, cy)
        invariant forall p :: p in chunks ==> fresh(chunks[p]) && fresh(chunks[p].cells)
        invariant ChunksInPlace(chunks) && SeparateBuffers(chunks)
      {
        var chunk := new Chunk(cx, cy);
        chunks := chunks[(cx, cy) := chunk];
        CreatedBeforeStep(cx, cy);
      }
      CreatedBeforeColumn(cx);
    }
    CreatedBeforeAll();
    InitialChunkCount();
  }

  // ---------------------------------------------------------------------------
  // Regeneration and decay

  /** What one tick does to one cell: regenerate, then decay, then quantize. */
  function ResourceTick(c: Cell, dt: real): Cell
  {
    Quantized(Decayed(Regenerated(c, dt), dt), QuantizeThreshold)
  }

  /** The body of the cell loop: regenerate, decay, quantize. */
  method TickCell(cell: Cell, dt: real) returns (c: Cell)
    ensures c == ResourceTick(cell, dt)
  {
    c := RegenerateResources(cell, dt);
    c := DecayResources(c, dt);
    c := QuantizeResources(c, QuantizeThreshold);
  }

  /** `regenerate_and_decay_resources` on one chunk: every cell is fetched for
      writing, in row-major order, and updated in place. */
  method RegenerateAndDecayChunk(chunk: Chunk, dt: real)
    requires chunk.Valid()
    modifies chunk, chunk.cells
    ensures chunk.Valid()
    ensures forall k :: 0 <= k < ChunkCells ==> chunk.cells[k] == ResourceTick(old(chunk.cells[k]), dt)
    ensures chunk.dirty && chunk.dirtyCells == old(chunk.dirtyCells) + AllCoords()
    ensures chunk.chunkX == old(chunk.chunkX) && chunk.chunkY == old(chunk.chunkY)
  {
    ghost var before := chunk.cells[..];
    for y := 0 to ChunkSize
      invariant chunk.Valid()
      invariant forall k :: 0 <= k < y * ChunkSize ==> chunk.cells[k] == ResourceTick(before[k], dt)
      invariant forall k :: y * ChunkSize <= k < ChunkCells ==> chunk.cells[k] == before[k]
      invariant chunk.dirtyCells == old(chunk.dirtyCells) + CoordsBefore(y * ChunkSize)
      invariant y > 0 ==> chunk.dirty
      invariant chunk.chunkX == old(chunk.chunkX) && chunk.chunkY == old(chunk.chunkY)
    {
      for x := 0 to ChunkSize
        invariant chunk.Valid()
        invariant forall k :: 0 <= k < y * ChunkSize + x ==> chunk.cells[k] == ResourceTick(before[k], dt)
        invariant forall k :: y * ChunkSize + x <= k < ChunkCells ==> chunk.cells[k] == before[k]
        invariant chunk.dirtyCells == old(chunk.dirtyCells) + CoordsBefore(y * ChunkSize + x)
        invariant y > 0 || x > 0 ==> chunk.dirty
        invariant chunk.chunkX == old(chunk.chunkX) && chunk.chunkY == old(chunk.chunkY)
      {
        TickCellAt(chunk, x, y, dt, before);
        CoordsBeforeStep(x, y);
      }
    }
    CoordsBeforeAll();
  }

  /** The body of the chunk loop for local cell (x, y): fetch it for writing and
      tick it; the cells before it in row-major order are already ticked. */
  method TickCellAt(chunk: Chunk, x: nat, y: nat, dt: real, ghost before: seq<Cell>)
    requires chunk.Valid() && InChunk(x, y) && |before| == ChunkCells
    requires forall k :: 0 <= k < IndexOf(x, y) ==> chunk.cells[k] == ResourceTick(before[k], dt)
    requires forall k :: IndexOf(x, y) <= k < ChunkCells ==> chunk.cells[k] == before[k]
    modifies chunk, chunk.cells
    ensures chunk.Valid()
    ensures forall k :: 0 <= k < IndexOf(x, y) + 1 ==> chunk.cells[k] == ResourceTick(before[k], dt)
    ensures forall k :: IndexOf(x, y) + 1 <= k < ChunkCells ==> chunk.cells[k] == before[k]
    ensures chunk.dirty && chunk.dirtyCells == old(chunk.dirtyCells) + {(x, y)}
    ensures chunk.chunkX == old(chunk.chunkX) && chunk.chunkY == old(chunk.chunkY)
  {
    var idx := chunk.GetCellMut(x, y);
    if idx.Some? {
      var c := TickCell(chunk.cells[idx.value], dt);
      chunk.cells[idx.value] := c;
    }
  }

  /** From a non-negative density, non-negative humidity and a non-negative time
      step, a tick leaves the density in [0, 1], and either zero or at least the
      quantization threshold. */
  lemma ResourceTickInUnitRange(c: Cell, dt: real, i: nat)
    requires i < ResourceCount
    requires c.density[i] >= 0.0
    requires c.humidity >= 0.0 && dt >= 0.0
    ensures 0.0 <= ResourceTick(c, dt).density[i] <= 1.0
    ensures ResourceTick(c, dt).density[i] == 0.0 || ResourceTick(c, dt).density[i] >= QuantizeThreshold
  {
    var r := Regenerated(c, dt);
    RegenerationNeverLowers(c, dt, i);
    RegeneratedAtMostMax(c, dt, i);
    var d := Decayed(r, dt);
    DecayNeverRaises(r, dt, i);
    if DecayRates[i] > 0.0 {
      assert d.density[i] >= 0.0;
    }
  }

  // ---------------------------------------------------------------------------
  // Diffusion: the neighbour sums, as the loop over dy and dx accumulates them

  /** Whether the neighbour at offset (dx, dy) exists: not the cell itself, and inside
      the chunk. A coordinate of -1 wraps to a huge `usize` and fails the bound. */
  predicate IsNeighbor(x: int, y: int, dx: int, dy: int)
  {
    !(dx == 0 && dy == 0) && InChunk(x + dx, y + dy)
  }

  function NeighborTerm(snap: seq<Slots>, x: int, y: int, dx: int, dy: int, i: nat): real
    requires |snap| == ChunkCells && i < ResourceCount
  {
    if IsNeighbor(x, y, dx, dy) then snap[IndexOf(x + dx, y + dy)][i] else 0.0
  }

  /** Slot i summed over offsets dx = -1 .. n - 2 of row dy. */
  function RowSum(snap: seq<Slots>, x: int, y: int, dy: int, i: nat, n: nat): real
    requires |snap| == ChunkCells && i < ResourceCount && n <= 3
  {
    if n == 0 then 0.0 else RowSum(snap, x, y, dy, i, n - 1) + NeighborTerm(snap, x, y, n - 2, dy, i)
  }

  /** Slot i summed over rows dy = -1 .. m - 2. */
  function BlockSum(snap: seq<Slots>, x: int, y: int, i: nat, m: nat): real
    requires |snap| == ChunkCells && i < ResourceCount && m <= 3
  {
    if m == 0 then 0.0 else BlockSum(snap, x, y, i, m - 1) + RowSum(snap, x, y, m - 2, i, 3)
  }

  function RowCount(x: int, y: int, dy: int, n: nat): nat
    requires n <= 3
  {
    if n == 0 then 0 else RowCount(x, y, dy, n - 1) + Hit(x, y, n - 2, dy)
  }

  function BlockCount(x: int, y: int, m: nat): nat
    requires m <= 3
  {
    if m == 0 then 0 else BlockCount(x, y, m - 1) + RowCount(x, y, m - 2, 3)
  }

  function NeighborSum(snap: seq<Slots>, x: int, y: int, i: nat): real
    requires |snap| == ChunkCells && i < ResourceCount
  {
    BlockSum(snap, x, y, i, 3)
  }

  function NeighborCount(x: int, y: int): nat
  {
    BlockCount(x, y, 3)
  }

  /** How many of the offsets -1, 0, 1 keep coordinate c inside the chunk. */
  function Span(c: int): nat
  {
    (if c > 0 then 1 else 0) + 1 + (if c < ChunkSize - 1 then 1 else 0)
  }

  /** The neighbour count is the product of the two spans less the cell itself:
      3 at a corner, 5 on an edge, 8 inside, and never 0. */
  lemma NeighborCountShape(x: int, y: int)
    requires InChunk(x, y)
    ensures NeighborCount(x, y) == Span(x) * Span(y) - 1
    ensures 3 <= NeighborCount(x, y) <= 8
    ensures NeighborCount(x, y) == 3 <==> (x == 0 || x == ChunkSize - 1) && (y == 0 || y == ChunkSize - 1)
    ensures NeighborCount(x, y) == 8 <==> 0 < x < ChunkSize - 1 && 0 < y < ChunkSize - 1
    ensures NeighborCount(x, y) == 5 <==> (x == 0 || x == ChunkSize - 1) != (y == 0 || y == ChunkSize - 1)
  {
    var sx := Span(x);
    RowCountValue(x, y, -1);
    RowCountValue(x, y, 0);
    RowCountValue(x, y, 1);
    assert BlockCount(x, y, 1) == RowCount(x, y, -1, 3);
    assert BlockCount(x, y, 2) == RowCount(x, y, -1, 3) + RowCount(x, y, 0, 3);
    if y > 0 && y < ChunkSize - 1 {
      assert Span(y) == 3;
    } else {
      assert Span(y) == 2;
    }
  }

  function Hit(x: int, y: int, dx: int, dy: int): nat
  {
    if IsNeighbor(x, y, dx, dy) then 1 else 0
  }

  lemma RowCountValue(x: int, y: int, dy: int)
    requires InChunk(x, y)
    ensures RowCount(x, y, dy, 3) == Hit(x, y, -1, dy) + Hit(x, y, 0, dy) + Hit(x, y, 1, dy)
    ensures RowCount(x, y, dy, 3) == if dy == 0 then Span(x) - 1 else if InChunk(x, y + dy) then Span(x) else 0
  {
    assert RowCount(x, y, dy, 1) == Hit(x, y, -1, dy);
    assert RowCount(x, y, dy, 2) == Hit(x, y, -1, dy) + Hit(x, y, 0, dy);
  }

  // ---------------------------------------------------------------------------
  // Diffusion: the update of one cell

  /** Moves the old value towards the neighbour average by DiffusionRate * dt of the
      gap, then clamps with `max(0).min(1)`. */
  function DiffusedSlot(own: real, average: real, dt: real): real
  {
    Min(Max(own + (average - own) * DiffusionRate * dt, 0.0), 1.0)
  }

  /** The densities flow_resources gives the cell at buffer index k, computed only
      from the snapshot. */
  function Diffused(snap: seq<Slots>, k: nat, dt: real): Slots
    requires |snap| == ChunkCells && k < ChunkCells
  {
    var p := CoordsOf(k);
    var count := NeighborCount(p.0, p.1);
    if count > 0 then
      seq(ResourceCount, i requires 0 <= i < ResourceCount =>
        DiffusedSlot(snap[k][i], NeighborSum(snap, p.0, p.1, i) / count as real, dt))
    else snap[k]
  }

  /** The densities of a cell buffer. */
  function Densities(cs: seq<Cell>): (d: seq<Slots>)
    ensures |d| == |cs|
  {
    seq(|cs|, k requires 0 <= k < |cs| => cs[k].density)
  }

  /** `flow_resources` neighbour accumulation for cell (x, y) of the snapshot. */
  method NeighborStats(temp: array<Slots>, x: nat, y: nat) returns (sum: Slots, count: nat)
    requires temp.Length == ChunkCells && InChunk(x, y)
    ensures count == NeighborCount(x, y)
    ensures forall i :: 0 <= i < ResourceCount ==> sum[i] == NeighborSum(temp[..], x, y, i)
  {
    sum := ZeroSlots;
    count := 0;
    for dy := -1 to 2
      invariant count == BlockCount(x, y, dy + 1)
      invariant forall i :: 0 <= i < ResourceCount ==> sum[i] == BlockSum(temp[..], x, y, i, dy + 1)
    {
      for dx := -1 to 2
        invariant count == BlockCount(x, y, dy + 1) + RowCount(x, y, dy, dx + 1)
        invariant forall i :: 0 <= i < ResourceCount ==>
          sum[i] == BlockSum(temp[..], x, y, i, dy + 1) + RowSum(temp[..], x, y, dy, i, dx + 1)
      {
        sum, count := AddNeighbor(temp, x, y, dx, dy, sum, count);
      }
    }
  }

  /** The body of the neighbour loop for offset (dx, dy): an existing neighbour
      adds its densities to the sum and one to the count. */
  method AddNeighbor(temp: array<Slots>, x: nat, y: nat, dx: int, dy: int, sum0: Slots, count0: nat)
    returns (sum: Slots, count: nat)
    requires temp.Length == ChunkCells
    ensures count == count0 + Hit(x, y, dx, dy)
    ensures forall i :: 0 <= i < ResourceCount ==> sum[i] == sum0[i] + NeighborTerm(temp[..], x, y, dx, dy, i)
  {
    sum, count := sum0, count0;
    if !(dx == 0 && dy == 0) {
      var nx, ny := x + dx, y + dy;
      if 0 <= nx < ChunkSize && 0 <= ny < ChunkSize {
        for i := 0 to ResourceCount
          invariant forall j :: 0 <= j < i ==> sum[j] == sum0[j] + temp[..][IndexOf(nx, ny)][j]
          invariant forall j :: i <= j < ResourceCount ==> sum[j] == sum0[j]
        {
          sum := sum[i := sum[i] + temp[ny * ChunkSize + nx][i]];
        }
        count := count + 1;
      }
    }
  }

  /** The inner loop of the second pass: every slot moves towards its neighbour
      average; only the densities change. */
  method DiffuseCell(cell: Cell, own: Slots, sum: Slots, count: nat, dt: real) returns (c: Cell)
    requires count > 0 && cell.density == own
    ensures c == cell.(density := c.density)
    ensures forall i :: 0 <= i < ResourceCount ==> c.density[i] == DiffusedSlot(own[i], sum[i] / count as real, dt)
  {
    c := cell;
    for i := 0 to ResourceCount
      invariant c == cell.(density := c.density)
      invariant forall j :: 0 <= j < i ==> c.density[j] == DiffusedSlot(own[j], sum[j] / count as real, dt)
      invariant forall j :: i <= j < ResourceCount ==> c.density[j] == cell.density[j]
    {
      var neighborAvg := sum[i] / count as real;
      var diff := neighborAvg - own[i];
      var v := c.density[i] + diff * DiffusionRate * dt;
      c := c.(density := c.density[i := Min(Max(v, 0.0), 1.0)]);
    }
  }

  /** One iteration of the second pass: cell (x, y) is fetched for writing and
      rewritten from the snapshot; no other cell changes. */
  method FlowCell(chunk: Chunk, temp: array<Slots>, ghost snap: seq<Slots>, x: nat, y: nat, dt: real, ghost before: seq<Cell>)
    requires chunk.Valid() && InChunk(x, y)
    requires temp.Length == ChunkCells && temp[..] == snap && |before| == ChunkCells
    requires forall k :: 0 <= k < IndexOf(x, y) ==> chunk.cells[k] == before[k].(density := Diffused(snap, k, dt))
    requires forall k :: IndexOf(x, y) <= k < ChunkCells ==> chunk.cells[k] == before[k]
    requires before[IndexOf(x, y)].density == snap[IndexOf(x, y)]
    modifies chunk, chunk.cells
    ensures chunk.Valid()
    ensures forall k :: 0 <= k < IndexOf(x, y) + 1 ==> chunk.cells[k] == before[k].(density := Diffused(snap, k, dt))
    ensures forall k :: IndexOf(x, y) + 1 <= k < ChunkCells ==> chunk.cells[k] == before[k]
    ensures chunk.dirty && chunk.dirtyCells == old(chunk.dirtyCells) + {(x, y)}
    ensures chunk.chunkX == old(chunk.chunkX) && chunk.chunkY == old(chunk.chunkY)
  {
    var sum, count := NeighborStats(temp, x, y);
    var idx := chunk.GetCellMut(x, y);
    if idx.Some? {
      var k := idx.value;
      CoordsOfIndex(x, y);
      NeighborCountShape(x, y);
      if count > 0 {
        var own := temp[k];
        var c := DiffuseCell(chunk.cells[k], own, sum, count, dt);
        assert c.density == Diffused(snap, k, dt) by {
          forall i | 0 <= i < ResourceCount
            ensures c.density[i] == Diffused(snap, k, dt)[i]
          {
            assert CoordsOf(k) == (x, y);
            assert sum[i] == NeighborSum(snap, x, y, i);
          }
        }
        chunk.cells[k] := c;
      }
    }
  }

  /** `flow_resources` on one chunk: a first pass copies every density into a
      snapshot, a second pass rewrites every cell from the snapshot alone. */
  method FlowResources(chunk: Chunk, dt: real)
    requires chunk.Valid()
    modifies chunk, chunk.cells
    ensures chunk.Valid()
    ensures forall k :: 0 <= k < ChunkCells ==>
      chunk.cells[k] == old(chunk.cells[k]).(density := Diffused(Densities(old(chunk.cells[..])), k, dt))
    ensures chunk.dirty && chunk.dirtyCells == old(chunk.dirtyCells) + AllCoords()
    ensures chunk.chunkX == old(chunk.chunkX) && chunk.chunkY == old(chunk.chunkY)
  {
    var temp := SnapshotDensities(chunk);
    FlowPass(chunk, temp, temp[..], dt);
  }

  /** The first pass: a fresh buffer holding every cell's densities. */
  method SnapshotDensities(chunk: Chunk) returns (temp: array<Slots>)
    requires chunk.Valid()
    ensures fresh(temp) && temp[..] == Densities(chunk.cells[..])
  {
    ghost var snap := Densities(chunk.cells[..]);
    temp := new Slots[ChunkCells](_ => ZeroSlots);
    for y := 0 to ChunkSize
      modifies temp
      invariant forall k :: 0 <= k < y * ChunkSize ==> temp[k] == snap[k]
    {
      for x := 0 to ChunkSize
        modifies temp
        invariant forall k :: 0 <= k < y * ChunkSize + x ==> temp[k] == snap[k]
      {
        var c := chunk.GetCell(x, y);
        if c.Some? {
          temp[y * ChunkSize + x] := c.value.density;
        }
      }
    }
    assert temp[..] == snap;
  }

  /** The second pass: every cell, in row-major order, rewritten from the snapshot. */
  method FlowPass(chunk: Chunk, temp: array<Slots>, ghost snap: seq<Slots>, dt: real)
    requires chunk.Valid() && temp.Length == ChunkCells && temp[..] == snap
    requires snap == Densities(chunk.cells[..])
    modifies chunk, chunk.cells
    ensures chunk.Valid()
    ensures forall k :: 0 <= k < ChunkCells ==> chunk.cells[k] == old(chunk.cells[k]).(density := Diffused(snap, k, dt))
    ensures chunk.dirty && chunk.dirtyCells == old(chunk.dirtyCells) + AllCoords()
    ensures chunk.chunkX == old(chunk.chunkX) && chunk.chunkY == old(chunk.chunkY)
  {
    ghost var before := chunk.cells[..];
    for y := 0 to ChunkSize
      invariant chunk.Valid()
      invariant temp[..] == snap
      invariant forall k :: 0 <= k < y * ChunkSize ==> chunk.cells[k] == before[k].(density := Diffused(snap, k, dt))
      invariant forall k :: y * ChunkSize <= k < ChunkCells ==> chunk.cells[k] == before[k]
      invariant chunk.dirtyCells == old(chunk.dirtyCells) + CoordsBefore(y * ChunkSize)
      invariant y > 0 ==> chunk.dirty
      invariant chunk.chunkX == old(chunk.chunkX) && chunk.chunkY == old(chunk.chunkY)
    {
      for x := 0 to ChunkSize
        invariant chunk.Valid()
        invariant temp[..] == snap
        invariant forall k :: 0 <= k < y * ChunkSize + x ==> chunk.cells[k] == before[k].(density := Diffused(snap, k, dt))
        invariant forall k :: y * ChunkSize + x <= k < ChunkCells ==> chunk.cells[k] == before[k]
        invariant chunk.dirtyCells == old(chunk.dirtyCells) + CoordsBefore(y * ChunkSize + x)
        invariant y > 0 || x > 0 ==> chunk.dirty
        invariant chunk.chunkX == old(chunk.chunkX) && chunk.chunkY == old(chunk.chunkY)
      {
        FlowCell(chunk, temp, snap, x, y, dt, before);
        CoordsBeforeStep(x, y);
      }
    }
    CoordsBeforeAll();
  }

  // ---------------------------------------------------------------------------
  // Diffusion: properties

  /** Every diffused density is in [0, 1]. */
  lemma DiffusedInUnitRange(snap: seq<Slots>, k: nat, dt: real, i: nat)
    requires |snap| == ChunkCells && k < ChunkCells && i < ResourceCount
    ensures 0.0 <= Diffused(snap, k, dt)[i] <= 1.0
  {
    var p := CoordsOf(k);
    NeighborCountShape(p.0, p.1);
  }

  /** A density in [0, 1] never falls when the neighbour average is at least as high,
      and never rises when it is at most as high. */
  lemma DiffusionFollowsGradient(own: real, average: real, dt: real)
    requires 0.0 <= own <= 1.0 && dt >= 0.0
    ensures average >= own ==> DiffusedSlot(own, average, dt) >= own
    ensures average <= own ==> DiffusedSlot(own, average, dt) <= own
  {
    var step := (average - own) * DiffusionRate * dt;
    if average >= own {
      MulNonNegative(average - own, DiffusionRate * dt);
      assert step >= 0.0;
    } else {
      MulNonNegative(own - average, DiffusionRate * dt);
      assert step <= 0.0;
    }
  }

  /** With 0 <= 0.1 * dt <= 1 and values in [0, 1], the new density lies between the
      old value and the neighbour average. */
  lemma DiffusionStaysBetween(own: real, average: real, dt: real)
    requires 0.0 <= own <= 1.0 && 0.0 <= average <= 1.0
    requires 0.0 <= DiffusionRate * dt <= 1.0
    ensures Min(own, average) <= DiffusedSlot(own, average, dt) <= Max(own, average)
  {
    var t := DiffusionRate * dt;
    var v := own + (average - own) * t;
    assert v == own * (1.0 - t) + average * t;
    if own <= average {
      MulNonNegative(average - own, t);
      MulNonNegative(average - own, 1.0 - t);
      assert own <= v <= average;
    } else {
      MulNonNegative(own - average, t);
      MulNonNegative(own - average, 1.0 - t);
      assert average <= v <= own;
    }
  }

  /** An illustration on one input, not a general property: an empty cell with
      eight full neighbours, for one unit of time, reaches 0.1. */
  lemma DiffusionExample()
    ensures DiffusedSlot(0.0, 8.0 / 8.0, 1.0) == 0.1
  {
  }

  // ---------------------------------------------------------------------------
  // Diffusion: the visiting order does not matter

  /** The cell buffer after rewriting, in the given order, the cells it lists, each
      from the snapshot. */
  function ApplyInOrder(snap: seq<Slots>, cs: seq<Cell>, order: seq<nat>, dt: real): (r: seq<Cell>)
    requires |snap| == ChunkCells && |cs| == ChunkCells
    requires forall j :: 0 <= j < |order| ==> order[j] < ChunkCells
    ensures |r| == ChunkCells
    decreases |order|
  {
    if |order| == 0 then cs
    else
      var k := order[|order| - 1];
      var prev := ApplyInOrder(snap, cs, order[..|order| - 1], dt);
      prev[k := prev[k].(density := Diffused(snap, k, dt))]
  }

  /** After any visiting order, a cell is rewritten exactly when the order lists it,
      and then to its snapshot-derived value. */
  lemma {:induction false} ApplyInOrderAt(snap: seq<Slots>, cs: seq<Cell>, order: seq<nat>, dt: real, k: nat)
    requires |snap| == ChunkCells && |cs| == ChunkCells && k < ChunkCells
    requires forall j :: 0 <= j < |order| ==> order[j] < ChunkCells
    ensures ApplyInOrder(snap, cs, order, dt)[k] ==
      if k in order then cs[k].(density := Diffused(snap, k, dt)) else cs[k]
    decreases |order|
  {
    if |order| > 0 {
      var init := order[..|order| - 1];
      ApplyInOrderAt(snap, cs, init, dt, k);
      assert order == init + [order[|order| - 1]];
      assert k in order <==> k in init || k == order[|order| - 1];
    }
  }

  /** Two visiting orders that cover the same cells give the same buffer, repeats
      included; the order flow_resources uses is therefore immaterial. */
  lemma OrderIndependent(snap: seq<Slots>, cs: seq<Cell>, o1: seq<nat>, o2: seq<nat>, dt: real)
    requires |snap| == ChunkCells && |cs| == ChunkCells
    requires forall j :: 0 <= j < |o1| ==> o1[j] < ChunkCells
    requires forall j :: 0 <= j < |o2| ==> o2[j] < ChunkCells
    requires forall k :: k in o1 <==> k in o2
    ensures ApplyInOrder(snap, cs, o1, dt) == ApplyInOrder(snap, cs, o2, dt)
  {
    forall k | 0 <= k < ChunkCells
      ensures ApplyInOrder(snap, cs, o1, dt)[k] == ApplyInOrder(snap, cs, o2, dt)[k]
    {
      ApplyInOrderAt(snap, cs, o1, dt, k);
      ApplyInOrderAt(snap, cs, o2, dt, k);
    }
  }

  /** The result of FlowResources is the buffer any covering visiting order produces. */
  lemma FlowMatchesAnyOrder(cs: seq<Cell>, order: seq<nat>, dt: real)
    requires |cs| == ChunkCells
    requires forall j :: 0 <= j < |order| ==> order[j] < ChunkCells
    requires forall k :: 0 <= k < ChunkCells ==> k in order
    ensures ApplyInOrder(Densities(cs), cs, order, dt) ==
      seq(ChunkCells, k requires 0 <= k < ChunkCells => cs[k].(density := Diffused(Densities(cs), k, dt)))
  {
    forall k | 0 <= k < ChunkCells
      ensures ApplyInOrder(Densities(cs), cs, order, dt)[k] == cs[k].(density := Diffused(Densities(cs), k, dt))
    {
      ApplyInOrderAt(Densities(cs), cs, order, dt, k);
    }
  }
}
