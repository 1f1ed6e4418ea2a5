/** A 64 x 64 block of cells stored row-major, with the bookkeeping of which
    cells were handed out for writing, and the conversions from world
    coordinates to chunk coordinates and to local cell coordinates. */
module WorldChunk {
  import opened Util
  import opened WorldCell

  /** CHUNK_SIZE. */
  const ChunkSize: nat := 64
  const ChunkCells: nat := 4096

  predicate InChunk(x: int, y: int)
  {
    0 <= x < ChunkSize && 0 <= y < ChunkSize
  }

  /** Where local cell (x, y) lives in the row-major cell buffer. */
  function IndexOf(x: nat, y: nat): (k: nat)
    requires InChunk(x, y)
    ensures k < ChunkCells
  {
    y * ChunkSize + x
  }

  /** The local coordinates stored at buffer index k. */
  function CoordsOf(k: nat): (p: (nat, nat))
    requires k < ChunkCells
    ensures InChunk(p.0, p.1) && IndexOf(p.0, p.1) == k
  {
    (k % ChunkSize, k / ChunkSize)
  }

  lemma CoordsOfIndex(x: nat, y: nat)
    requires InChunk(x, y)
    ensures CoordsOf(IndexOf(x, y)) == (x, y)
  {
  }

  /** The coordinates of the cells that come before buffer index n in row-major order. */
  ghost function CoordsBefore(n: nat): set<(nat, nat)>
  {
    set x: nat, y: nat | x < ChunkSize && y < ChunkSize && y * ChunkSize + x < n :: (x, y)
  }

  /** The coordinates of every cell of a chunk. */
  ghost function AllCoords(): set<(nat, nat)>
  {
    set x: nat, y: nat | x < ChunkSize && y < ChunkSize :: (x, y)
  }

  lemma CoordsBeforeStep(x: nat, y: nat)
    requires InChunk(x, y)
    ensures CoordsBefore(IndexOf(x, y) + 1) == CoordsBefore(IndexOf(x, y)) + {(x, y)}
  {
    var n := IndexOf(x, y);
    forall p | p in CoordsBefore(n + 1)
      ensures p in CoordsBefore(n) + {(x, y)}
    {
      if p.1 * ChunkSize + p.0 == n {
        CoordsOfIndex(p.0, p.1);
        CoordsOfIndex(x, y);
      }
    }
  }

  lemma CoordsBeforeAll()
    ensures CoordsBefore(ChunkCells) == AllCoords()
  {
  }

  class Chunk {
    /** The row-major buffer; cell (x, y) is at index y * 64 + x. */
    const cells: array<Cell>
    var chunkX: int
    var chunkY: int
    var dirty: bool
    var dirtyCells: set<(nat, nat)>

    ghost predicate Valid()
      reads this
    {
      cells.Length == ChunkCells &&
      forall p :: p in dirtyCells ==> InChunk(p.0, p.1)
    }

    /** A clean chunk of default cells. */
    constructor (chunkX: int, chunkY: int)
      ensures Valid() && fresh(cells)
      ensures this.chunkX == chunkX && this.chunkY == chunkY
      ensures forall k :: 0 <= k < ChunkCells ==> cells[k] == DefaultCell
      ensures !dirty && dirtyCells == {}
    {
      cells := new Cell[ChunkCells](_ => DefaultCell);
      this.chunkX := chunkX;
      this.chunkY := chunkY;
      dirty := false;
      dirtyCells := {};
    }

    /** The cell at local (x, y), present exactly when both coordinates are below 64. */
    function GetCell(x: nat, y: nat): (r: Option<Cell>)
      requires Valid()
      reads this, cells
      ensures r.Some? <==> InChunk(x, y)
      ensures r.Some? ==> r.value == cells[IndexOf(x, y)]
    {
      if x < ChunkSize && y < ChunkSize then Some(cells[y * ChunkSize + x]) else None
    }

    /** Hands out the index of cell (x, y) for writing and records the write: the
        chunk becomes dirty and (x, y) joins the dirty set. Out of range, nothing
        changes. */
    method GetCellMut(x: nat, y: nat) returns (r: Option<nat>)
      requires Valid()
      modifies this
      ensures Valid()
      ensures r.Some? <==> InChunk(x, y)
      ensures r.Some? ==> r.value == IndexOf(x, y) && dirty && dirtyCells == old(dirtyCells) + {(x, y)}
      ensures r.None? ==> dirty == old(dirty) && dirtyCells == old(dirtyCells)
      ensures chunkX == old(chunkX) && chunkY == old(chunkY)
    {
      if x < ChunkSize && y < ChunkSize {
        dirty := true;
        dirtyCells := dirtyCells + {(x, y)};
        r := Some(y * ChunkSize + x);
      } else {
        r := None;
      }
    }

    method MarkClean()
      requires Valid()
      modifies this
      ensures Valid()
      ensures !dirty && dirtyCells == {}
      ensures chunkX == old(chunkX) && chunkY == old(chunkY)
    {
      dirty := false;
      dirtyCells := {};
    }

    /** Hands out the whole buffer; marks the chunk dirty without recording cells. */
    method CellsMut() returns (a: array<Cell>)
      requires Valid()
      modifies this
      ensures Valid()
      ensures a == cells
      ensures dirty && dirtyCells == old(dirtyCells)
      ensures chunkX == old(chunkX) && chunkY == old(chunkY)
    {
      dirty := true;
      a := cells;
    }
  }

  /** One world coordinate's chunk: floor(w / 64). */
  function WorldToChunkAxis(w: real): int
  {
    (w / ChunkSize as real).Floor
  }

  /** One world coordinate's local cell: its Euclidean remainder modulo 64, truncated. */
  function WorldToLocalAxis(w: real): nat
  {
    var r := w - ChunkSize as real * WorldToChunkAxis(w) as real;
    if r.Floor < 0 then 0 else r.Floor
  }

  function WorldToChunk(wx: real, wy: real): (int, int)
  {
    (WorldToChunkAxis(wx), WorldToChunkAxis(wy))
  }

  function WorldToLocal(wx: real, wy: real): (nat, nat)
  {
    (WorldToLocalAxis(wx), WorldToLocalAxis(wy))
  }

  lemma FloorIs(v: real, n: int)
    requires n as real <= v < n as real + 1.0
    ensures v.Floor == n
  {
  }

  /** The local coordinates always name a cell of the chunk, and the chunk and local
      coordinates together recover the world coordinate's integer part. */
  lemma WorldCoordinatesDecompose(wx: real, wy: real)
    ensures InChunk(WorldToLocal(wx, wy).0, WorldToLocal(wx, wy).1)
    ensures ChunkSize * WorldToChunk(wx, wy).0 + WorldToLocal(wx, wy).0 == wx.Floor
    ensures ChunkSize * WorldToChunk(wx, wy).1 + WorldToLocal(wx, wy).1 == wy.Floor
  {
    AxisDecomposes(wx);
    AxisDecomposes(wy);
  }

  lemma AxisDecomposes(w: real)
    ensures WorldToLocalAxis(w) < ChunkSize
    ensures ChunkSize * WorldToChunkAxis(w) + WorldToLocalAxis(w) == w.Floor
  {
    var q := WorldToChunkAxis(w);
    var r := w - ChunkSize as real * q as real;
    assert q as real <= w / 64.0 < q as real + 1.0;
    assert 0.0 <= r < 64.0;
    var f := w.Floor;
    FloorIs(r, f - 64 * q);
  }
}
