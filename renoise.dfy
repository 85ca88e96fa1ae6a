/**
 * Chunk and world construction of renoise (src/renoise.c:20-53): a chunk
 * records its coordinates, frequency, lattice phase offsets and gradient
 * point counts and owns a heap array of gradient vectors filled one by one;
 * a world owns a heap array of `world_size * world_size` chunks in row-major
 * order, filled one by one.
 */
module Renoise {
  import opened Lattice
  import opened Grid

  /** A gradient vector of the lattice (`Renoise_Gradient_Point`). */
  datatype GradientPoint = GradientPoint(x: real, y: real)

  /**
   * Where gradient vectors come from. renoise takes an angle from the C
   * library's process-wide `random()` and returns its cosine and sine; here
   * the vectors handed out are an arbitrary sequence `draw(0), draw(1), ...`
   * fixed when the source is made, and `drawn` counts how many were taken.
   */
  class GradientSource {
    const draw: nat -> GradientPoint
    var drawn: nat

    constructor (draw: nat -> GradientPoint)
      ensures this.draw == draw && drawn == 0
    {
      this.draw := draw;
      drawn := 0;
    }

    /** `renoise_gradient_point_generate`: the next vector of the source. */
    method Next() returns (g: GradientPoint)
      modifies this
      ensures g == draw(old(drawn)) && drawn == old(drawn) + 1
    {
      g := draw(drawn);
      drawn := drawn + 1;
    }

    /** The `count` vectors handed out from position `start` on. */
    function Draws(start: nat, count: nat): seq<GradientPoint> {
      seq(count, k requires 0 <= k => draw(start + k))
    }
  }

  /** A chunk's sample grid before any sample is computed: all zeros. */
  function ZeroPoints(): seq<seq<real>> {
    seq(ChunkSize, _ => seq(ChunkSize, _ => 0.0))
  }

  /**
   * `Renoise_Chunk`, with the field names src/renoise.c uses. The gradient
   * array is on the heap; the sample grid `points` is part of the record.
   */
  datatype Chunk = Chunk(
    gradPoints: array<GradientPoint>,
    gradPointCountX: int,
    gradPointCountY: int,
    chunkX: int,
    chunkY: int,
    gradOffsetX: real,
    gradOffsetY: real,
    frequency: real,
    points: seq<seq<real>>)

  /** Number of gradient vectors of the chunk at column x, row y. */
  function ChunkPointTotal(x: nat, y: nat, frequency: real): nat
    requires frequency >= 0.0
  {
    MulMono(0, WrittenGradPointCount(x, frequency), WrittenGradPointCount(y, frequency));
    WrittenGradPointCount(x, frequency) * WrittenGradPointCount(y, frequency)
  }

  /**
   * The chunk is the one `renoise_chunk_generate(x, y, frequency)` builds:
   * coordinates and frequency as given, offsets and counts from the lattice
   * arithmetic as src/renoise.c:27-30 writes it (`WrittenGradOffset`,
   * `WrittenGradPointCount`), `count_x * count_y` gradient vectors, samples
   * unset.
   */
  ghost predicate GeneratedAt(chunk: Chunk, x: nat, y: nat, frequency: real)
    requires frequency >= 0.0
  {
    && chunk.chunkX == x && chunk.chunkY == y
    && chunk.frequency == frequency
    && chunk.gradOffsetX == WrittenGradOffset(x, frequency)
    && chunk.gradOffsetY == WrittenGradOffset(y, frequency)
    && chunk.gradPointCountX == WrittenGradPointCount(x, frequency)
    && chunk.gradPointCountY == WrittenGradPointCount(y, frequency)
    && chunk.gradPoints.Length == ChunkPointTotal(x, y, frequency)
    && chunk.points == ZeroPoints()
  }

  /**
   * `renoise_chunk_generate`: computes the chunk's lattice extent, phase
   * offsets and gradient point counts, allocates `count_x * count_y`
   * gradient vectors and fills them, in index order, from the source.
   */
  method ChunkGenerate(chunkX: nat, chunkY: nat, frequency: real, source: GradientSource)
    returns (chunk: Chunk)
    requires frequency >= 0.0
    modifies source
    ensures GeneratedAt(chunk, chunkX, chunkY, frequency)
    ensures fresh(chunk.gradPoints)
    ensures chunk.gradPoints[..] == source.Draws(old(source.drawn), chunk.gradPoints.Length)
    ensures source.drawn == old(source.drawn) + chunk.gradPoints.Length
  {
    var gradPointSize := ChunkSize as real * frequency;
    var gradPointSizeDecimal := Fmod1(gradPointSize);
    var gradOffsetX := Fmod1(Times(chunkX, gradPointSizeDecimal));
    var gradOffsetY := Fmod1(Times(chunkY, gradPointSizeDecimal));
    var gradPointCountX := Ceil(gradPointSize - gradOffsetX);
    var gradPointCountY := Ceil(gradPointSize - gradOffsetY);

    assert gradPointCountX == WrittenGradPointCount(chunkX, frequency);
    assert gradPointCountY == WrittenGradPointCount(chunkY, frequency);
    MulMono(0, gradPointCountX, gradPointCountY);
    var gradPointCount: nat := gradPointCountX * gradPointCountY;
    var gradPoints := new GradientPoint[gradPointCount];
    for i := 0 to gradPointCount
      invariant source.drawn == old(source.drawn) + i
      invariant gradPoints[..i] == source.Draws(old(source.drawn), i)
    {
      gradPoints[i] := source.Next();
    }
    assert gradPoints[..] == gradPoints[..gradPointCount];
    chunk := Chunk(gradPoints, gradPointCountX, gradPointCountY, chunkX, chunkY,
                   gradOffsetX, gradOffsetY, frequency, ZeroPoints());
  }

  /** `Renoise_World`, with the field names src/renoise.c uses. */
  datatype World = World(chunks: array<Chunk>, worldSize: int, frequency: real)

  /**
   * The chunk is the one `renoise_world_create` generates for entry i of a
   * world `size` chunks wide: the chunk at column `i % size`, row `i / size`.
   */
  ghost predicate GeneratedForEntry(chunk: Chunk, i: nat, size: nat, frequency: real)
    requires frequency >= 0.0
  {
    && i < size * size
    && GeneratedAt(chunk, ChunkCoords(i, size).0, ChunkCoords(i, size).1, frequency)
  }

  /** Every entry of `chunks` is the chunk generated for that entry. */
  ghost predicate EntriesGenerated(chunks: seq<Chunk>, size: nat, frequency: real)
    requires frequency >= 0.0
  {
    forall i :: 0 <= i < |chunks| ==> GeneratedForEntry(chunks[i], i, size, frequency)
  }

  /**
   * The world is the one `renoise_world_create(size, frequency)` builds:
   * size and frequency as given, and every entry of its row-major chunk
   * array generated for that entry.
   */
  ghost predicate WorldGenerated(world: World, size: nat, frequency: real)
    requires frequency >= 0.0
    reads world.chunks
  {
    && world.worldSize == size
    && world.frequency == frequency
    && world.chunks.Length == size * size
    && EntriesGenerated(world.chunks[..], size, frequency)
  }

  /** Gradient vectors of the chunks at indices `0 .. i - 1` of a world `size` chunks wide. */
  function DrawsBefore(size: nat, frequency: real, i: nat): nat
    requires frequency >= 0.0 && i <= size * size
  {
    if i == 0 then 0
    else
      var (x, y) := ChunkCoords(i - 1, size);
      DrawsBefore(size, frequency, i - 1) + ChunkPointTotal(x, y, frequency)
  }

  /**
   * If chunk k of a world's chunk sequence took the vectors from position
   * `starts[k]` up to `starts[k + 1]`, and every chunk has the size it is
   * generated with, then chunk i started `DrawsBefore(size, frequency, i)`
   * vectors after the first.
   */
  lemma {:induction false} DrawStarts(size: nat, frequency: real, chunks: seq<Chunk>, starts: seq<nat>, i: nat)
    requires frequency >= 0.0
    requires |chunks| == size * size && |starts| == |chunks| + 1 && i <= |chunks|
    requires EntriesGenerated(chunks, size, frequency)
    requires forall k :: 0 <= k < |chunks| ==> starts[k + 1] == starts[k] + chunks[k].gradPoints.Length
    ensures starts[i] == starts[0] + DrawsBefore(size, frequency, i)
  {
    if i > 0 {
      DrawStarts(size, frequency, chunks, starts, i - 1);
    }
  }

  /**
   * Vector j of entry i of `chunks` is the one the source hands out at
   * position `first + DrawsBefore(size, frequency, i) + j`: the entries took
   * their vectors in index order, each right after the entry before it.
   */
  ghost predicate DrawnFrom(chunks: array<Chunk>, size: nat, frequency: real, first: nat, source: GradientSource)
    requires frequency >= 0.0 && chunks.Length == size * size
    reads chunks, set i | 0 <= i < chunks.Length :: chunks[i].gradPoints
  {
    forall i, j :: 0 <= i < chunks.Length && 0 <= j < chunks[i].gradPoints.Length ==>
      chunks[i].gradPoints[j] == source.draw(first + DrawsBefore(size, frequency, i) + j)
  }

  /**
   * Chunks that took consecutive runs of vectors, each starting where the
   * one before it ended, hold, at vector j of chunk i, the vector drawn at
   * position `DrawsBefore(size, frequency, i) + j` after the first.
   */
  lemma DrawnInOrder(size: nat, frequency: real, chunks: array<Chunk>, starts: seq<nat>, first: nat, source: GradientSource)
    requires frequency >= 0.0
    requires chunks.Length == size * size && |starts| == chunks.Length + 1 && starts[0] == first
    requires EntriesGenerated(chunks[..], size, frequency)
    requires forall k :: 0 <= k < chunks.Length ==> starts[k + 1] == starts[k] + chunks[k].gradPoints.Length
    requires forall k :: 0 <= k < chunks.Length ==>
      chunks[k].gradPoints[..] == source.Draws(starts[k], chunks[k].gradPoints.Length)
    ensures DrawnFrom(chunks, size, frequency, first, source)
  {
    forall i, j | 0 <= i < chunks.Length && 0 <= j < chunks[i].gradPoints.Length
      ensures chunks[i].gradPoints[j] == source.draw(first + DrawsBefore(size, frequency, i) + j)
    {
      DrawStarts(size, frequency, chunks[..], starts, i);
      assert chunks[i].gradPoints[j] == chunks[i].gradPoints[..][j];
    }
  }

  /**
   * The generation loop of `renoise_world_create`: entry i of `chunks`, in
   * index order, becomes `renoise_chunk_generate(i % world_size,
   * i / world_size, frequency)`. `starts[i]` is the source position at
   * which entry i began drawing.
   */
  method GenerateChunks(chunks: array<Chunk>, worldSize: nat, frequency: real, source: GradientSource)
    returns (ghost starts: seq<nat>)
    requires frequency >= 0.0 && chunks.Length == worldSize * worldSize
    modifies chunks, source
    ensures |starts| == chunks.Length + 1
    ensures starts[0] == old(source.drawn) && starts[chunks.Length] == source.drawn
    ensures forall k :: 0 <= k < chunks.Length ==> starts[k + 1] == starts[k] + chunks[k].gradPoints.Length
    ensures EntriesGenerated(chunks[..], worldSize, frequency)
    ensures forall k :: 0 <= k < chunks.Length ==> fresh(chunks[k].gradPoints)
    ensures forall k :: 0 <= k < chunks.Length ==>
      chunks[k].gradPoints[..] == source.Draws(starts[k], chunks[k].gradPoints.Length)
    ensures forall k, l :: 0 <= k < l < chunks.Length ==> chunks[k].gradPoints != chunks[l].gradPoints
  {
    starts := [source.drawn];
    ghost var built: seq<Chunk> := [];
    for i := 0 to chunks.Length
      invariant |starts| == i + 1 && starts[0] == old(source.drawn) && starts[i] == source.drawn
      invariant built == chunks[..i]
      invariant forall k :: 0 <= k < i ==> starts[k + 1] == starts[k] + chunks[k].gradPoints.Length
      invariant EntriesGenerated(built, worldSize, frequency)
      invariant forall k :: 0 <= k < i ==> fresh(chunks[k].gradPoints)
      invariant forall k :: 0 <= k < i ==>
        chunks[k].gradPoints[..] == source.Draws(starts[k], chunks[k].gradPoints.Length)
      invariant forall k, l :: 0 <= k < l < i ==> chunks[k].gradPoints != chunks[l].gradPoints
    {
      var (x, y) := ChunkCoords(i, worldSize);
      var chunk := ChunkGenerate(x, y, frequency, source);
      chunks[i] := chunk;
      starts := starts + [source.drawn];
      built := built + [chunk];
    }
    assert built == chunks[..];
  }

  /**
   * `renoise_world_create`: allocates `world_size * world_size` chunks and
   * generates entry i at column `i % world_size`, row `i / world_size`, in
   * index order, so that vector j of chunk i is the vector the source hands
   * out after those of the chunks before it and the first j of chunk i.
   * Every chunk owns a gradient array of its own.
   */
  method WorldCreate(worldSize: nat, frequency: real, source: GradientSource)
    returns (world: World)
    requires frequency >= 0.0
    modifies source
    ensures WorldGenerated(world, worldSize, frequency)
    ensures fresh(world.chunks)
    ensures forall i :: 0 <= i < world.chunks.Length ==> fresh(world.chunks[i].gradPoints)
    ensures forall i, j :: 0 <= i < j < world.chunks.Length ==>
              world.chunks[i].gradPoints != world.chunks[j].gradPoints
    ensures DrawnFrom(world.chunks, worldSize, frequency, old(source.drawn), source)
    ensures source.drawn == old(source.drawn) + DrawsBefore(worldSize, frequency, worldSize * worldSize)
  {
    ghost var first := source.drawn;
    var chunks := new Chunk[worldSize * worldSize];
    ghost var starts := GenerateChunks(chunks, worldSize, frequency, source);
    DrawStarts(worldSize, frequency, chunks[..], starts, chunks.Length);
    DrawnInOrder(worldSize, frequency, chunks, starts, first, source);
    world := World(chunks, worldSize, frequency);
  }

  /**
   * Cell (x, y) of a generated world, at index `x + y * size`, holds the
   * chunk generated at column x, row y, with the world's frequency.
   */
  lemma WorldCellLookup(world: World, size: nat, frequency: real, x: nat, y: nat)
    requires frequency >= 0.0 && WorldGenerated(world, size, frequency)
    requires x < size && y < size
    ensures ChunkIndex(x, y, size) < world.chunks.Length
    ensures world.chunks[ChunkIndex(x, y, size)].chunkX == x
    ensures world.chunks[ChunkIndex(x, y, size)].chunkY == y
    ensures world.chunks[ChunkIndex(x, y, size)].frequency == frequency
    ensures GeneratedAt(world.chunks[ChunkIndex(x, y, size)], x, y, frequency)
  {
    IndexRoundTrip(x, y, size);
    var i := ChunkIndex(x, y, size);
    assert GeneratedForEntry(world.chunks[..][i], i, size, frequency);
  }

  /**
   * Two chunks of a generated world in the same column have the same phase
   * offset and the same gradient point count along x, whatever their rows.
   */
  lemma SameColumnSameX(world: World, size: nat, frequency: real, i: nat, j: nat)
    requires frequency >= 0.0 && WorldGenerated(world, size, frequency)
    requires i < world.chunks.Length && j < world.chunks.Length && i % size == j % size
    ensures world.chunks[i].gradOffsetX == world.chunks[j].gradOffsetX
    ensures world.chunks[i].gradPointCountX == world.chunks[j].gradPointCountX
  {
  }

  /**
   * Two chunks of a generated world in the same row have the same phase
   * offset and the same gradient point count along y, whatever their columns.
   */
  lemma SameRowSameY(world: World, size: nat, frequency: real, i: nat, j: nat)
    requires frequency >= 0.0 && WorldGenerated(world, size, frequency)
    requires i < world.chunks.Length && j < world.chunks.Length && i / size == j / size
    ensures world.chunks[i].gradOffsetY == world.chunks[j].gradOffsetY
    ensures world.chunks[i].gradPointCountY == world.chunks[j].gradPointCountY
  {
  }
}
