# renoise: chunk and world construction

renoise builds gradient noise over a square world of chunks. Each chunk is
`RENOISE_CHUNK_SIZE` (16) samples on a side. A gradient lattice of spacing
`1 / frequency` samples runs through the whole world, so one chunk spans
`16 * frequency` lattice cells. That extent is usually not a whole number, so
neighbouring chunks meet the lattice at different phases.

`renoise_chunk_generate` works out three things for each axis of a chunk:
- the fractional part of the extent;
- the chunk's phase offset, `fmod(chunk * fraction, 1.0)`;
- how many gradient points the chunk owns, `ceil(extent - offset)`.

As written, the offset is the distance from the last lattice point before the
chunk's start up to that start. The diagram in the source and the count
formula both need the distance from the start on to the next lattice point
(see Findings).

It then allocates `count_x * count_y` gradient vectors and fills them one by
one. `renoise_world_create` allocates `world_size * world_size` chunks in
row-major order and generates entry `i` at column `i % world_size`, row
`i / world_size`.

The project has three modules.

- `Lattice` (lattice.dfy) holds the per-axis arithmetic as pure functions over
  exact reals:
  - `Fmod1` is C's `fmod(v, 1.0)` and `Ceil` is C's `ceil`;
  - `Times(n, x)` is the product of a chunk coordinate and a real, written as
    repeated addition;
  - `ExtentDecimal`, `WrittenGradOffset` and `WrittenGradPointCount` are
    lines 25-30 of src/renoise.c exactly as written;
  - `GradOffset` and `GradPointCount` are the corrected offset and count
    (see Findings), and the lattice-tiling lemmas are proved about them.

  Its lemmas cover the offset range, the floor/ceiling bounds on counts, the
  whole-extent case and the worked example for frequency 0.2, for both
  formulas. They show that the two offsets are complements. They also show
  that, with the corrected formula, the chunks of one row own adjacent runs of
  one global lattice, with no gap and no overlap.
- `Grid` (grid.dfy) covers the row-major index `x + y * size` and its inverse
  `(i % size, i / size)`.
- `Renoise` (renoise.dfy) holds the heap-facing part:
  - `GradientSource` is a class standing for the process-wide random gradient
    generator. It hands out a fixed but arbitrary sequence of vectors and
    counts how many it has handed out.
  - `Chunk` and `World` are the C records, with the field names src/renoise.c
    uses.
  - `ChunkGenerate` computes the offsets and counts as src/renoise.c writes
    them and fills a fresh gradient array in a loop.
  - `WorldCreate` fills a fresh chunk array in a loop, through `GenerateChunks`.

  Both methods are proved against the ghost predicates `GeneratedAt` and
  `WorldGenerated`, which state every field of every chunk. They also state
  which vector of the source ends up at which position of which gradient
  array.

## Model

| member | source | states |
|---|---|---|
| Lattice.Fmod1 | src/renoise.c:26-28 | `fmod(v, 1.0)`: differs from v by a whole number, lies strictly between -1 and 1, and has the sign of v |
| Lattice.Fmod1Unique | src/renoise.c:26-28 | for v >= 0, any r in [0, 1) differing from v by a whole number is `fmod(v, 1.0)` |
| Lattice.Ceil | src/renoise.c:29-30 | `ceil(v)` is the whole number c with c - 1 < v <= c |
| Lattice.CeilUnique | src/renoise.c:29-30 | that interval fixes `ceil(v)` uniquely |
| Lattice.TimesIsProduct | src/renoise.c:27-28 | the repeated sum used for `chunk_x * value` equals the real product |
| Lattice.ExtentDecimal | src/renoise.c:25-26 | `grad_point_size_decimal` lies in [0, 1) for a non-negative frequency and differs from `16 * frequency` by a whole number |
| Lattice.WrittenGradOffset | src/renoise.c:27-28 | the offset as written, `fmod(chunk_x * decimal, 1.0)`, lies in [0, 1) |
| Lattice.GradOffset | src/renoise.c:27-28 | the corrected offset, `fmod(chunk_x * (1 - decimal), 1.0)`, lies in [0, 1) |
| Lattice.GradPointCount | src/renoise.c:29-30 | the corrected count, `ceil(grad_point_size - corrected offset)`, lies between the floor and the ceiling of `16 * frequency` |
| Lattice.WrittenGradPointCount | src/renoise.c:29-30 | the count computed from the as-written offset also lies between the floor and the ceiling of the extent |
| Lattice.CountByPhase | src/renoise.c:29-30 | the corrected count is the floor of the extent, plus one exactly when the corrected offset is below the extent's fractional part |
| Lattice.WrittenCountByPhase | src/renoise.c:29-30 | the as-written count is the floor of the extent, plus one exactly when the as-written offset is below the extent's fractional part |
| Lattice.WrittenIsComplement | src/renoise.c:27-28 | the as-written offset is zero exactly when the corrected one is, and otherwise the two add up to one |
| Lattice.WholeExtentAligned | src/renoise.c:26-30 | when `16 * frequency` is whole, the decimal and both offsets (as written and corrected) are 0, and both counts equal the extent |
| Lattice.GradOffsetOnLattice | src/renoise.c:12-13 | chunk c's start (c * extent) plus its offset is the first whole lattice coordinate at or after that start |
| Lattice.OwnedRangesAbut | src/renoise.c:12-13 | chunk c's first lattice point plus its count is chunk c + 1's first lattice point: no gap and no overlap |
| Lattice.OwnedPointsPartition | src/renoise.c:12-13 | chunks 0 .. c - 1 together own exactly the lattice points below c * extent |
| Lattice.WrittenFifthFrequency | src/renoise.c:14-18 | the worked example as the code computes it: at frequency 0.2, chunk c's offset is `(c * 0.2) mod 1` = (c mod 5) / 5; its count is 3 or 4, and 4 exactly when c is a multiple of 5 |
| Lattice.FifthFrequency | src/renoise.c:14-18 | the worked example with the corrected formula: at frequency 0.2 the extent is 3.2 and the decimal 0.2; chunk c's corrected offset is (4c mod 5) / 5; its corrected count is 3 or 4, and 4 exactly when c is a multiple of 5 |
| Lattice.WrittenOffsetOffLattice | src/renoise.c:27-28 | when the extent's fractional part is neither 0 nor 1/2, the as-written offset puts chunk 1's first point off the lattice, while the corrected one puts it on |
| Lattice.WrittenOffsetAtFifth | src/renoise.c:12-17 | at frequency 0.2, chunk 1's first point lands at lattice coordinate 3.4 as written and at 4 when corrected |
| Lattice.WrittenCountMissesPoint | src/renoise.c:27-30 | at frequency 0.234375 (extent 3.75), chunk 1 spans four lattice points; the as-written count is 3 and the corrected count is 4 |
| Grid.ChunkCoords | src/renoise.c:48-49 | `(i % size, i / size)` for i < size * size gives column and row both below size, and they map back to i under `x + y * size` |
| Grid.IndexRoundTrip | src/renoise.c:47-50 | `x + y * size` for x, y < size lies below size * size and decomposes back to (x, y) |
| Renoise.GradientSource.constructor | src/renoise.c:4-10 | a new source hands out the vectors of `draw` from position 0 on |
| Renoise.GradientSource.Next | src/renoise.c:4-10 | each call returns the next vector of the source and advances it by one |
| Renoise.ChunkGenerate | src/renoise.c:20-40 | the chunk has the given coordinates and frequency, the offsets and counts as written (`WrittenGradOffset`, `WrittenGradPointCount`), zeroed samples, and a fresh array of exactly `count_x * count_y` vectors holding, in index order, the next vectors of the source; the source advances by that many |
| Renoise.GenerateChunks | src/renoise.c:47-51 | every entry i of the array becomes the chunk generated at `(i % size, i / size)`, in index order; each takes the vectors following those of the entry before it, into a fresh array of its own |
| Renoise.WorldCreate | src/renoise.c:42-53 | the world records size and frequency and owns a fresh array of size * size chunks; entry i is the chunk `ChunkGenerate` builds at `(i % size, i / size)` with the world's frequency; vector j of entry i is the source's vector `DrawsBefore(i) + j` positions on, where `DrawsBefore(i)` sums the as-written array lengths of entries 0 .. i - 1; the source advances by all of them; gradient arrays are pairwise distinct |
| Renoise.DrawStarts | src/renoise.c:47-51 | when each chunk draws right after the one before it, chunk i starts drawing after the vectors of all chunks before it |
| Renoise.DrawnInOrder | src/renoise.c:47-51 | from the same premises, vector j of chunk i is the source's vector `DrawsBefore(i) + j` positions after the first |
| Renoise.WorldCellLookup | src/renoise.c:47-51 | in a created world, cell (x, y) at index `x + y * size` holds the chunk generated at column x, row y, with the world's frequency |
| Renoise.SameColumnSameX | src/renoise.c:27-30 | in a created world, chunks in the same column share their (as-written) x offset and x count |
| Renoise.SameRowSameY | src/renoise.c:27-30 | in a created world, chunks in the same row share their (as-written) y offset and y count |

## Left out

- IEEE-754 doubles are not modelled; the model uses exact reals. For example,
  `16 * 0.2` is not exactly 3.2 in binary, so nothing here claims bit-exact
  agreement with the C program.
- `renoise_gradient_point_generate` (src/renoise.c:4-10) is not modelled in
  detail. It draws from the C library's `random()` and takes a cosine and sine.
  The model reduces it to an arbitrary sequence `draw` behind
  `GradientSource`.
- Renoise.GradientSource.Next does not state that the vector has unit length,
  because cosine and sine are not modelled.
- `malloc` failure (src/renoise.c:33,46) is left out. The code never checks the
  result, and Dafny's `new` always succeeds.
- Integer widths are not modelled; the model's integers are unbounded. In C,
  `world_size * world_size` is computed in `uint64_t` and can wrap.
  `count_x * count_y` is computed in `int64_t` (the field type of
  src/renoise.h:16-17) before it is stored as `uint64_t` (src/renoise.c:32),
  so its overflow is undefined behaviour.
- Renoise.ChunkGenerate takes chunk coordinates as non-negative numbers and
  requires `frequency >= 0`. The world only ever passes unsigned coordinates,
  and C's `fmod` of a negative product would give a negative offset. A
  negative frequency has no meaning for the lattice, so requiring a
  non-negative one is a modelling choice.
- `16 * frequency >= 1` is not required, because the code does not check it.
  Counts stay non-negative without it.
- The header src/renoise.h disagrees with src/renoise.c in three places. The
  model follows the `.c` file each time:
  - the header's chunk fields are `x`/`y` and its world field is `size`, where
    the `.c` uses `chunk_x`/`chunk_y`/`world_size`;
  - the header returns pointers, where the `.c` returns records by value;
  - the header's world holds chunk pointers, while the model's `World` holds an
    array of `Chunk` values, each owning its own gradient array.
- The functions declared only in src/renoise.h:34-39 have no body, so they are
  not part of this model:
  - chunk free and world free;
  - chunk-to-gradient coordinate mapping;
  - world generate, per-chunk sample generation and rectangle regeneration.
- The demo programs under example/ and the build driver nob.c are not part of
  this model. They hold rendering, input handling and process spawning.
- No method builds a chunk with the corrected offset. The corrected formula
  is stated and proved at the level of `Lattice` only.

## Findings

| source | as written | input that shows it | evidently intended | confidence | as-written member | corrected member |
|---|---|---|---|---|---|---|
| src/renoise.c:27-28 | `grad_offset = fmod(chunk * grad_point_size_decimal, 1.0)`, the formula the comment at line 17 also gives | frequency 0.234375 (extent 3.75), chunk 1: it spans lattice coordinates 3.75 to 7.5, which hold the four points 4, 5, 6, 7, but the as-written offset 0.75 gives `ceil(3.75 - 0.75) = 3` points. At frequency 0.2 (the diagram's own), chunk 1's first point lands at 3.4, off the lattice | `fmod(chunk * (1 - grad_point_size_decimal), 1.0)`, the distance from the chunk's start to the next lattice point. The diagram at lines 12-13 draws exactly this: at frequency 0.2, chunk 1's points are at local samples 4, 9, 14, an offset of 0.8 lattice cells | not executed | Lattice.WrittenGradOffset, Lattice.WrittenGradPointCount, Lattice.WrittenIsComplement, Lattice.WrittenOffsetOffLattice, Lattice.WrittenOffsetAtFifth, Lattice.WrittenCountMissesPoint | Lattice.GradOffset, Lattice.GradOffsetOnLattice, Lattice.OwnedRangesAbut, Lattice.OwnedPointsPartition |
