/**
 * Row-major addressing of the world's chunk grid: `renoise_world_create`
 * stores the chunk at column x, row y of a `world_size` by `world_size`
 * grid at index `x + y * world_size`, and computes the coordinates of entry
 * i as `i % world_size` and `i / world_size` (unsigned, so Dafny's `%` and
 * `/` agree with C's).
 */
module Grid {

  /** Index of the chunk at column x, row y, in a grid `size` chunks wide. */
  function ChunkIndex(x: nat, y: nat, size: nat): nat {
    x + y * size
  }

  /** Multiplying by a non-negative number keeps order. */
  lemma MulMono(a: int, b: int, c: nat)
    ensures a <= b ==> a * c <= b * c
  {
    assert b * c - a * c == (b - a) * c;
  }

  /** Quotient and remainder are the only pair that rebuilds n. */
  lemma DivModUnique(n: nat, d: nat, q: nat, r: nat)
    requires d > 0 && r < d && n == q * d + r
    ensures n / d == q && n % d == r
  {
    var q', r' := n / d, n % d;
    assert (q - q') * d == r' - r;
    MulMono(1, q - q', d);
    MulMono(q - q', -1, d);
  }

  /**
   * Column and row of entry i, as `i % size` and `i / size`: both inside the
   * grid, and `ChunkIndex` gives back i.
   */
  function ChunkCoords(i: nat, size: nat): (xy: (nat, nat))
    requires i < size * size
    ensures xy.0 < size && xy.1 < size
    ensures ChunkIndex(xy.0, xy.1, size) == i
  {
    var x, y := i % size, i / size;
    MulMono(size, y, size);
    (x, y)
  }

  /**
   * Every cell of the grid has an index below `size * size`, and
   * `ChunkCoords` recovers the cell from it.
   */
  lemma IndexRoundTrip(x: nat, y: nat, size: nat)
    requires x < size && y < size
    ensures ChunkIndex(x, y, size) < size * size
    ensures ChunkCoords(ChunkIndex(x, y, size), size) == (x, y)
  {
    var i := ChunkIndex(x, y, size);
    MulMono(y, size - 1, size);
    DivModUnique(i, size, y, x);
  }
}
