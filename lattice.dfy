/**
 * The gradient-lattice arithmetic of renoise (src/renoise.c:12-30): how many
 * lattice cells a chunk spans, the phase offset of a chunk's own gradient
 * points, and how many gradient points the chunk owns along one axis.
 *
 * C doubles are modelled as exact reals; `fmod(v, 1.0)` is `Fmod1` and
 * `ceil` is `Ceil`. A chunk coordinate is a whole number of at least zero,
 * and its product with a real is written as repeated addition, `Times`,
 * which `TimesIsProduct` proves equal to the product.
 */
module Lattice {

  /** Side length of a chunk, in samples (`RENOISE_CHUNK_SIZE`). */
  const ChunkSize: int := 16

  /** True when v has no fractional part. */
  predicate IsWhole(v: real) {
    v == v.Floor as real
  }

  /** A real equal to an integer is whole. */
  lemma WholeIntro(v: real, k: int)
    requires v == k as real
    ensures IsWhole(v)
  {
    assert v.Floor == k;
  }

  /** Sums and differences of whole numbers are whole. */
  lemma WholeAddSub(a: real, b: real)
    requires IsWhole(a) && IsWhole(b)
    ensures IsWhole(a + b) && IsWhole(a - b)
  {
    WholeIntro(a + b, a.Floor + b.Floor);
    WholeIntro(a - b, a.Floor - b.Floor);
  }

  /** `n` copies of `x` added together, that is, `n * x`. */
  function Times(n: nat, x: real): (r: real)
    ensures x >= 0.0 ==> r >= 0.0
    ensures IsWhole(x) ==> IsWhole(r)
  {
    if n == 0 then
      WholeIntro(0.0, 0);
      0.0
    else
      var prev := Times(n - 1, x);
      if IsWhole(x) then
        WholeAddSub(prev, x);
        prev + x
      else
        prev + x
  }

  /** `Times` is multiplication. */
  lemma {:induction false} TimesIsProduct(n: nat, x: real)
    ensures Times(n, x) == n as real * x
  {
    if n > 0 {
      TimesIsProduct(n - 1, x);
    }
  }

  /** `Times` distributes over addition. */
  lemma {:induction false} TimesAdd(n: nat, x: real, y: real)
    ensures Times(n, x + y) == Times(n, x) + Times(n, y)
  {
    if n > 0 {
      TimesAdd(n - 1, x, y);
    }
  }

  /**
   * C's `fmod(v, 1.0)`: what is left after taking away the whole part of v;
   * the remainder has the sign of v.
   */
  function Fmod1(v: real): (r: real)
    ensures IsWhole(v - r)
    ensures -1.0 < r < 1.0
    ensures v >= 0.0 ==> r >= 0.0
    ensures v <= 0.0 ==> r <= 0.0
  {
    if v >= 0.0 then
      WholeIntro(v.Floor as real, v.Floor);
      v - v.Floor as real
    else
      WholeIntro(-((-v).Floor as real), -(-v).Floor);
      v + (-v).Floor as real
  }

  /** For v >= 0 the remainder is fixed by the facts `Fmod1`'s contract states. */
  lemma Fmod1Unique(v: real, r: real)
    requires v >= 0.0 && 0.0 <= r < 1.0 && IsWhole(v - r)
    ensures Fmod1(v) == r
  {
    var k := (v - r).Floor;
    assert v - r == k as real;
    assert k <= v.Floor by {
      assert k as real <= v;
    }
    assert v.Floor <= k by {
      assert v < k as real + 1.0;
    }
  }

  /** C's `ceil`: the least whole number not below v. */
  function Ceil(v: real): (c: int)
    ensures c as real - 1.0 < v <= c as real
  {
    -((-v).Floor)
  }

  /** `Ceil` is fixed by the interval its contract states. */
  lemma CeilUnique(v: real, k: int)
    requires k as real - 1.0 < v <= k as real
    ensures Ceil(v) == k
  {
    var c := Ceil(v);
    assert c as real - 1.0 < k as real && k as real - 1.0 < c as real;
    assert c - 1 < k && k - 1 < c;
  }

  /** A value a fraction `off` below a whole number `w` has `w` as its ceiling. */
  lemma CeilBelowWhole(x: real, off: real, w: int)
    requires 0.0 <= off < 1.0 && x + off == w as real
    ensures Ceil(x) == w
  {
    CeilUnique(x, w);
  }

  /** Adding a whole number to v adds it to the ceiling. */
  lemma CeilShift(v: real, k: int)
    ensures Ceil(v + k as real) == Ceil(v) + k
  {
    var c := Ceil(v);
    CeilUnique(v + k as real, c + k);
  }

  /** Lattice cells spanned by one chunk: `RENOISE_CHUNK_SIZE * frequency`. */
  function Extent(frequency: real): real {
    ChunkSize as real * frequency
  }

  /** The fractional part of the extent: `fmod(RENOISE_CHUNK_SIZE * frequency, 1.0)`. */
  function ExtentDecimal(frequency: real): (d: real)
    ensures frequency >= 0.0 ==> 0.0 <= d < 1.0
    ensures IsWhole(Extent(frequency) - d)
  {
    Fmod1(Extent(frequency))
  }

  /**
   * The phase offset exactly as src/renoise.c:27-28 computes it: the chunk
   * coordinate times the fractional part of the extent, modulo one.
   */
  function WrittenGradOffset(coord: nat, frequency: real): (off: real)
    ensures frequency >= 0.0 ==> 0.0 <= off < 1.0
  {
    Fmod1(Times(coord, ExtentDecimal(frequency)))
  }

  /**
   * The phase offset that puts a chunk's first owned gradient point on the
   * global lattice: the chunk coordinate times the complement of the
   * fractional part of the extent, modulo one.
   */
  function GradOffset(coord: nat, frequency: real): (off: real)
    ensures frequency >= 0.0 ==> 0.0 <= off < 1.0
  {
    Fmod1(Times(coord, 1.0 - ExtentDecimal(frequency)))
  }

  /**
   * How many gradient points a chunk owns along one axis
   * (src/renoise.c:29-30): the ceiling of the extent minus the chunk's phase
   * offset. It is the floor or the ceiling of the extent.
   */
  function GradPointCount(coord: nat, frequency: real): (count: int)
    ensures frequency >= 0.0 ==>
      Extent(frequency).Floor <= count <= Ceil(Extent(frequency))
  {
    Ceil(Extent(frequency) - GradOffset(coord, frequency))
  }

  /**
   * The count as src/renoise.c:29-30 computes it from the as-written offset
   * of src/renoise.c:27-28. It too is the floor or the ceiling of the extent.
   */
  function WrittenGradPointCount(coord: nat, frequency: real): (count: int)
    ensures frequency >= 0.0 ==>
      Extent(frequency).Floor <= count <= Ceil(Extent(frequency))
  {
    Ceil(Extent(frequency) - WrittenGradOffset(coord, frequency))
  }

  /**
   * Chunk `coord` starts at lattice coordinate `coord * Extent(frequency)`;
   * its first owned gradient point, `GradOffset` cells further on, is the
   * first whole lattice coordinate at or after that start.
   */
  lemma GradOffsetOnLattice(coord: nat, frequency: real)
    requires frequency >= 0.0
    ensures GradOffset(coord, frequency) + Times(coord, Extent(frequency))
            == Ceil(Times(coord, Extent(frequency))) as real
  {
    var e := Extent(frequency);
    var d := ExtentDecimal(frequency);
    var v := Times(coord, 1.0 - d);
    var off := GradOffset(coord, frequency);
    assert off == Fmod1(v);
    WholeIntro(1.0, 1);
    WholeAddSub(e - d, 1.0);
    assert e + (1.0 - d) == (e - d) + 1.0;
    TimesAdd(coord, e, 1.0 - d);
    var w := Times(coord, e + (1.0 - d));
    WholeAddSub(w, v - off);
    assert Times(coord, e) + off == w - (v - off);
    CeilBelowWhole(Times(coord, e), off, (w - (v - off)).Floor);
  }

  /**
   * The gradient points of chunk `coord` are the lattice coordinates from
   * `Ceil(coord * extent)` up to, and not including, the first point of
   * chunk `coord + 1`: neighbouring chunks own adjacent runs of the lattice,
   * with no gap and no overlap.
   */
  lemma OwnedRangesAbut(coord: nat, frequency: real)
    requires frequency >= 0.0
    ensures Ceil(Times(coord, Extent(frequency))) + GradPointCount(coord, frequency)
            == Ceil(Times(coord + 1, Extent(frequency)))
  {
    var e := Extent(frequency);
    var s := Times(coord, e);
    var off := GradOffset(coord, frequency);
    GradOffsetOnLattice(coord, frequency);
    CeilShift(e - off, Ceil(s));
    assert (e - off) + Ceil(s) as real == Times(coord + 1, e);
  }

  /** Gradient points owned by chunks `0 .. c - 1` of one row (or column) together. */
  function OwnedBefore(c: nat, frequency: real): int {
    if c == 0 then 0 else OwnedBefore(c - 1, frequency) + GradPointCount(c - 1, frequency)
  }

  /**
   * Chunks `0 .. c - 1` together own exactly the lattice coordinates below
   * `c * extent`: every lattice point is owned by one chunk.
   */
  lemma {:induction false} OwnedPointsPartition(c: nat, frequency: real)
    requires frequency >= 0.0
    ensures OwnedBefore(c, frequency) == Ceil(Times(c, Extent(frequency)))
  {
    if c == 0 {
      CeilUnique(0.0, 0);
    } else {
      OwnedPointsPartition(c - 1, frequency);
      OwnedRangesAbut(c - 1, frequency);
    }
  }

  /**
   * The count is the floor of the extent, plus one exactly when the chunk's
   * phase offset is below the fractional part of the extent.
   */
  lemma CountByPhase(coord: nat, frequency: real)
    requires frequency >= 0.0
    ensures GradPointCount(coord, frequency) ==
      Extent(frequency).Floor
      + (if GradOffset(coord, frequency) < ExtentDecimal(frequency) then 1 else 0)
  {
    var e := Extent(frequency);
    var d := ExtentDecimal(frequency);
    var off := GradOffset(coord, frequency);
    var n := e.Floor;
    assert e - d == n as real;
    if off < d {
      CeilUnique(e - off, n + 1);
    } else {
      CeilUnique(e - off, n);
    }
  }

  /**
   * When a chunk spans a whole number of lattice cells, every phase offset
   * (as written or corrected) is zero and every chunk owns exactly that many
   * gradient points per axis, by either count.
   */
  lemma WholeExtentAligned(coord: nat, frequency: real)
    requires frequency >= 0.0 && IsWhole(Extent(frequency))
    ensures ExtentDecimal(frequency) == 0.0
    ensures WrittenGradOffset(coord, frequency) == 0.0
    ensures GradOffset(coord, frequency) == 0.0
    ensures GradPointCount(coord, frequency) as real == Extent(frequency)
    ensures WrittenGradPointCount(coord, frequency) as real == Extent(frequency)
  {
    var e := Extent(frequency);
    Fmod1Unique(e, 0.0);
    TimesIsProduct(coord, 0.0);
    WholeIntro(0.0, 0);
    Fmod1Unique(0.0, 0.0);
    WholeIntro(1.0, 1);
    var v := Times(coord, 1.0);
    Fmod1Unique(v, 0.0);
    CeilUnique(e - 0.0, e.Floor);
  }

  /**
   * The offset as written and the corrected offset are complements: both are
   * zero, or they add up to one. The as-written offset is the distance from
   * the last lattice point before the chunk's start up to that start, the
   * corrected one the distance from the start on to the next lattice point.
   */
  lemma WrittenIsComplement(coord: nat, frequency: real)
    requires frequency >= 0.0
    ensures WrittenGradOffset(coord, frequency) == 0.0 <==> GradOffset(coord, frequency) == 0.0
    ensures WrittenGradOffset(coord, frequency) != 0.0 ==>
      WrittenGradOffset(coord, frequency) + GradOffset(coord, frequency) == 1.0
  {
    var d := ExtentDecimal(frequency);
    var a := Times(coord, d);
    var b := Times(coord, 1.0 - d);
    var wo, co := WrittenGradOffset(coord, frequency), GradOffset(coord, frequency);
    TimesAdd(coord, d, 1.0 - d);
    assert d + (1.0 - d) == 1.0;
    WholeIntro(1.0, 1);
    WholeAddSub(a - wo, b - co);
    WholeAddSub(a + b, (a - wo) + (b - co));
    assert wo + co == (a + b) - ((a - wo) + (b - co));
    var k := (wo + co).Floor;
    assert wo + co == k as real;
    assert 0 <= k < 2;
  }

  /**
   * Whether a count has the extra point depends only on the phase offset:
   * the count is the floor of the extent, plus one exactly when the
   * as-written offset is below the extent's fractional part.
   */
  lemma WrittenCountByPhase(coord: nat, frequency: real)
    requires frequency >= 0.0
    ensures WrittenGradPointCount(coord, frequency) ==
      Extent(frequency).Floor
      + (if WrittenGradOffset(coord, frequency) < ExtentDecimal(frequency) then 1 else 0)
  {
    var e := Extent(frequency);
    var d := ExtentDecimal(frequency);
    var off := WrittenGradOffset(coord, frequency);
    var n := e.Floor;
    assert e - d == n as real;
    if off < d {
      CeilUnique(e - off, n + 1);
    } else {
      CeilUnique(e - off, n);
    }
  }

  /**
   * The worked example of src/renoise.c:14-18 as the code computes it:
   * at frequency 0.2, chunk `coord` has offset `(coord * 0.2) mod 1`, that is
   * `(coord mod 5) / 5`, and three or four gradient points per axis, four
   * exactly when `coord` is a multiple of five.
   */
  lemma WrittenFifthFrequency(coord: nat)
    ensures WrittenGradOffset(coord, 0.2) == (coord % 5) as real / 5.0
    ensures WrittenGradPointCount(coord, 0.2) == 3 || WrittenGradPointCount(coord, 0.2) == 4
    ensures WrittenGradPointCount(coord, 0.2) == 4 <==> coord % 5 == 0
  {
    WholeIntro(3.0, 3);
    Fmod1Unique(3.2, 0.2);
    assert ExtentDecimal(0.2) == 0.2;
    var v := Times(coord, 0.2);
    TimesIsProduct(coord, 0.2);
    var q, r := coord / 5, coord % 5;
    assert v - r as real / 5.0 == q as real;
    WholeIntro(v - r as real / 5.0, q);
    Fmod1Unique(v, r as real / 5.0);
    WrittenCountByPhase(coord, 0.2);
    assert (3.2).Floor == 3;
  }

  /** Four times c is a multiple of five exactly when c is. */
  lemma FourTimesModFive(c: nat)
    ensures (4 * c) % 5 == 0 <==> c % 5 == 0
  {
    var a, b := c / 5, c % 5;
    var q, r := (4 * c) / 5, (4 * c) % 5;
    var t := q - 4 * a;
    assert 4 * b == 5 * t + r;
    assert 0 <= t < 4;
    assert r == 0 <==> b == 0;
  }

  /**
   * The worked example of src/renoise.c:14-18 with the corrected offset,
   * frequency 0.2, extent 3.2: chunk `coord` has phase offset `(4 * coord mod 5) / 5` and owns three
   * or four gradient points per axis, four exactly when `coord` is a
   * multiple of five.
   */
  lemma FifthFrequency(coord: nat)
    ensures Extent(0.2) == 3.2 && ExtentDecimal(0.2) == 0.2
    ensures GradOffset(coord, 0.2) == ((4 * coord) % 5) as real / 5.0
    ensures GradPointCount(coord, 0.2) == 3 || GradPointCount(coord, 0.2) == 4
    ensures GradPointCount(coord, 0.2) == 4 <==> coord % 5 == 0
  {
    WholeIntro(3.0, 3);
    Fmod1Unique(3.2, 0.2);
    var v := Times(coord, 0.8);
    TimesIsProduct(coord, 0.8);
    var q, r := (4 * coord) / 5, (4 * coord) % 5;
    assert 4 * coord == 5 * q + r;
    assert v - r as real / 5.0 == q as real;
    WholeIntro(v - r as real / 5.0, q);
    Fmod1Unique(v, r as real / 5.0);
    CountByPhase(coord, 0.2);
    assert (3.2).Floor == 3;
    FourTimesModFive(coord);
  }

  /**
   * As written, the phase offset of chunk 1 puts its first gradient point
   * off the global lattice whenever the fractional part of the extent is
   * neither 0 nor 1/2 (frequency 0.2: at lattice coordinate 3.4 rather
   * than 4), while the corrected offset puts it on the lattice.
   */
  lemma WrittenOffsetOffLattice(frequency: real)
    requires frequency >= 0.0
    requires ExtentDecimal(frequency) != 0.0 && ExtentDecimal(frequency) != 0.5
    ensures !IsWhole(Times(1, Extent(frequency)) + WrittenGradOffset(1, frequency))
    ensures IsWhole(Times(1, Extent(frequency)) + GradOffset(1, frequency))
  {
    var e := Extent(frequency);
    var d := ExtentDecimal(frequency);
    assert Times(1, d) == d;
    WholeIntro(0.0, 0);
    Fmod1Unique(d, d);
    assert Times(1, e) + WrittenGradOffset(1, frequency) == e + d;
    var t := (2.0 * d).Floor;
    assert 0 <= t <= 1 && 2.0 * d != t as real;
    if IsWhole(e + d) {
      WholeAddSub(e + d, e - d);
    }
    GradOffsetOnLattice(1, frequency);
    WholeIntro(Times(1, e) + GradOffset(1, frequency), Ceil(Times(1, e)));
  }

  /** The counterexample of `WrittenOffsetOffLattice` at frequency 0.2. */
  lemma WrittenOffsetAtFifth()
    ensures Times(1, Extent(0.2)) + WrittenGradOffset(1, 0.2) == 3.4
    ensures Times(1, Extent(0.2)) + GradOffset(1, 0.2) == 4.0
  {
    FifthFrequency(1);
    assert Times(1, 0.2) == 0.2;
    WholeIntro(0.0, 0);
    Fmod1Unique(0.2, 0.2);
  }

  /**
   * At frequency 3.75 / 16 (extent 3.75) chunk 1 spans lattice coordinates
   * 3.75 up to 7.5, which hold the four lattice points 4, 5, 6 and 7: the
   * count computed from the as-written offset gives it three, the count
   * computed from the corrected offset four.
   */
  lemma WrittenCountMissesPoint()
    ensures Ceil(Times(2, Extent(0.234375))) - Ceil(Times(1, Extent(0.234375))) == 4
    ensures WrittenGradPointCount(1, 0.234375) == 3
    ensures GradPointCount(1, 0.234375) == 4
  {
    assert Extent(0.234375) == 3.75;
    WholeIntro(3.0, 3);
    Fmod1Unique(3.75, 0.75);
    WholeIntro(0.0, 0);
    assert Times(1, 0.75) == 0.75;
    Fmod1Unique(0.75, 0.75);
    assert Times(1, 0.25) == 0.25;
    Fmod1Unique(0.25, 0.25);
    CeilUnique(3.0, 3);
    CeilUnique(3.5, 4);
    assert Times(2, 3.75) == 7.5;
    CeilUnique(7.5, 8);
    CeilUnique(3.75, 4);
  }
}
