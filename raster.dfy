/** Row-major pixel addressing as the driver uses it: the pixel in column X and
    row Y of a Width x Height image lives at index X + Y * Width. */
module Raster {

  /** Multiplication by a non-negative factor is monotonic. */
  lemma MulMonotonic(a: int, b: int, w: nat)
    requires a <= b
    ensures a * w <= b * w
  {
    assert b * w - a * w == (b - a) * w;
  }

  /** Euclidean division by a positive divisor has exactly one quotient and remainder. */
  lemma {:induction false} DivModUnique(a: nat, w: nat, q: nat, r: nat)
    requires 0 < w && r < w && a == q * w + r
    ensures a / w == q && a % w == r
  {
    var q', r' := a / w, a % w;
    assert a == q' * w + r';
    if q < q' {
      MulMonotonic(q + 1, q', w);
      assert false;
    } else if q' < q {
      MulMonotonic(q' + 1, q, w);
      assert false;
    }
  }

  /** n * step, written as a repeated sum so that the verifier sees a product only
      where a lemma introduces it (RepeatedSumIsProduct). */
  function RepeatedSum(n: nat, step: nat): nat
  {
    if n == 0 then 0 else RepeatedSum(n - 1, step) + step
  }

  lemma {:induction false} RepeatedSumIsProduct(n: nat, step: nat)
    ensures RepeatedSum(n, step) == n * step
  {
    if n > 0 {
      RepeatedSumIsProduct(n - 1, step);
      assert (n - 1) * step + step == n * step;
    }
  }

  lemma {:induction false} RepeatedSumMonotonic(m: nat, n: nat, step: nat)
    requires m <= n
    ensures RepeatedSum(m, step) <= RepeatedSum(n, step)
  {
    if m < n {
      RepeatedSumMonotonic(m, n - 1, step);
    }
  }

  /** The flat index X + Y * Width of pixel (x, y); it lies inside the image. */
  function Flat(x: nat, y: nat, width: nat, height: nat): (i: nat)
    requires x < width && y < height
    ensures i < width * height
  {
    RepeatedSumIsProduct(y, width);
    MulMonotonic(y + 1, height, width);
    x + RepeatedSum(y, width)
  }

  /** A flat index decodes back into its column and row. */
  lemma FlatDecodes(x: nat, y: nat, width: nat, height: nat)
    requires x < width && y < height
    ensures Flat(x, y, width, height) % width == x && Flat(x, y, width, height) / width == y
  {
    RepeatedSumIsProduct(y, width);
    DivModUnique(x + y * width, width, y, x);
  }

  /** Every index of a Width x Height image is the flat index of the pixel in
      column i % Width and row i / Width. */
  lemma {:induction false} FlatCovers(i: nat, width: nat, height: nat)
    requires i < width * height
    ensures 0 < width && i % width < width && i / width < height
    ensures Flat(i % width, i / width, width, height) == i
  {
    RepeatedSumIsProduct(i / width, width);
    assert i == (i / width) * width + i % width;
    if height <= i / width {
      MulMonotonic(height, i / width, width);
      assert false;
    }
  }

  /** Distinct pixels have distinct flat indices, so writing one pixel never
      overwrites another. */
  lemma FlatInjective(x1: nat, y1: nat, x2: nat, y2: nat, width: nat, height: nat)
    requires x1 < width && y1 < height && x2 < width && y2 < height
    requires Flat(x1, y1, width, height) == Flat(x2, y2, width, height)
    ensures x1 == x2 && y1 == y2
  {
    FlatDecodes(x1, y1, width, height);
    FlatDecodes(x2, y2, width, height);
  }

  /** The flat index of pixel (x, y) differs from that of every other pixel. */
  lemma FlatDistinct(x: nat, y: nat, width: nat, height: nat)
    requires x < width && y < height
    ensures forall x', y' :: 0 <= x' < width && 0 <= y' < height && (x' != x || y' != y) ==>
              Flat(x', y', width, height) != Flat(x, y, width, height)
  {
    forall x', y' | 0 <= x' < width && 0 <= y' < height && Flat(x', y', width, height) == Flat(x, y, width, height)
      ensures x' == x && y' == y
    {
      FlatInjective(x', y', x, y, width, height);
    }
  }

  /** The byte offset of pixel (x, y) in a locked engine texture whose rows are
      pitch bytes apart and whose pixels take bytes bytes each. */
  function TexelOffset(x: nat, y: nat, pitch: nat, bytes: nat): (offset: nat)
    ensures offset == y * pitch + x * bytes
  {
    RepeatedSumIsProduct(y, pitch);
    RepeatedSumIsProduct(x, bytes);
    RepeatedSum(y, pitch) + RepeatedSum(x, bytes)
  }

  /** Number of bytes a locked texture must provide so that every pixel of a
      width x height image can be read at its pitch/bytes-per-pixel address. */
  function LockedSize(width: nat, height: nat, pitch: nat, bytes: nat): nat
  {
    if width == 0 || height == 0 then 0 else RepeatedSum(height - 1, pitch) + RepeatedSum(width, bytes)
  }

  /** Every pixel's bytes lie inside the locked region. */
  lemma {:induction false} TexelInside(x: nat, y: nat, width: nat, height: nat, pitch: nat, bytes: nat)
    requires x < width && y < height
    ensures TexelOffset(x, y, pitch, bytes) + bytes <= LockedSize(width, height, pitch, bytes)
  {
    RepeatedSumMonotonic(y, height - 1, pitch);
    RepeatedSumMonotonic(x + 1, width, bytes);
  }
}
