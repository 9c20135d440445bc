/**
 From scaled viewport coordinates to the integer pixel handed to OpenCV
 (the coordinate expression of vtk_camera_projection.py line 83): the x
 coordinate is offset by half the viewport width, the y coordinate is negated
 and offset by half the viewport height, and both are converted with Python's
 `int(...)`, which truncates toward zero. Nothing is clamped to the image.
 */
module Raster {

  /**
   `n` is `r` truncated toward zero: for `r >= 0` the largest integer not above
   `r`, for `r < 0` the smallest integer not below it.
   */
  predicate TruncatesTo(r: real, n: int)
  {
    if r >= 0.0 then n as real <= r < n as real + 1.0
    else n as real - 1.0 < r <= n as real
  }

  /** Python's `int(r)` for a finite float `r`. */
  function Trunc(r: real): (n: int)
    ensures TruncatesTo(r, n)
  {
    if r >= 0.0 then r.Floor else -((-r).Floor)
  }

  /** At most one integer is the truncation of a real, so `TruncatesTo` defines `Trunc`. */
  lemma TruncUnique(r: real, n: int)
    requires TruncatesTo(r, n)
    ensures n == Trunc(r)
  {
  }

  /** Truncation toward zero is odd: it commutes with negation. */
  lemma TruncOdd(r: real)
    ensures Trunc(-r) == -Trunc(r)
  {
    if r != 0.0 {
      TruncUnique(-r, -Trunc(r));
    }
  }

  /** Truncation never moves away from zero and never by a whole unit. */
  lemma TruncTowardZero(r: real)
    ensures 0.0 <= Trunc(r) as real <= r || r <= Trunc(r) as real <= 0.0
    ensures r - 1.0 < Trunc(r) as real < r + 1.0
  {
  }

  /** Truncation is not floor: negative non-integers move up, toward zero. */
  lemma TruncIsNotFloor()
    ensures Trunc(-0.5) == 0 && (-0.5).Floor == -1
    ensures Trunc(-2.5) == -2 && (-2.5).Floor == -3
  {
    TruncUnique(-0.5, 0);
    TruncUnique(-2.5, -2);
  }

  /** Truncation preserves order (not strictly). */
  lemma TruncMonotone(a: real, b: real)
    requires a <= b
    ensures Trunc(a) <= Trunc(b)
  {
  }

  /** An integer-valued real truncates to itself. */
  lemma TruncOfInt(n: int)
    ensures Trunc(n as real) == n
  {
    TruncUnique(n as real, n);
  }

  /** An OpenCV pixel position (column, row), top-left origin, y pointing down. */
  datatype Pixel = Pixel(px: int, py: int)

  /** Raster column before truncation: `w*0.5 + sx`. */
  function RasterX(width: int, sx: real): (x: real)
    ensures ViewX(width, x) == sx
  {
    width as real * 0.5 + sx
  }

  /** Raster row before truncation: `h/2.0 - sy`, the y axis flipped. */
  function RasterY(height: int, sy: real): (y: real)
    ensures ViewY(height, y) == sy
  {
    height as real / 2.0 - sy
  }

  /** The viewport x coordinate a raster column stands for: the centre is at `w/2`. */
  function ViewX(width: int, x: real): real
  {
    x - width as real / 2.0
  }

  /** The viewport y coordinate a raster row stands for: rows grow downward from the top. */
  function ViewY(height: int, y: real): real
  {
    height as real / 2.0 - y
  }

  /** Every raster position is the image of exactly one viewport position. */
  lemma RasterRoundTrip(width: int, height: int, x: real, y: real)
    ensures RasterX(width, ViewX(width, x)) == x
    ensures RasterY(height, ViewY(height, y)) == y
  {
  }

  /** Both raster coordinates converted with `int(...)`; no clamping to the image. */
  function ToPixel(x: real, y: real): (p: Pixel)
    ensures TruncatesTo(x, p.px) && TruncatesTo(y, p.py)
  {
    Pixel(Trunc(x), Trunc(y))
  }

  /**
   The horizontal axis keeps its direction and the vertical one is flipped:
   moving right in viewport space moves right on the raster, moving up in
   viewport space moves up the raster, i.e. to a smaller row.
   */
  lemma AxisDirections(width: int, height: int, sx: real, sx': real, sy: real, sy': real)
    ensures sx < sx' ==> RasterX(width, sx) < RasterX(width, sx')
    ensures sy < sy' ==> RasterY(height, sy) > RasterY(height, sy')
    ensures sx < sx' ==> Trunc(RasterX(width, sx)) <= Trunc(RasterX(width, sx'))
    ensures sy < sy' ==> Trunc(RasterY(height, sy)) >= Trunc(RasterY(height, sy'))
  {
    if sx < sx' {
      TruncMonotone(RasterX(width, sx), RasterX(width, sx'));
    }
    if sy < sy' {
      TruncMonotone(RasterY(height, sy'), RasterY(height, sy));
    }
  }

  /** The viewport centre `(0, 0)` lands on the middle of the raster. */
  lemma CentreMapsToMiddle(width: int, height: int)
    requires width >= 0 && height >= 0
    ensures ToPixel(RasterX(width, 0.0), RasterY(height, 0.0)) == Pixel(width / 2, height / 2)
  {
    TruncUnique(RasterX(width, 0.0), width / 2);
    TruncUnique(RasterY(height, 0.0), height / 2);
  }

  /**
   Changing the viewport from `(w1, h1)` to `(w2, h2)` shifts the raster
   coordinates by exactly half the change of each dimension.
   */
  lemma ViewportShift(w1: int, h1: int, w2: int, h2: int, sx: real, sy: real)
    ensures RasterX(w2, sx) - RasterX(w1, sx) == (w2 - w1) as real / 2.0
    ensures RasterY(h2, sy) - RasterY(h1, sy) == (h2 - h1) as real / 2.0
  {
  }

  /**
   No clamping: a raster coordinate a whole pixel or more outside the image
   gives a pixel outside `[0, width) x [0, height)`; a coordinate strictly
   between -1 and 0 is truncated up onto the first column or row.
   */
  lemma NoClamping(width: int, height: int, x: real, y: real)
    ensures x <= -1.0 ==> ToPixel(x, y).px < 0
    ensures x >= width as real ==> ToPixel(x, y).px >= width
    ensures y <= -1.0 ==> ToPixel(x, y).py < 0
    ensures y >= height as real ==> ToPixel(x, y).py >= height
    ensures -1.0 < x < 0.0 ==> ToPixel(x, y).px == 0
    ensures -1.0 < y < 0.0 ==> ToPixel(x, y).py == 0
  {
    if x >= width as real {
      TruncMonotone(width as real, x);
      TruncOfInt(width);
    }
    if y >= height as real {
      TruncMonotone(height as real, y);
      TruncOfInt(height);
    }
  }
}
