/** Reading the metric depth at a screen position from the depth buffer.

    The conversion of one pixel's NDC depth into a metric distance (which uses the
    near/far clip planes and a square root) is not modelled: it is the parameter
    `pixel`, any function of the (already clamped) pixel coordinates. What is
    modelled is how the sampler chooses and combines pixels. */
module DepthSampler {
  import opened Engine
  import Geometry

  /** The per-pixel depth conversion, given the pixel's column and row. */
  type PixelDepth = (int, int) -> real

  predicate ValidCam(cam: CamParams) {
    cam.width >= 1 && cam.height >= 1
  }

  /** Whether a screen position lies on the screen. */
  function IsPositionOnScreen(sx: real, sy: real): (r: bool)
    ensures r <==> 0.0 <= sx <= 1.0 && 0.0 <= sy <= 1.0
  {
    !(sx < 0.0 || sy < 0.0 || sx > 1.0 || sy > 1.0)
  }

  /** Column and row indices past the last column or row are moved onto it; smaller
      indices are left as they are. */
  function ClampIndex(x: int, y: int, cam: CamParams): (r: (int, int))
    ensures r.0 == (if x < cam.width then x else cam.width - 1)
    ensures r.1 == (if y < cam.height then y else cam.height - 1)
    ensures r.0 <= x && r.1 <= y
  {
    var cx := if x >= cam.width then cam.width - 1 else x;
    var cy := if y >= cam.height then cam.height - 1 else y;
    (cx, cy)
  }

  /** The depth of one pixel, after clamping its indices. */
  function DepthFromNdc(x: int, y: int, cam: CamParams, pixel: PixelDepth): real {
    var c := ClampIndex(x, y, cam);
    pixel(c.0, c.1)
  }

  function Ceil(r: real): int {
    -((-r).Floor)
  }

  /** Whether a screen position is more than half a pixel away from every edge of the
      screen, so that its four surrounding pixel centres exist. */
  predicate Interior(sx: real, sy: real, cam: CamParams)
    requires ValidCam(cam)
  {
    var halfW := 0.5 / cam.width as real;
    var halfH := 0.5 / cam.height as real;
    sx > halfW && sx < 1.0 - halfW && sy > halfH && sy < 1.0 - halfH
  }

  /** The four pixels around a position and its offsets from the first of them;
      pixel centres sit at half-integer multiples of the pixel size. */
  datatype Corners = Corners(x0: int, x1: int, y0: int, y1: int, nx: real, ny: real)

  function CornersOf(sx: real, sy: real, cam: CamParams): Corners {
    var x := sx * cam.width as real - 0.5;
    var y := sy * cam.height as real - 0.5;
    Corners(x.Floor, Ceil(x), y.Floor, Ceil(y), x - x.Floor as real, y - y.Floor as real)
  }

  function Min4(a: real, b: real, c: real, d: real): real {
    Min(a, Min(b, Min(c, d)))
  }

  function Max4(a: real, b: real, c: real, d: real): real {
    Max(a, Max(b, Max(c, d)))
  }

  function Min(a: real, b: real): real { if a <= b then a else b }

  function Max(a: real, b: real): real { if a >= b then a else b }

  /** The depths of the four corner pixels, in the order d00, d01, d10, d11. */
  function CornerDepths(c: Corners, cam: CamParams, pixel: PixelDepth): (real, real, real, real) {
    (DepthFromNdc(c.x0, c.y0, cam, pixel), DepthFromNdc(c.x0, c.y1, cam, pixel),
     DepthFromNdc(c.x1, c.y0, cam, pixel), DepthFromNdc(c.x1, c.y1, cam, pixel))
  }

  /** Whether the four depths agree closely enough to be blended: the largest is at
      most 1.08 times the smallest. */
  predicate WithinThreshold(d: (real, real, real, real)) {
    !(Max4(d.0, d.1, d.2, d.3) > Min4(d.0, d.1, d.2, d.3) * 1.08)
  }

  function BilinearBlend(nx: real, ny: real, d: (real, real, real, real)): real {
    (1.0 - nx) * (1.0 - ny) * d.0 + nx * (1.0 - ny) * d.2 + (1.0 - nx) * ny * d.1 + nx * ny * d.3
  }

  /** Whether the sampler blends four pixels rather than reading the nearest one. */
  predicate UsesBilinear(sx: real, sy: real, cam: CamParams, pixel: PixelDepth)
    requires ValidCam(cam)
  {
    Interior(sx, sy, cam) && WithinThreshold(CornerDepths(CornersOf(sx, sy, cam), cam, pixel))
  }

  /** The pixel a position falls in (pixels are indexed from 0). */
  function NearestPixel(sx: real, sy: real, cam: CamParams): (int, int) {
    ((sx * cam.width as real).Floor, (sy * cam.height as real).Floor)
  }

  /** The depth at a screen position, before and after the optional additive noise
      (`noise` is the draw from the noise generator). */
  function DepthFromScreenPos(sx: real, sy: real, cam: CamParams, pixel: PixelDepth,
                              noiseOn: bool, noise: real): real
    requires ValidCam(cam)
  {
    var depth :=
      if UsesBilinear(sx, sy, cam, pixel) then
        var c := CornersOf(sx, sy, cam);
        BilinearBlend(c.nx, c.ny, CornerDepths(c, cam, pixel))
      else
        var p := NearestPixel(sx, sy, cam);
        DepthFromNdc(p.0, p.1, cam, pixel);
    if noiseOn then depth + noise else depth
  }

  // ===========================================================================
  // Properties
  // ===========================================================================

  lemma {:induction false} MulLt(a: real, b: real, c: real)
    requires a < b && 0.0 < c
    ensures a * c < b * c
  {
  }

  lemma {:induction false} HalfScaled(w: real)
    requires w >= 1.0
    ensures (0.5 / w) * w == 0.5
    ensures (1.0 - 0.5 / w) * w == w - 0.5
  {
  }

  /** Scaling a screen coordinate by the screen size w: the half-pixel margins become
      0.5 and w - 0.5. */
  lemma {:induction false} HalfPixelLow(s: real, w: real)
    requires w >= 1.0 && s > 0.5 / w
    ensures s * w > 0.5
  {
    var m := 0.5 / w;
    HalfScaled(w);
    MulLt(m, s, w);
    var lo, sw := m * w, s * w;
    assert lo == 0.5;
    assert lo < sw;
  }

  lemma {:induction false} HalfPixelHigh(s: real, w: real)
    requires w >= 1.0 && s < 1.0 - 0.5 / w
    ensures s * w < w - 0.5
  {
    var m := 1.0 - 0.5 / w;
    HalfScaled(w);
    MulLt(s, m, w);
    var hi, sw := m * w, s * w;
    assert hi == w - 0.5;
    assert sw < hi;
  }

  /** The floor and ceiling of a position strictly between the first and the last
      pixel centre of a row of n pixels. */
  lemma {:induction false} FloorCeilInside(x: real, n: int)
    requires 0.0 < x < n as real - 1.0
    ensures 0 <= x.Floor <= Ceil(x) <= x.Floor + 1 && Ceil(x) < n
    ensures 0.0 <= x - x.Floor as real < 1.0
  {
  }

  lemma {:induction false} FloorWithin(x: real, n: int)
    requires 0.0 <= x <= n as real
    ensures 0 <= x.Floor <= n
  {
  }

  /** Around an interior position the four corners are genuine pixels of the screen
      (no clamping happens), adjacent to each other, and the blend offsets lie in
      [0, 1). */
  lemma {:induction false} InteriorCornersOnScreen(sx: real, sy: real, cam: CamParams)
    requires ValidCam(cam) && Interior(sx, sy, cam)
    ensures var c := CornersOf(sx, sy, cam);
      && 0 <= c.x0 <= c.x1 <= c.x0 + 1 && c.x1 < cam.width
      && 0 <= c.y0 <= c.y1 <= c.y0 + 1 && c.y1 < cam.height
      && 0.0 <= c.nx < 1.0 && 0.0 <= c.ny < 1.0
  {
    AxisCorners(sx, cam.width);
    AxisCorners(sy, cam.height);
  }

  /** One axis of InteriorCornersOnScreen, for a screen n pixels wide. */
  lemma {:induction false} AxisCorners(s: real, n: int)
    requires n >= 1 && s > 0.5 / n as real && s < 1.0 - 0.5 / n as real
    ensures var x := s * n as real - 0.5;
      && 0 <= x.Floor <= Ceil(x) <= x.Floor + 1 && Ceil(x) < n
      && 0.0 <= x - x.Floor as real < 1.0
  {
    HalfPixelLow(s, n as real);
    HalfPixelHigh(s, n as real);
    FloorCeilInside(s * n as real - 0.5, n);
  }

  /** The pixel an on-screen position falls in is, once clamped, a pixel of the
      screen: only the right and bottom edges (coordinate exactly 1) need clamping. */
  lemma {:induction false} NearestPixelOnScreen(sx: real, sy: real, cam: CamParams)
    requires ValidCam(cam) && IsPositionOnScreen(sx, sy)
    ensures var p := NearestPixel(sx, sy, cam);
      var c := ClampIndex(p.0, p.1, cam);
      && 0 <= p.0 <= cam.width && 0 <= p.1 <= cam.height
      && 0 <= c.0 < cam.width && 0 <= c.1 < cam.height
  {
    AxisPixel(sx, cam.width);
    AxisPixel(sy, cam.height);
  }

  /** One axis of NearestPixelOnScreen, for a screen n pixels wide. */
  lemma {:induction false} AxisPixel(s: real, n: int)
    requires n >= 1 && 0.0 <= s <= 1.0
    ensures 0 <= (s * n as real).Floor <= n
  {
    var w := n as real;
    var x := s * w;
    Geometry.ScaleWithin(s, w);
    FloorWithin(x, n);
  }

  lemma {:induction false} LerpBetween(p: real, q: real, t: real)
    requires 0.0 <= t <= 1.0
    ensures Min(p, q) <= (1.0 - t) * p + t * q <= Max(p, q)
  {
    assert (1.0 - t) * p + t * q == p + t * (q - p);
    if p <= q {
      Geometry.ScaleWithin(t, q - p);
    } else {
      Geometry.ScaleWithin(t, p - q);
      assert t * (q - p) == -(t * (p - q));
    }
  }

  lemma {:induction false} BlendIsNestedLerp(nx: real, ny: real, d: (real, real, real, real))
    ensures BilinearBlend(nx, ny, d)
      == (1.0 - ny) * ((1.0 - nx) * d.0 + nx * d.2) + ny * ((1.0 - nx) * d.1 + nx * d.3)
  {
  }

  /** A bilinear blend with offsets in [0, 1] never leaves the range of its four
      depths. */
  lemma {:induction false} BlendWithinCorners(nx: real, ny: real, d: (real, real, real, real))
    requires 0.0 <= nx <= 1.0 && 0.0 <= ny <= 1.0
    ensures Min4(d.0, d.1, d.2, d.3) <= BilinearBlend(nx, ny, d) <= Max4(d.0, d.1, d.2, d.3)
  {
    var top := (1.0 - nx) * d.0 + nx * d.2;
    var bottom := (1.0 - nx) * d.1 + nx * d.3;
    LerpBetween(d.0, d.2, nx);
    LerpBetween(d.1, d.3, nx);
    LerpBetween(top, bottom, ny);
    BlendIsNestedLerp(nx, ny, d);
    var r := (1.0 - ny) * top + ny * bottom;
    assert BilinearBlend(nx, ny, d) == r;
    BetweenRanges(d.0, d.1, d.2, d.3, top, bottom, r);
  }

  lemma {:induction false} BetweenRanges(d0: real, d1: real, d2: real, d3: real, top: real, bottom: real, r: real)
    requires Min(d0, d2) <= top <= Max(d0, d2) && Min(d1, d3) <= bottom <= Max(d1, d3)
    requires Min(top, bottom) <= r <= Max(top, bottom)
    ensures Min4(d0, d1, d2, d3) <= r <= Max4(d0, d1, d2, d3)
  {
  }

  /** When the sampler blends, the depth it returns (before noise) lies between the
      smallest and the largest of the four neighbouring pixel depths, which differ by
      at most 8 percent. */
  lemma {:induction false} BilinearWithinNeighbours(sx: real, sy: real, cam: CamParams, pixel: PixelDepth)
    requires ValidCam(cam) && UsesBilinear(sx, sy, cam, pixel)
    ensures var c := CornersOf(sx, sy, cam);
      var d := CornerDepths(c, cam, pixel);
      var r := DepthFromScreenPos(sx, sy, cam, pixel, false, 0.0);
      && Min4(d.0, d.1, d.2, d.3) <= r <= Max4(d.0, d.1, d.2, d.3)
      && Max4(d.0, d.1, d.2, d.3) <= 1.08 * Min4(d.0, d.1, d.2, d.3)
  {
    InteriorCornersOnScreen(sx, sy, cam);
    var c := CornersOf(sx, sy, cam);
    BlendWithinCorners(c.nx, c.ny, CornerDepths(c, cam, pixel));
  }

  /** Outside the half-pixel margin, or when the four neighbours differ by more than
      8 percent, the sampler returns the depth of the pixel the position falls in. */
  lemma {:induction false} DiscontinuityFallback(sx: real, sy: real, cam: CamParams, pixel: PixelDepth,
                                                 noiseOn: bool, noise: real)
    requires ValidCam(cam)
    requires !Interior(sx, sy, cam)
      || (var d := CornerDepths(CornersOf(sx, sy, cam), cam, pixel);
          Max4(d.0, d.1, d.2, d.3) > 1.08 * Min4(d.0, d.1, d.2, d.3))
    ensures var p := NearestPixel(sx, sy, cam);
      DepthFromScreenPos(sx, sy, cam, pixel, noiseOn, noise)
        == DepthFromNdc(p.0, p.1, cam, pixel) + (if noiseOn then noise else 0.0)
  {
  }

  /** At the exact centre of pixel (i, j) the sampler returns that pixel's depth,
      whether it blends or not. */
  lemma {:induction false} PixelCentreExact(i: int, j: int, cam: CamParams, pixel: PixelDepth,
                                            noiseOn: bool, noise: real)
    requires ValidCam(cam) && 0 <= i < cam.width && 0 <= j < cam.height
    ensures var sx := (i as real + 0.5) / cam.width as real;
      var sy := (j as real + 0.5) / cam.height as real;
      DepthFromScreenPos(sx, sy, cam, pixel, noiseOn, noise)
        == pixel(i, j) + (if noiseOn then noise else 0.0)
  {
    var w, h := cam.width as real, cam.height as real;
    var sx := (i as real + 0.5) / w;
    var sy := (j as real + 0.5) / h;
    assert sx * w == i as real + 0.5;
    assert sy * h == j as real + 0.5;
    var c := CornersOf(sx, sy, cam);
    assert c == Corners(i, i, j, j, 0.0, 0.0);
    assert (i as real + 0.5).Floor == i && (j as real + 0.5).Floor == j;
    assert NearestPixel(sx, sy, cam).0 == i;
    assert NearestPixel(sx, sy, cam).1 == j;
    var d := CornerDepths(c, cam, pixel);
    assert d == (pixel(i, j), pixel(i, j), pixel(i, j), pixel(i, j));
    assert BilinearBlend(0.0, 0.0, d) == pixel(i, j);
  }
}
