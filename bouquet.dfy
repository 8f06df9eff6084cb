/**
 * The rose layout of `BouquetCreator`: a viewport-dependent number of stems
 * placed on a dome by a golden-angle spiral, each stem a three-point curve
 * from one shared base point to a lifted point above its dome sample, with a
 * random growth delay, a height-weighted scale and one of two colours.
 * The curve is kept as its three control points; interpolating it, building
 * tubes and the `Math.sqrt`, `Math.cos` and `Math.sin` values are left to
 * the caller.
 */
module Bouquet {
  import opened Wrappers
  import opened JsMath

  datatype Vec3 = Vec3(x: real, y: real, z: real) {

    /** Component-wise sum, as `addVectors`. */
    function Add(o: Vec3): Vec3 {
      Vec3(x + o.x, y + o.y, z + o.z)
    }

    /** Every component multiplied by `k`, as `multiplyScalar`. */
    function Times(k: real): Vec3 {
      Vec3(x * k, y * k, z * k)
    }
  }

  /** Viewports narrower than this many pixels get the light layout. */
  const Breakpoint: int := 768

  /** How many stems there are, how far the dome spreads, and how much each flower is enlarged to make up for fewer stems. */
  datatype Density = Density(count: nat, spread: real, mobileScale: real)

  /** The point every stem grows from. */
  const Start: Vec3 := Vec3(0.0, -4.0, 0.0)

  /** How far the middle control point is pushed out horizontally. */
  const Bulge: real := 1.6

  /** The fixed enlargement applied to every flower. */
  const QualityMultiplier: real := 1.5

  const Pink: string := "#ff4d6d"
  const Red: string := "#d00000"

  /**
   * Whether the layout is the light one: there is a window and it is
   * narrower than the breakpoint. `None` is the absence of a window
   * (rendering on a server), which gets the full layout.
   */
  predicate IsMobile(viewportWidth: Option<int>) {
    viewportWidth.Some? && viewportWidth.value < Breakpoint
  }

  /** The density profile: 80 stems over a tighter dome with flowers 2.5 times larger on narrow screens, 800 stems otherwise. */
  function DensityFor(viewportWidth: Option<int>): (d: Density)
    ensures 2 <= d.count && 0.0 < d.spread && 1.0 <= d.mobileScale
    ensures IsMobile(viewportWidth) <==> d.count == 80
    ensures IsMobile(viewportWidth) ==> d.spread == 4.0 && d.mobileScale == 2.5
    ensures !IsMobile(viewportWidth) ==> d.count == 800 && d.spread == 5.0 && d.mobileScale == 1.0
  {
    if IsMobile(viewportWidth) then Density(80, 4.0, 2.5) else Density(800, 5.0, 1.0)
  }

  /** The breakpoint falls between 767 and 768 pixels, and a narrow viewport never gets more stems than a wider one. */
  lemma DensityBreakpoint(narrow: int, wide: int)
    requires narrow <= wide
    ensures DensityFor(Some(767)).count == 80 && DensityFor(Some(768)).count == 800
    ensures DensityFor(Some(narrow)).count <= DensityFor(Some(wide)).count
    ensures narrow < Breakpoint <= wide ==> DensityFor(Some(narrow)).count < DensityFor(Some(wide)).count
  {
  }

  /** The golden angle `π·(3 − √5)` between consecutive spiral samples. */
  function GoldenAngle(m: Transcendentals): real {
    Pi * (3.0 - m.sqrt(5.0))
  }

  /** With an exact square root, the golden angle lies strictly between 0 and π (it is about 0.76·π). */
  lemma GoldenAngleRange(m: Transcendentals)
    requires Exact(m)
    ensures 0.0 < GoldenAngle(m) < Pi
  {
    var r := m.sqrt(5.0);
    assert 0.0 <= r && r * r == 5.0;
    if r <= 2.0 {
      SquareMonotone(r, 2.0);
      assert false;
    }
    if 3.0 <= r {
      SquareMonotone(3.0, r);
      assert false;
    }
    MulStrict(Pi, 0.0, 3.0 - r);
    MulStrict(Pi, 3.0 - r, 1.0);
  }

  /** Squaring keeps order on non-negative values. */
  lemma SquareMonotone(a: real, b: real)
    requires 0.0 <= a <= b
    ensures a * a <= b * b
  {
    assert b * b - a * a == (b - a) * (b + a);
  }

  /** Height on the dome of sample `i` of `count`: from 1 at the top down to 0.05, evenly spaced. */
  function DomeY(i: nat, count: nat): (y: real)
    requires 2 <= count && i < count
    ensures 0.05 <= y <= 1.0
    ensures i == 0 ==> y == 1.0
    ensures i == count - 1 ==> y == 0.05
  {
    var t := i as real / (count - 1) as real;
    DivBounds(i as real, (count - 1) as real);
    DivSelf((count - 1) as real);
    1.0 - t * 0.95
  }

  /** Later samples sit strictly lower on the dome. */
  lemma DomeYDecreasing(i: nat, j: nat, count: nat)
    requires 2 <= count && i < j < count
    ensures DomeY(j, count) < DomeY(i, count)
  {
    DivStrict(i as real, j as real, (count - 1) as real);
  }

  /** A fraction `a / c` with `0 <= a <= c` lies in [0, 1]. */
  lemma DivBounds(a: real, c: real)
    requires 0.0 <= a <= c && 0.0 < c
    ensures 0.0 <= a / c <= 1.0
  {
    var t := a / c;
    assert t * c == a;
    if t < 0.0 {
      MulStrict(c, t, 0.0);
      assert false;
    }
    if 1.0 < t {
      MulStrict(c, 1.0, t);
      assert false;
    }
  }

  lemma DivSelf(c: real)
    requires 0.0 < c
    ensures c / c == 1.0
  {
  }

  /** Dividing by a positive number keeps strict order. */
  lemma DivStrict(a: real, b: real, c: real)
    requires a < b && 0.0 < c
    ensures a / c < b / c
  {
    var ta, tb := a / c, b / c;
    assert ta * c == a && tb * c == b;
    if tb <= ta {
      if tb < ta {
        MulStrict(c, tb, ta);
      }
      assert false;
    }
  }

  /** A point of the unit dome. */
  datatype DomeSample = DomeSample(x: real, y: real, z: real)

  /** Sample `i` of `count` on the golden-angle spiral. */
  function Sample(i: nat, count: nat, m: Transcendentals): (s: DomeSample)
    requires 2 <= count && i < count
    ensures s.y == DomeY(i, count)
    ensures 0.05 <= s.y <= 1.0
  {
    var y := DomeY(i, count);
    var radius := m.sqrt(1.0 - y * y);
    var theta := GoldenAngle(m) * i as real;
    DomeSample(m.cos(theta) * radius, y, m.sin(theta) * radius)
  }

  /** With an exact square root, sine and cosine, every sample lies on the unit sphere. */
  lemma SampleOnSphere(i: nat, count: nat, m: Transcendentals)
    requires 2 <= count && i < count
    requires Exact(m)
    ensures var s := Sample(i, count, m); s.x * s.x + s.y * s.y + s.z * s.z == 1.0
  {
    var y := DomeY(i, count);
    var radius := m.sqrt(1.0 - y * y);
    var theta := GoldenAngle(m) * i as real;
    MulMonotone(y, y, 1.0);
    CircleAtHeight(m.cos(theta), m.sin(theta), radius, y);
  }

  /** A point at angle (cos, sin) on the circle of radius `r` at height `y`, with `r² = 1 − y²`, is on the unit sphere. */
  lemma CircleAtHeight(c: real, sn: real, r: real, y: real)
    requires c * c + sn * sn == 1.0 && r * r == 1.0 - y * y
    ensures (c * r) * (c * r) + y * y + (sn * r) * (sn * r) == 1.0
  {
    assert (c * r) * (c * r) == (c * c) * (r * r);
    assert (sn * r) * (sn * r) == (sn * sn) * (r * r);
    assert (c * c) * (r * r) + (sn * sn) * (r * r) == (c * c + sn * sn) * (r * r);
  }

  /** The three control points of one stem. */
  datatype StemCurve = StemCurve(start: Vec3, mid: Vec3, end: Vec3)

  /**
   * The curve of a stem whose dome sample is `s`: from `Start` to the
   * sample scaled by `spread` and lifted by `height`, through the midpoint
   * of the two pushed outward by `Bulge` in x and z only.
   */
  function StemCurveFor(s: DomeSample, spread: real, height: real): (c: StemCurve)
    ensures c.start == Start
    ensures c.end.x == s.x * spread && c.end.z == s.z * spread
    ensures c.end.y - s.y * spread == height
    ensures c.mid.x == Bulge * (c.start.x + c.end.x) / 2.0
    ensures c.mid.y == (c.start.y + c.end.y) / 2.0
    ensures c.mid.z == Bulge * (c.start.z + c.end.z) / 2.0
  {
    var end := Vec3(s.x * spread, s.y * spread + height, s.z * spread);
    var mid := Start.Add(end).Times(0.5);
    StemCurve(Start, mid.(x := mid.x * Bulge, z := mid.z * Bulge), end)
  }

  /** The middle point sits at 0.8 of the end point horizontally, and halfway up from the base. */
  lemma MidPointBulge(s: DomeSample, spread: real, height: real)
    ensures var c := StemCurveFor(s, spread, height);
      c.mid.x == 0.8 * c.end.x && c.mid.z == 0.8 * c.end.z && c.mid.y == (c.end.y - 4.0) / 2.0
  {
  }

  /**
   * The flower scale for scale draw `r` at dome height `y`: a base size in
   * [0.025, 0.05) enlarged by up to 20% with height, by the density's
   * multiplier and by the quality multiplier.
   */
  function StemScale(r: Draw, y: real, mobileScale: real): real {
    (0.025 + r * 0.025) * (1.0 + y * 0.2) * mobileScale * QualityMultiplier
  }

  /**
   * For a height on the dome and a positive density multiplier `k`, the
   * scale is positive and lies in [0.025·1.01·k·1.5, 0.05·1.2·k·1.5).
   */
  lemma StemScaleBounds(r: Draw, y: real, k: real)
    requires 0.05 <= y <= 1.0 && 0.0 < k
    ensures 0.0 < StemScale(r, y, k)
    ensures 0.025 * 1.01 * k * QualityMultiplier <= StemScale(r, y, k) < 0.05 * 1.2 * k * QualityMultiplier
  {
    var base, lift := 0.025 + r * 0.025, 1.0 + y * 0.2;
    ProductBounds(base, lift, 0.025, 0.05, 1.01, 1.2);
    ScaleBounds(base * lift, 0.025 * 1.01, 0.05 * 1.2, k);
    ScaleBounds(base * lift * k, 0.025 * 1.01 * k, 0.05 * 1.2 * k, QualityMultiplier);
  }

  /** For one scale draw, a flower higher on the dome is never smaller. */
  lemma ScaleGrowsWithHeight(r: Draw, y1: real, y2: real, mobileScale: real)
    requires y1 <= y2 && 0.0 < mobileScale
    ensures StemScale(r, y1, mobileScale) <= StemScale(r, y2, mobileScale)
  {
    var base := 0.025 + r * 0.025;
    var l1, l2 := 1.0 + y1 * 0.2, 1.0 + y2 * 0.2;
    MulMonotone(base, l1, l2);
    MulMonotone(mobileScale, base * l1, base * l2);
    MulMonotone(QualityMultiplier, base * l1 * mobileScale, base * l2 * mobileScale);
  }

  /** Multiplying by a positive factor keeps order. */
  lemma MulMonotone(k: real, a: real, b: real)
    requires 0.0 < k && a <= b
    ensures k * a <= k * b
  {
    assert k * b - k * a == k * (b - a);
  }

  /** Multiplying by a positive factor keeps strict order. */
  lemma MulStrict(k: real, a: real, b: real)
    requires 0.0 < k && a < b
    ensures k * a < k * b
  {
    assert k * b - k * a == k * (b - a);
  }

  /** Bounds of a product of two positive values from the bounds of each. */
  lemma ProductBounds(a: real, b: real, aLo: real, aHi: real, bLo: real, bHi: real)
    requires 0.0 < aLo <= a < aHi && 0.0 < bLo <= b <= bHi
    ensures aLo * bLo <= a * b < aHi * bHi
  {
    MulMonotone(bLo, aLo, a);
    MulMonotone(a, bLo, b);
    MulMonotone(a, b, bHi);
    assert a * bHi < aHi * bHi by {
      assert aHi * bHi - a * bHi == (aHi - a) * bHi;
    }
  }

  /** Bounds of a value survive scaling by a positive factor. */
  lemma ScaleBounds(v: real, lo: real, hi: real, k: real)
    requires 0.0 < lo <= v < hi && 0.0 < k
    ensures 0.0 < lo * k <= v * k < hi * k
  {
    assert v * k - lo * k == (v - lo) * k;
    assert hi * k - v * k == (hi - v) * k;
  }

  /** A stem: its curve and what the renderer needs to grow and draw its flower. */
  datatype Rose = Rose(id: nat, curve: StemCurve, delay: real, scale: real, color: string)

  /** The `Math.random()` values one stem draws: lift, delay, scale and colour. */
  datatype RoseDraws = RoseDraws(height: Draw, delay: Draw, scale: Draw, color: Draw)

  /** Stem `i` of the layout for `viewportWidth`, with its own draws. */
  function RoseAt(i: nat, viewportWidth: Option<int>, m: Transcendentals, d: RoseDraws): (rose: Rose)
    requires i < DensityFor(viewportWidth).count
    ensures rose.id == i
    ensures rose.curve.start == Start
    ensures var density := DensityFor(viewportWidth);
      var y := DomeY(i, density.count);
      y * density.spread + 1.0 <= rose.curve.end.y < y * density.spread + 3.0
    ensures rose.delay == d.delay * 3.0 && 0.0 <= rose.delay < 3.0
    ensures rose.color == Pink <==> 0.6 < d.color
    ensures rose.color == Red <==> d.color <= 0.6
    ensures var density := DensityFor(viewportWidth);
      rose.curve == StemCurveFor(Sample(i, density.count, m), density.spread, 1.0 + d.height * 2.0) &&
      rose.scale == StemScale(d.scale, DomeY(i, density.count), density.mobileScale)
  {
    var density := DensityFor(viewportWidth);
    var s := Sample(i, density.count, m);
    var height := 1.0 + d.height * 2.0;
    Rose(i,
         StemCurveFor(s, density.spread, height),
         d.delay * 3.0,
         StemScale(d.scale, s.y, density.mobileScale),
         if 0.6 < d.color then Pink else Red)
  }

  /** Every flower has a positive scale within the bounds its density allows. */
  lemma RoseScaleBounds(i: nat, viewportWidth: Option<int>, m: Transcendentals, d: RoseDraws)
    requires i < DensityFor(viewportWidth).count
    ensures var k := DensityFor(viewportWidth).mobileScale;
      0.0 < RoseAt(i, viewportWidth, m, d).scale &&
      0.025 * 1.01 * k * QualityMultiplier <= RoseAt(i, viewportWidth, m, d).scale < 0.05 * 1.2 * k * QualityMultiplier
  {
    var density := DensityFor(viewportWidth);
    StemScaleBounds(d.scale, DomeY(i, density.count), density.mobileScale);
  }

  /** With the same scale draw, a stem further along the spiral (lower on the dome) never gets a larger flower. */
  lemma ScaleDownTheDome(i: nat, j: nat, viewportWidth: Option<int>, m: Transcendentals, d: RoseDraws)
    requires i < j < DensityFor(viewportWidth).count
    ensures RoseAt(j, viewportWidth, m, d).scale <= RoseAt(i, viewportWidth, m, d).scale
  {
    var density := DensityFor(viewportWidth);
    DomeYDecreasing(i, j, density.count);
    ScaleGrowsWithHeight(d.scale, DomeY(j, density.count), DomeY(i, density.count), density.mobileScale);
  }

  /**
   * The roses of the bouquet for `viewportWidth`, stem `i` made with
   * `draws[i]`, appended one by one in spiral order.
   */
  method GenerateRoses(viewportWidth: Option<int>, m: Transcendentals, draws: seq<RoseDraws>) returns (roses: seq<Rose>)
    requires |draws| == DensityFor(viewportWidth).count
    ensures |roses| == DensityFor(viewportWidth).count
    ensures forall i :: 0 <= i < |roses| ==> roses[i] == RoseAt(i, viewportWidth, m, draws[i])
    ensures forall i :: 0 <= i < |roses| ==> roses[i].id == i && roses[i].curve.start == Start
  {
    var count := DensityFor(viewportWidth).count;
    roses := [];
    var i := 0;
    while i < count
      invariant 0 <= i <= count
      invariant |roses| == i
      invariant forall j :: 0 <= j < i ==> roses[j] == RoseAt(j, viewportWidth, m, draws[j])
    {
      roses := roses + [RoseAt(i, viewportWidth, m, draws[i])];
      i := i + 1;
    }
  }
}
