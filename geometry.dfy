/**
 * The layout engine: pixels per inch and the pixel rectangles of the drawn
 * elements, all placed relative to the centre of the drawing surface.
 */
module Geometry {
  import opened Wrappers
  import opened Equipment
  import opened Niche

  /** The active orientation button; any id other than 'horizontal' is vertical. */
  datatype Orientation = Horizontal | Vertical

  /** The canvas size in pixels, as `canvas.width` and `canvas.height` report it. */
  datatype Surface = Surface(width: real, height: real)

  datatype Point = Point(x: real, y: real)

  /** A rectangle as the canvas calls take it: top-left corner, width, height. */
  datatype Rect = Rect(x: real, y: real, w: real, h: real)

  function Center(s: Surface): Point {
    Point(s.width / 2.0, s.height / 2.0)
  }

  predicate CenteredOn(r: Rect, c: Point) {
    r.x + r.w / 2.0 == c.x && r.y + r.h / 2.0 == c.y
  }

  /** Both borders of `outer` lie strictly outside those of `inner`, on both axes. */
  predicate StrictlyContains(outer: Rect, inner: Rect) {
    && outer.x < inner.x && inner.x + inner.w < outer.x + outer.w
    && outer.y < inner.y && inner.y + inner.h < outer.y + outer.h
  }

  function Bottom(r: Rect): real {
    r.y + r.h
  }

  /** The rectangle of width w and height h centred on c. */
  function CenteredRect(c: Point, w: real, h: real): (r: Rect)
    ensures CenteredOn(r, c) && r.w == w && r.h == h
  {
    Rect(c.x - w / 2.0, c.y - h / 2.0, w, h)
  }

  /** The screen's horizontal extent in inches once oriented. */
  function OrientedWidth(screen: Screen, o: Orientation): real {
    if o == Horizontal then screen.width else screen.height
  }

  function OrientedHeight(screen: Screen, o: Orientation): real {
    if o == Horizontal then screen.height else screen.width
  }

  function Min(a: real, b: real): real {
    if a <= b then a else b
  }

  /** A scale at which the oriented screen fits within 80% of the surface. */
  ghost predicate Fits(screen: Screen, o: Orientation, s: Surface, scale: real) {
    OrientedWidth(screen, o) * scale <= 0.8 * s.width && OrientedHeight(screen, o) * scale <= 0.8 * s.height
  }

  lemma ProductBound(a: real, b: real, c: real)
    requires c > 0.0
    ensures a <= b / c <==> a * c <= b
  {
    if a <= b / c {
      assert a * c <= (b / c) * c;
    } else {
      assert a * c > (b / c) * c;
    }
  }

  /**
   * Pixels per inch: the smaller of the two ratios that make the oriented
   * screen exactly 80% of the surface width or height. It fits, it touches
   * the bound on one axis, and no larger scale fits.
   */
  function CalculateScale(screen: Screen, o: Orientation, s: Surface): (scale: real)
    requires screen.width > 0.0 && screen.height > 0.0
    ensures Fits(screen, o, s, scale)
    ensures OrientedWidth(screen, o) * scale == 0.8 * s.width || OrientedHeight(screen, o) * scale == 0.8 * s.height
    ensures forall k :: Fits(screen, o, s, k) ==> k <= scale
  {
    var sw := OrientedWidth(screen, o);
    var sh := OrientedHeight(screen, o);
    var maxWidth := s.width * 0.8;
    var maxHeight := s.height * 0.8;
    var scale := Min(maxWidth / sw, maxHeight / sh);
    ProductBound(scale, maxWidth, sw);
    ProductBound(scale, maxHeight, sh);
    assert sw * (maxWidth / sw) == maxWidth;
    assert sh * (maxHeight / sh) == maxHeight;
    forall k | Fits(screen, o, s, k) ensures k <= scale {
      ProductBound(k, maxWidth, sw);
      ProductBound(k, maxHeight, sh);
    }
    scale
  }

  lemma QuotientScales(w: real, d: real, k: real)
    requires d > 0.0
    ensures (k * w) * 0.8 / d == k * (w * 0.8 / d)
  {
    var q := w * 0.8 / d;
    assert q * d == w * 0.8;
    assert (k * q) * d == (k * w) * 0.8;
  }

  lemma MinScales(a: real, b: real, k: real)
    requires k >= 0.0
    ensures Min(k * a, k * b) == k * Min(a, b)
  {
    if a <= b {
      assert k * a <= k * b;
    } else {
      assert k * b <= k * a;
    }
  }

  /** Scaling both surface dimensions by k >= 0 scales the result by k. */
  lemma ScaleIsLinear(screen: Screen, o: Orientation, s: Surface, k: real)
    requires screen.width > 0.0 && screen.height > 0.0
    requires k >= 0.0
    ensures CalculateScale(screen, o, Surface(k * s.width, k * s.height)) == k * CalculateScale(screen, o, s)
  {
    var sw := OrientedWidth(screen, o);
    var sh := OrientedHeight(screen, o);
    QuotientScales(s.width, sw, k);
    QuotientScales(s.height, sh, k);
    MinScales(s.width * 0.8 / sw, s.height * 0.8 / sh, k);
  }

  /** The wall outline: 90% of the surface on each axis, centred. */
  function WallRect(s: Surface): (r: Rect)
  {
    var wallHeight := s.height * 0.9;
    var wallWidth := s.width * 0.9;
    Rect((s.width - wallWidth) / 2.0, (s.height - wallHeight) / 2.0, wallWidth, wallHeight)
  }

  /** The screen block, rotated in vertical orientation. */
  function ScreenRect(screen: Screen, o: Orientation, scale: real, s: Surface): Rect {
    CenteredRect(Center(s), OrientedWidth(screen, o) * scale, OrientedHeight(screen, o) * scale)
  }

  /** The mount outline, never rotated. */
  function MountRect(mount: Mount, scale: real, s: Surface): Rect {
    CenteredRect(Center(s), mount.width * scale, mount.height * scale)
  }

  /** The media player block, 10 px below the screen and horizontally centred. */
  function MediaPlayerRect(player: MediaPlayer, screen: Screen, o: Orientation, scale: real, s: Surface): Rect {
    var c := Center(s);
    var mpWidth := player.dimensions.width * scale;
    var mpHeight := player.dimensions.height * scale;
    var screenHeight := OrientedHeight(screen, o) * scale;
    Rect(c.x - mpWidth / 2.0, c.y + screenHeight / 2.0 + 10.0, mpWidth, mpHeight)
  }

  /** The niche, from its unrotated size. */
  function NicheRect(niche: NicheSize, scale: real, s: Surface): Rect {
    CenteredRect(Center(s), niche.width * scale, niche.height * scale)
  }

  /**
   * The receptacle box, drawn at 1.5 times the scale and placed 16 inches
   * (at the base scale) below the bottom of the unrotated screen.
   */
  function ReceptacleRect(box: Receptacle, screen: Screen, scale: real, c: Point): Rect {
    var boxScale := scale * 1.5;
    var receptacleWidth := box.dimensions.width * boxScale;
    var receptacleHeight := box.dimensions.height * boxScale;
    Rect(c.x - receptacleWidth / 2.0, c.y + screen.height * scale / 2.0 + 16.0 * scale,
         receptacleWidth, receptacleHeight)
  }

  /** The y coordinate the receptacle's 16-inch offset is measured from. */
  function UnrotatedScreenBottom(screen: Screen, scale: real, c: Point): real {
    c.y + screen.height * scale / 2.0
  }

  /** The square data outlet drawn inside the receptacle box. */
  function DataOutletRect(box: Rect): Rect {
    var dataSize := 15.0 * 1.5;
    Rect(box.x + box.w / 2.0 - dataSize / 2.0, box.y + box.h * 2.0 / 3.0 - dataSize / 2.0, dataSize, dataSize)
  }

  /** Centres of the two round power outlets drawn inside the receptacle box. */
  function PowerOutletCenters(box: Rect): seq<Point> {
    [Point(box.x + box.w / 4.0, box.y + box.h / 3.0), Point(box.x + box.w * 3.0 / 4.0, box.y + box.h / 3.0)]
  }

  lemma ElementsCentred(screen: Screen, mount: Mount, niche: NicheSize, o: Orientation, scale: real, s: Surface)
    ensures CenteredOn(WallRect(s), Center(s))
    ensures CenteredOn(ScreenRect(screen, o, scale, s), Center(s))
    ensures CenteredOn(MountRect(mount, scale, s), Center(s))
    ensures CenteredOn(NicheRect(niche, scale, s), Center(s))
  {
  }

  /** The wall outline keeps a 5% margin on every side of the surface. */
  lemma WallMargins(s: Surface)
    ensures var r := WallRect(s);
            && r.x == 0.05 * s.width && r.w == 0.9 * s.width
            && r.y == 0.05 * s.height && r.h == 0.9 * s.height
  {
  }

  /** In horizontal orientation the niche strictly surrounds the screen. */
  lemma NicheContainsScreen(screen: Screen, player: Option<MediaPlayer>, mount: Option<Mount>,
                            varianceInput: Option<real>, scale: real, s: Surface)
    requires scale > 0.0
    ensures StrictlyContains(NicheRect(CalculateNicheSize(Some(screen), player, mount, varianceInput), scale, s),
                             ScreenRect(screen, Horizontal, scale, s))
  {
    var n := CalculateNicheSize(Some(screen), player, mount, varianceInput);
    var gap := GapSize(screen.width);
    assert n.width * scale == screen.width * scale + 2.0 * gap * scale;
    assert n.height * scale == screen.height * scale + 2.0 * gap * scale;
    assert gap * scale > 0.0;
  }

  /**
   * In vertical orientation the niche keeps its unrotated size while the
   * screen is drawn rotated: the screen of any landscape model more than 4
   * inches wider than tall sticks out of its niche at the top and bottom.
   */
  lemma VerticalNicheMissesScreen(screen: Screen, player: Option<MediaPlayer>, mount: Option<Mount>,
                                  varianceInput: Option<real>, scale: real, s: Surface)
    requires scale > 0.0 && screen.width > screen.height + 4.0
    ensures var niche := NicheRect(CalculateNicheSize(Some(screen), player, mount, varianceInput), scale, s);
            var shown := ScreenRect(screen, Vertical, scale, s);
            niche.y > shown.y && Bottom(niche) < Bottom(shown) && !StrictlyContains(niche, shown)
  {
    var n := CalculateNicheSize(Some(screen), player, mount, varianceInput);
    assert n.height < screen.width;
    assert n.height * scale < screen.width * scale;
  }

  /** The media player's top edge is exactly 10 px below the screen's bottom edge. */
  lemma MediaPlayerBelowScreen(player: MediaPlayer, screen: Screen, o: Orientation, scale: real, s: Surface)
    ensures var r := MediaPlayerRect(player, screen, o, scale, s);
            && r.y == Bottom(ScreenRect(screen, o, scale, s)) + 10.0
            && r.x + r.w / 2.0 == Center(s).x
            && r.w == player.dimensions.width * scale && r.h == player.dimensions.height * scale
  {
  }

  /**
   * The receptacle box: 1.5 times the scale, horizontally centred, its top
   * 16 inches below the unrotated screen's bottom; that is the drawn
   * screen's bottom in horizontal orientation only.
   */
  lemma ReceptacleBelowScreen(box: Receptacle, screen: Screen, o: Orientation, scale: real, s: Surface)
    ensures var r := ReceptacleRect(box, screen, scale, Center(s));
            var shown := ScreenRect(screen, o, scale, s);
            && r.w == box.dimensions.width * (1.5 * scale) && r.h == box.dimensions.height * (1.5 * scale)
            && r.x + r.w / 2.0 == Center(s).x
            && r.y == UnrotatedScreenBottom(screen, scale, Center(s)) + 16.0 * scale
            && (o == Horizontal ==> r.y == Bottom(shown) + 16.0 * scale)
            && (o == Vertical ==> r.y == Bottom(shown) + 16.0 * scale + (screen.height - screen.width) * scale / 2.0)
  {
  }

  /** The power outlets mirror each other about the box's centre line; the data outlet sits on it. */
  lemma ReceptacleSymbolsSymmetric(box: Rect)
    ensures var p := PowerOutletCenters(box);
            var d := DataOutletRect(box);
            && |p| == 2
            && p[0].x + p[1].x == 2.0 * (box.x + box.w / 2.0) && p[0].y == p[1].y
            && d.x + d.w / 2.0 == box.x + box.w / 2.0
  {
  }

  // Arrowheads. drawArrow only ever rotates by 0, pi/2, pi or -pi/2.

  datatype Angle = Zero | HalfPi | Pi | MinusHalfPi

  function Cos(a: Angle): real {
    match a
    case Zero => 1.0
    case HalfPi => 0.0
    case Pi => -1.0
    case MinusHalfPi => 0.0
  }

  function Sin(a: Angle): real {
    match a
    case Zero => 0.0
    case HalfPi => 1.0
    case Pi => 0.0
    case MinusHalfPi => -1.0
  }

  /** The canvas point that local point p maps to after `translate(origin)` and `rotate(a)`. */
  function Transform(origin: Point, a: Angle, p: Point): Point {
    Point(origin.x + p.x * Cos(a) - p.y * Sin(a), origin.y + p.x * Sin(a) + p.y * Cos(a))
  }

  /** The chevron drawArrow strokes: (-5,-5) to the tip to (-5,5) in the rotated frame. */
  function ArrowPath(tip: Point, a: Angle): seq<seq<Point>> {
    var arrowSize := 5.0;
    [[Transform(tip, a, Point(-arrowSize, -arrowSize)), Transform(tip, a, Point(0.0, 0.0)),
      Transform(tip, a, Point(-arrowSize, arrowSize))]]
  }

  function Dot(u: Point, v: Point): real {
    u.x * v.x + u.y * v.y
  }

  function Sub(u: Point, v: Point): Point {
    Point(u.x - v.x, u.y - v.y)
  }

  /**
   * The chevron's tip is at the target point and both wings trail 5 px behind
   * it along the arrow's direction (cos a, sin a), 5 px to either side.
   */
  lemma ArrowShape(tip: Point, a: Angle)
    ensures var path := ArrowPath(tip, a);
            var dir := Point(Cos(a), Sin(a));
            var side := Point(-Sin(a), Cos(a));
            && |path| == 1 && |path[0]| == 3 && path[0][1] == tip
            && Dot(Sub(tip, path[0][0]), dir) == 5.0 && Dot(Sub(tip, path[0][2]), dir) == 5.0
            && Dot(Sub(path[0][0], tip), side) == -5.0 && Dot(Sub(path[0][2], tip), side) == 5.0
  {
  }
}
