/** The label side of car_and_LP3/render_car.py: the soft viewpoint
    distribution of a rendered car, the box of a scaled and rotated car
    image, the scale and paste bounds, the label row assembled for every
    image of a batch, and the PASCAL3D+ annotation readers (azimuth class
    binning and the one-car rule). Pixels, files and the augmenters are not
    modelled; every random draw is a parameter. */
module RenderCar {
  import opened Numerics
  import opened Gluon

  /** A Python call either returns a value or raises. */
  datatype Result<T> = Success(value: T) | Failure(error: string)

  // ---------------------------------------------------------------------
  // get_label_distribution

  /** One viewpoint class: its azimuth and elevation in degrees (the two
      columns of `classes`). */
  datatype ViewClass = ViewClass(azi: real, ele: real)

  /** The cosine of the great-circle angle between the viewpoint (ele, azi),
      in radians, and class c: sin e sin e_c + cos e cos e_c cos(a - a_c). */
  function GreatCircleCosine(t: Transcendentals, ele: real, azi: real, c: ViewClass): real {
    t.sin(ele) * t.sin(DegToRad(c.ele))
      + t.cos(ele) * t.cos(DegToRad(c.ele)) * t.cos(azi - DegToRad(c.azi))
  }

  /** `cos_ang`: the great-circle angle to every class. */
  function Angles(t: Transcendentals, classes: seq<ViewClass>, ele: real, azi: real): (a: seq<real>)
    ensures |a| == |classes|
    ensures forall k :: 0 <= k < |classes| ==> a[k] == t.arccos(GreatCircleCosine(t, ele, azi, classes[k]))
  {
    seq(|classes|, k requires 0 <= k < |classes| => t.arccos(GreatCircleCosine(t, ele, azi, classes[k])))
  }

  /** The Gaussian weight exp(-a^2 / sigma) of an angle. */
  function Gaussian(t: Transcendentals, a: real, sigma: real): real
    requires sigma != 0.0
  {
    t.exp(-(a * a) / sigma)
  }

  function Gaussians(t: Transcendentals, angles: seq<real>, sigma: real): (g: seq<real>)
    requires Lawful(t) && sigma != 0.0
    ensures |g| == |angles|
    ensures forall k :: 0 <= k < |angles| ==> g[k] == Gaussian(t, angles[k], sigma) && g[k] > 0.0
  {
    seq(|angles|, k requires 0 <= k < |angles| => Gaussian(t, angles[k], sigma))
  }

  /** What get_label_distribution returns: the nearest class and the
      distribution over all classes. */
  datatype Viewpoint = Viewpoint(cls: nat, distribution: seq<real>)

  /** The `sigma` default of get_label_distribution, the only value render
      passes. */
  const Sigma: real := 0.1

  /** get_label_distribution: the Gaussian weights of the angles, divided by
      their sum, and the class of smallest angle. */
  function LabelDistribution(t: Transcendentals, classes: seq<ViewClass>, ele: real, azi: real, sigma: real): (v: Viewpoint)
    requires Lawful(t) && |classes| >= 1 && sigma > 0.0
    ensures v.cls < |classes| && |v.distribution| == |classes|
  {
    var angles := Angles(t, classes, ele, azi);
    var g := Gaussians(t, angles, sigma);
    SumPositive(g);
    Viewpoint(ArgMin(angles), DivideAll(g, Sum(g)))
  }

  /** The distribution is a probability vector: every entry is positive and
      the entries sum to 1. */
  lemma DistributionNormalised(t: Transcendentals, classes: seq<ViewClass>, ele: real, azi: real, sigma: real)
    requires Lawful(t) && |classes| >= 1 && sigma > 0.0
    ensures var d := LabelDistribution(t, classes, ele, azi, sigma).distribution;
      Sum(d) == 1.0 && forall k :: 0 <= k < |d| ==> 0.0 < d[k]
  {
    var g := Gaussians(t, Angles(t, classes, ele, azi), sigma);
    Normalised(g);
  }

  /** A non-empty vector of positive weights divided by its sum is a
      probability vector. */
  lemma Normalised(g: seq<real>)
    requires |g| >= 1 && forall k :: 0 <= k < |g| ==> g[k] > 0.0
    ensures Sum(g) > 0.0
    ensures Sum(DivideAll(g, Sum(g))) == 1.0
    ensures forall k :: 0 <= k < |g| ==> 0.0 < DivideAll(g, Sum(g))[k]
  {
    SumPositive(g);
    var s := Sum(g);
    SumDivideAll(g, s);
    SelfQuotient(s);
    forall k | 0 <= k < |g|
      ensures 0.0 < DivideAll(g, s)[k]
    {
      PositiveQuotient(g[k], s);
    }
  }

  lemma SelfQuotient(s: real)
    requires s > 0.0
    ensures s / s == 1.0
  {
    var q := s / s;
    assert q * s == s;
  }

  lemma PositiveQuotient(a: real, b: real)
    requires 0.0 < a && 0.0 < b
    ensures 0.0 < a / b
  {
  }

  /** The argument of arccos is a cosine: it lies in [-1, 1] for every class,
      so the angles are defined and not negative. */
  lemma CosineInRange(t: Transcendentals, ele: real, azi: real, c: ViewClass)
    requires Lawful(t)
    ensures -1.0 <= GreatCircleCosine(t, ele, azi, c) <= 1.0
  {
    var d := azi - DegToRad(c.azi);
    UnitBound(t.sin(d), t.cos(d));
    CosineBound(t.sin(ele), t.cos(ele), t.sin(DegToRad(c.ele)), t.cos(DegToRad(c.ele)), t.cos(d));
  }

  lemma UnitBound(s: real, c: real)
    requires s * s + c * c == 1.0
    ensures -1.0 <= c <= 1.0
  {
    SquareAtMostOne(c, s * s);
  }

  lemma SquareAtMostOne(x: real, rest: real)
    requires rest >= 0.0 && x * x + rest == 1.0
    ensures -1.0 <= x <= 1.0
  {
  }

  /** |sa sb + ca cb k| <= 1 when (sa, ca) and (sb, cb) are unit vectors and
      |k| <= 1, by Lagrange's identity. */
  lemma CosineBound(sa: real, ca: real, sb: real, cb: real, k: real)
    requires sa * sa + ca * ca == 1.0 && sb * sb + cb * cb == 1.0 && -1.0 <= k <= 1.0
    ensures -1.0 <= sa * sb + ca * cb * k <= 1.0
  {
    var e := cb * k;
    var x := sa * sb + ca * e;
    var y := sa * e - ca * sb;
    assert x * x + y * y == (sa * sa + ca * ca) * (sb * sb + e * e);
    assert k * k <= 1.0 by {
      if k >= 0.0 { assert k * k <= k; } else { assert k * k <= -k; }
    }
    assert e * e == (cb * cb) * (k * k);
    ScaleAtMost(cb * cb, k * k);
    assert y * y >= 0.0;
    SquareAtMostOne(x, 1.0 - x * x);
  }

  lemma ScaleAtMost(a: real, f: real)
    requires a >= 0.0 && f <= 1.0
    ensures a * f <= a
  {
  }

  /** Every angle is at least 0. */
  lemma AnglesNonNegative(t: Transcendentals, classes: seq<ViewClass>, ele: real, azi: real)
    requires Lawful(t)
    ensures forall k :: 0 <= k < |classes| ==> 0.0 <= Angles(t, classes, ele, azi)[k]
  {
    forall k | 0 <= k < |classes|
      ensures 0.0 <= Angles(t, classes, ele, azi)[k]
    {
      CosineInRange(t, ele, azi, classes[k]);
    }
  }

  /** exp(-a^2 / sigma) decreases in a on [0, oo). */
  lemma GaussianOrder(t: Transcendentals, a: real, b: real, sigma: real)
    requires Lawful(t) && 0.0 <= a <= b && sigma > 0.0
    ensures Gaussian(t, b, sigma) <= Gaussian(t, a, sigma)
    ensures a < b ==> Gaussian(t, b, sigma) < Gaussian(t, a, sigma)
  {
    if a < b {
      SquareOrder(a, b);
      NegDivOrder(a * a, b * b, sigma);
      assert ExpBelow(t, -(b * b) / sigma, -(a * a) / sigma);
    }
  }

  lemma SquareOrder(a: real, b: real)
    requires 0.0 <= a < b
    ensures a * a < b * b
  {
    var aa, ab, bb := a * a, a * b, b * b;
    assert aa <= ab;
    assert ab < bb;
  }

  lemma NegDivOrder(p: real, q: real, s: real)
    requires p < q && s > 0.0
    ensures -q / s < -p / s
  {
    var u, v := -q / s, -p / s;
    assert u * s == -q && v * s == -p;
  }

  lemma QuotientOrder(a: real, b: real, c: real)
    requires c > 0.0 && a <= b
    ensures a / c <= b / c
    ensures a < b ==> a / c < b / c
  {
    var u, v := a / c, b / c;
    assert u * c == a && v * c == b;
  }

  /** The class get_label_distribution returns, the argmin of the angles, is
      the argmax of the distribution: the nearest class is the most likely
      one, and among equally near classes the first is taken in both. */
  lemma {:induction false} ClassIsMostLikely(t: Transcendentals, classes: seq<ViewClass>, ele: real, azi: real, sigma: real)
    requires Lawful(t) && |classes| >= 1 && sigma > 0.0
    ensures var v := LabelDistribution(t, classes, ele, azi, sigma); v.cls == ArgMax(v.distribution)
  {
    var angles := Angles(t, classes, ele, azi);
    var g := Gaussians(t, angles, sigma);
    SumPositive(g);
    var s := Sum(g);
    var d := DivideAll(g, s);
    var c := ArgMin(angles);
    AnglesNonNegative(t, classes, ele, azi);
    forall i | 0 <= i < |d|
      ensures d[i] <= d[c]
      ensures i < c ==> d[i] < d[c]
    {
      GaussianOrder(t, angles[c], angles[i], sigma);
      QuotientOrder(g[i], g[c], s);
    }
    ArgMaxUnique(d, c);
  }

  // ---------------------------------------------------------------------
  // The scaled and rotated car box inside render

  /** A point (x, y); the corners are taken relative to the image centre. */
  datatype Point = Point(x: real, y: real)

  /** A corner turned by r: (x cos r - y sin r, y cos r + x sin r). */
  function Rotate(t: Transcendentals, p: Point, r: real): Point {
    Point(p.x * t.cos(r) - p.y * t.sin(r), p.y * t.cos(r) + p.x * t.sin(r))
  }

  /** `new_corner`: the box corners with x outer (left, then right) and y
      inner (top, then bottom), each rotated by r. */
  function Corners(t: Transcendentals, box: Ltrb, r: real): (c: seq<Point>)
    ensures |c| == 4
  {
    [Rotate(t, Point(box.l, box.t), r), Rotate(t, Point(box.l, box.b), r),
     Rotate(t, Point(box.r, box.t), r), Rotate(t, Point(box.r, box.b), r)]
  }

  /** The double loop of render that appends the rotated corners. */
  method RotatedCorners(t: Transcendentals, box: Ltrb, r: real) returns (corners: seq<Point>)
    ensures corners == Corners(t, box, r)
  {
    var xs := [box.l, box.r];
    var ys := [box.t, box.b];
    ghost var all := Corners(t, box, r);
    corners := [];
    for i := 0 to 2
      invariant corners == all[..2 * i]
    {
      for j := 0 to 2
        invariant corners == all[..2 * i + j]
      {
        corners := corners + [Rotate(t, Point(xs[i], ys[j]), r)];
      }
    }
    assert all[..4] == all;
  }

  function Abs(x: real): (a: real)
    ensures a >= 0.0 && (a == x || a == -x)
  {
    if x < 0.0 then -x else x
  }

  /** `(r_resize_w, r_resize_h)`: the extent of the rotated image,
      |h sin r| + |w cos r| wide and |h cos r| + |w sin r| high. */
  function RotatedExtent(t: Transcendentals, w: real, h: real, r: real): Point {
    Point(Abs(h * t.sin(r)) + Abs(w * t.cos(r)), Abs(h * t.cos(r)) + Abs(w * t.sin(r)))
  }

  function Xs(ps: seq<Point>): (xs: seq<real>)
    ensures |xs| == |ps| && forall i :: 0 <= i < |ps| ==> xs[i] == ps[i].x
  {
    seq(|ps|, i requires 0 <= i < |ps| => ps[i].x)
  }

  function Ys(ps: seq<Point>): (ys: seq<real>)
    ensures |ys| == |ps| && forall i :: 0 <= i < |ps| ==> ys[i] == ps[i].y
  {
    seq(|ps|, i requires 0 <= i < |ps| => ps[i].y)
  }

  /** `np.amin` of one coordinate: a lower bound that is attained. */
  function Lowest(s: seq<real>): (m: real)
    requires |s| >= 1
    ensures forall i :: 0 <= i < |s| ==> m <= s[i]
    ensures exists i :: 0 <= i < |s| && s[i] == m
  {
    if |s| == 1 then s[0]
    else
      var m := Lowest(s[..|s| - 1]);
      if s[|s| - 1] < m then s[|s| - 1] else m
  }

  /** `np.amax` of one coordinate: an upper bound that is attained. */
  function Highest(s: seq<real>): (m: real)
    requires |s| >= 1
    ensures forall i :: 0 <= i < |s| ==> s[i] <= m
    ensures exists i :: 0 <= i < |s| && s[i] == m
  {
    if |s| == 1 then s[0]
    else
      var m := Highest(s[..|s| - 1]);
      if m < s[|s| - 1] then s[|s| - 1] else m
  }

  /** (r_box_l, r_box_t, r_box_r, r_box_b): the componentwise minimum and
      maximum of the rotated corners, moved by half the rotated extent from
      the image centre to the image's top-left corner. */
  function RotatedBox(t: Transcendentals, box: Ltrb, r: real, w: real, h: real): Ltrb {
    var c := Corners(t, box, r);
    var off := RotatedExtent(t, w, h, r);
    Ltrb(Lowest(Xs(c)) + off.x * 0.5, Lowest(Ys(c)) + off.y * 0.5,
         Highest(Xs(c)) + off.x * 0.5, Highest(Ys(c)) + off.y * 0.5)
  }

  /** The rotated box is the smallest box holding every rotated corner
      (moved by half the extent): each corner lies inside it and each edge
      touches a corner. In particular left <= right and top <= bottom. */
  lemma RotatedBoxHoldsCorners(t: Transcendentals, box: Ltrb, r: real, w: real, h: real)
    ensures var rb := RotatedBox(t, box, r, w, h);
      var off := RotatedExtent(t, w, h, r);
      var c := Corners(t, box, r);
      && WellFormed(rb)
      && (forall i :: 0 <= i < 4 ==>
            rb.l <= c[i].x + off.x * 0.5 <= rb.r && rb.t <= c[i].y + off.y * 0.5 <= rb.b)
      && (exists i :: 0 <= i < 4 && c[i].x + off.x * 0.5 == rb.l)
      && (exists i :: 0 <= i < 4 && c[i].x + off.x * 0.5 == rb.r)
      && (exists i :: 0 <= i < 4 && c[i].y + off.y * 0.5 == rb.t)
      && (exists i :: 0 <= i < 4 && c[i].y + off.y * 0.5 == rb.b)
  {
    var c := Corners(t, box, r);
    var xs, ys := Xs(c), Ys(c);
    assert Lowest(xs) <= xs[0] <= Highest(xs);
    assert Lowest(ys) <= ys[0] <= Highest(ys);
  }

  /** Unrotated, the extent is the image size. */
  lemma UnrotatedExtent(t: Transcendentals, w: real, h: real)
    requires Lawful(t)
    ensures RotatedExtent(t, w, h, 0.0) == Point(Abs(w), Abs(h))
  {
    assert h * t.sin(0.0) == 0.0 && w * t.sin(0.0) == 0.0;
    assert h * t.cos(0.0) == h && w * t.cos(0.0) == w;
  }

  /** A turn by 0 leaves a corner where it is. */
  lemma RotateByZero(t: Transcendentals, p: Point)
    requires Lawful(t)
    ensures Rotate(t, p, 0.0) == p
  {
    var s, c := t.sin(0.0), t.cos(0.0);
    assert p.x * c == p.x && p.y * s == 0.0;
    assert p.y * c == p.y && p.x * s == 0.0;
  }

  /** Unrotated, the corners are the box's own. */
  lemma UnrotatedCorners(t: Transcendentals, box: Ltrb)
    requires Lawful(t)
    ensures Corners(t, box, 0.0) ==
      [Point(box.l, box.t), Point(box.l, box.b), Point(box.r, box.t), Point(box.r, box.b)]
  {
    RotateByZero(t, Point(box.l, box.t));
    RotateByZero(t, Point(box.l, box.b));
    RotateByZero(t, Point(box.r, box.t));
    RotateByZero(t, Point(box.r, box.b));
  }

  /** Unrotated, the box of a well-formed box is the box itself, moved by
      half the image size. */
  lemma UnrotatedBox(t: Transcendentals, box: Ltrb, w: real, h: real)
    requires Lawful(t) && WellFormed(box)
    ensures RotatedBox(t, box, 0.0, w, h) ==
      Ltrb(box.l + Abs(w) * 0.5, box.t + Abs(h) * 0.5, box.r + Abs(w) * 0.5, box.b + Abs(h) * 0.5)
  {
    var c := Corners(t, box, 0.0);
    UnrotatedCorners(t, box);
    var xs, ys := Xs(c), Ys(c);
    assert xs[0] == box.l && xs[3] == box.r;
    assert ys[0] == box.t && ys[3] == box.b;
    TwoValued(xs, box.l, box.r, 0, 3);
    TwoValued(ys, box.t, box.b, 0, 3);
    var off := RotatedExtent(t, w, h, 0.0);
    UnrotatedExtent(t, w, h);
    assert RotatedBox(t, box, 0.0, w, h) ==
      Ltrb(Lowest(xs) + off.x * 0.5, Lowest(ys) + off.y * 0.5, Highest(xs) + off.x * 0.5, Highest(ys) + off.y * 0.5);
  }

  /** The extremes of a vector holding only the values lo <= hi, both present. */
  lemma TwoValued(s: seq<real>, lo: real, hi: real, i: nat, j: nat)
    requires lo <= hi && i < |s| && j < |s| && s[i] == lo && s[j] == hi
    requires forall k :: 0 <= k < |s| ==> s[k] == lo || s[k] == hi
    ensures Lowest(s) == lo && Highest(s) == hi
  {
  }

  /** The range the resize factor is drawn from. */
  datatype Interval = Interval(lo: real, hi: real)

  /** (min_scale, max_scale): the box may be scaled to between 20% and 90% of
      the image along each axis. */
  function ScaleBounds(imgW: real, imgH: real, boxW: real, boxH: real): Interval
    requires boxW != 0.0 && boxH != 0.0
  {
    Interval(Max(0.2 * imgW / boxW, 0.2 * imgH / boxH), Min(0.9 * imgW / boxW, 0.9 * imgH / boxH))
  }

  /** A factor within the bounds scales the box to at least 20% and at most
      90% of the image, in width and in height. */
  lemma ScaleKeepsBoxInImage(imgW: real, imgH: real, boxW: real, boxH: real, s: real)
    requires boxW > 0.0 && boxH > 0.0
    requires ScaleBounds(imgW, imgH, boxW, boxH).lo <= s <= ScaleBounds(imgW, imgH, boxW, boxH).hi
    ensures 0.2 * imgW <= s * boxW <= 0.9 * imgW
    ensures 0.2 * imgH <= s * boxH <= 0.9 * imgH
  {
    QuotientBounds(s, 0.2 * imgW, 0.9 * imgW, boxW);
    QuotientBounds(s, 0.2 * imgH, 0.9 * imgH, boxH);
  }

  lemma QuotientBounds(s: real, a: real, b: real, c: real)
    requires c > 0.0 && a / c <= s <= b / c
    ensures a <= s * c <= b
  {
    var p, q := a / c, b / c;
    assert p * c == a && q * c == b;
    assert p * c <= s * c <= q * c;
  }

  /** The bounds leave a range to draw from exactly when the box's aspect
      ratio is within a factor 4.5 of the image's. */
  lemma ScaleRangeNonEmpty(imgW: real, imgH: real, boxW: real, boxH: real)
    requires imgW > 0.0 && imgH > 0.0 && boxW > 0.0 && boxH > 0.0
    ensures ScaleBounds(imgW, imgH, boxW, boxH).lo <= ScaleBounds(imgW, imgH, boxW, boxH).hi <==>
      (2.0 * imgW * boxH <= 9.0 * imgH * boxW && 2.0 * imgH * boxW <= 9.0 * imgW * boxH)
  {
    QuotientLe(0.2 * imgW, boxW, 0.9 * imgW, boxW);
    QuotientLe(0.2 * imgH, boxH, 0.9 * imgH, boxH);
    QuotientLe(0.2 * imgW, boxW, 0.9 * imgH, boxH);
    QuotientLe(0.2 * imgH, boxH, 0.9 * imgW, boxW);
  }

  /** a / b <= c / d exactly when a d <= c b, for positive b and d. */
  lemma QuotientLe(a: real, b: real, c: real, d: real)
    requires b > 0.0 && d > 0.0
    ensures a / b <= c / d <==> a * d <= c * b
  {
    var x, y := a / b, c / d;
    assert x * b == a && y * d == c;
    assert a * d == x * (b * d) && c * b == y * (b * d);
    assert b * d > 0.0;
  }

  /** The car image and its box after the resize: the image's new width and
      height (resize_w, resize_h), the box's label width and height (box_w,
      box_h), and its corners relative to the image centre (box_l2 ... box_b2). */
  datatype Resized = Resized(imgW: real, imgH: real, boxW: real, boxH: real, corners: Ltrb)

  /** The resize of render AS WRITTEN: the image is stretched by r1 in height,
      box_h already holds (b - t) r1 and is multiplied by r1 a second time. */
  function ResizeAsWritten(box: Ltrb, width: real, height: real, resize: real, r1: real): Resized {
    var resizeW := resize * width;
    var resizeH := resize * height * r1;
    Resized(resizeW, resizeH, resize * (box.r - box.l), resize * ((box.b - box.t) * r1) * r1,
      Ltrb(box.l * resize - 0.5 * resizeW, box.t * resize * r1 - 0.5 * resizeH,
           box.r * resize - 0.5 * resizeW, box.b * resize * r1 - 0.5 * resizeH))
  }

  /** With r1 = 1.1 and scale 1, a 10-pixel-high box is pasted 11 pixels high
      but labelled 12.1 pixels high. */
  lemma ResizeAsWrittenMislabelsHeight()
    ensures var z := ResizeAsWritten(Ltrb(0.0, 0.0, 10.0, 10.0), 10.0, 10.0, 1.0, 1.1);
      z.corners.b - z.corners.t == 11.0 && z.boxH == 12.1
  {
    var z := ResizeAsWritten(Ltrb(0.0, 0.0, 10.0, 10.0), 10.0, 10.0, 1.0, 1.1);
    assert z.corners.b == 10.0 * 1.0 * 1.1 - 0.5 * (1.0 * 10.0 * 1.1);
    assert z.corners.t == 0.0 * 1.0 * 1.1 - 0.5 * (1.0 * 10.0 * 1.1);
    assert z.boxH == 1.0 * ((10.0 - 0.0) * 1.1) * 1.1;
  }

  /** The resize with the stretch applied once to the label height, as the
      image and the corners have it. */
  function Resize(box: Ltrb, width: real, height: real, resize: real, r1: real): Resized {
    var resizeW := resize * width;
    var resizeH := resize * height * r1;
    Resized(resizeW, resizeH, resize * (box.r - box.l), resize * ((box.b - box.t) * r1),
      Ltrb(box.l * resize - 0.5 * resizeW, box.t * resize * r1 - 0.5 * resizeH,
           box.r * resize - 0.5 * resizeW, box.b * resize * r1 - 0.5 * resizeH))
  }

  /** The label size is the size of the box that is pasted: box_w and box_h
      are the width and height of the resized corners. */
  lemma ResizedLabelMatchesCorners(box: Ltrb, width: real, height: real, resize: real, r1: real)
    ensures var z := Resize(box, width, height, resize, r1);
      z.boxW == z.corners.r - z.corners.l && z.boxH == z.corners.b - z.corners.t
  {
    var resizeW := resize * width;
    var resizeH := resize * height * r1;
    assert (box.b * resize * r1 - 0.5 * resizeH) - (box.t * resize * r1 - 0.5 * resizeH)
        == resize * ((box.b - box.t) * r1);
  }

  /** Which program the label side of render follows: the code as written
      (the stretch applied twice to the label height, a skipped record
      raising in the resample loop) or as evidently intended (Resize,
      FirstUsable). */
  datatype Version = AsWritten | Intended

  /** The resize of the given version. */
  function ResizeIn(ver: Version, box: Ltrb, width: real, height: real, resize: real, r1: real): Resized {
    if ver == AsWritten then ResizeAsWritten(box, width, height, resize, r1) else Resize(box, width, height, resize, r1)
  }

  /** As written, the image, the corners and the label width are those of the
      intended resize, and the label height is r1 times the intended one,
      which is the pasted height (ResizedLabelMatchesCorners). */
  lemma AsWrittenStretchesHeightTwice(box: Ltrb, width: real, height: real, resize: real, r1: real)
    ensures var w := ResizeAsWritten(box, width, height, resize, r1);
      var z := Resize(box, width, height, resize, r1);
      && w.imgW == z.imgW && w.imgH == z.imgH && w.boxW == z.boxW && w.corners == z.corners
      && w.boxH == z.boxH * r1
  {
  }

  /** The bounds render gives randint for the paste offset along one axis:
      int(-lead - 0.3 size) up to int(extent - lead - 0.7 size). */
  datatype IntRange = IntRange(lo: int, hi: int)

  function PasteRange(extent: real, lead: real, size: real): IntRange {
    IntRange(Trunc(-lead - 0.3 * size), Trunc(extent - lead - 0.7 * size))
  }

  /** An offset randint can return keeps the pasted box mostly in the image:
      its leading edge is less than 0.3 size (plus one pixel of truncation)
      before the image start, and 0.7 size still fits before the far edge. */
  lemma PasteKeepsBoxMostlyVisible(extent: real, lead: real, size: real, offset: int)
    requires PasteRange(extent, lead, size).lo <= offset < PasteRange(extent, lead, size).hi
    ensures -0.3 * size - 1.0 < lead + offset as real
    ensures lead + offset as real < extent - 0.7 * size
  {
  }

  // ---------------------------------------------------------------------
  // PASCAL3D+ annotations

  /** One object of a PASCAL3D+ record: its box as stored, and the azimuth
      and elevation of its viewpoint. */
  datatype CarAnnotation = CarAnnotation(bbox: seq<real>, azimuth: real, elevation: real)

  /** `[int(i) for i in ...]`. */
  function TruncAll(s: seq<real>): (r: seq<int>)
    ensures |r| == |s| && forall i :: 0 <= i < |s| ==> r[i] == Trunc(s[i])
  {
    seq(|s|, i requires 0 <= i < |s| => Trunc(s[i]))
  }

  /** The azimuth class of get_pascal3d_label:
      int((azi + float(360 / num_cls) / 2) / 15), with Python 2 integer
      division in 360 / num_cls, clamped above to num_cls - 1. */
  function AzimuthClass(azi: real, numCls: nat): int
    requires numCls > 0
  {
    var k := Trunc((azi + ((360 / numCls) as real) / 2.0) / 15.0);
    if k > numCls - 1 then numCls - 1 else k
  }

  /** The class is at most num_cls - 1, and not negative for a non-negative
      azimuth. */
  lemma AzimuthClassBounds(azi: real, numCls: nat)
    requires numCls > 0
    ensures AzimuthClass(azi, numCls) <= numCls - 1
    ensures azi >= 0.0 ==> 0 <= AzimuthClass(azi, numCls)
  {
  }

  /** With 24 classes the bins are 15 degrees wide and centred on multiples
      of 15: class k < 23 holds exactly the azimuths in [15 k - 7.5, 15 k + 7.5),
      and every azimuth from 337.5 on is clamped into class 23. */
  lemma AzimuthBins(azi: real, k: nat)
    requires 0.0 <= azi && k < 23
    ensures AzimuthClass(azi, 24) == k <==> 15.0 * k as real - 7.5 <= azi < 15.0 * k as real + 7.5
    ensures 337.5 <= azi ==> AzimuthClass(azi, 24) == 23
  {
    var x := (azi + 7.5) / 15.0;
    assert ((360 / 24) as real) / 2.0 == 7.5;
    var f := Trunc(x);
    assert f as real <= x < f as real + 1.0;
    if 15.0 * k as real - 7.5 <= azi < 15.0 * k as real + 7.5 {
      assert k as real <= x < k as real + 1.0;
      FloorUnique(x, f, k);
    }
  }

  lemma FloorUnique(x: real, a: int, b: int)
    requires a as real <= x < a as real + 1.0 && b as real <= x < b as real + 1.0
    ensures a == b
  {
  }

  /** What get_pascal3d_label returns: the first object's class and box, and
      whether the record is skipped. */
  datatype PascalLabel = PascalLabel(cls: int, box: seq<int>, skip: bool)

  /** get_pascal3d_label as a function of the record's objects: it raises
      when 360 / num_cls divides by zero (num_cls = 0, once there is an
      object), when there is no object, or when the first box has fewer
      than four numbers; otherwise it gives the first object's class and
      box and skips unless there is exactly one object. */
  function PascalLabelOf(objects: seq<CarAnnotation>, numCls: nat): Result<PascalLabel> {
    if |objects| == 0 then Failure("IndexError: no object")
    else if numCls == 0 then Failure("ZeroDivisionError: 360 / num_cls")
    else if |objects[0].bbox| < 4 then Failure("IndexError: box")
    else Success(PascalLabel(AzimuthClass(objects[0].azimuth, numCls), TruncAll(objects[0].bbox)[..4], |objects| != 1))
  }

  /** get_pascal3d_label: the boxes and azimuth classes of all objects are
      collected in order; the first of each is returned, with the skip flag
      set unless exactly one class was collected. */
  method Pascal3dLabel(objects: seq<CarAnnotation>, numCls: nat) returns (r: Result<PascalLabel>)
    ensures r == PascalLabelOf(objects, numCls)
  {
    var boxes: seq<seq<int>> := [];
    var classes: seq<int> := [];
    for n := 0 to |objects|
      invariant numCls > 0 || n == 0
      invariant |boxes| == n && |classes| == n
      invariant forall i :: 0 <= i < n ==> boxes[i] == TruncAll(objects[i].bbox)
      invariant forall i :: 0 <= i < n ==> classes[i] == AzimuthClass(objects[i].azimuth, numCls)
    {
      if numCls == 0 {
        return Failure("ZeroDivisionError: 360 / num_cls");
      }
      boxes := boxes + [TruncAll(objects[n].bbox)];
      classes := classes + [AzimuthClass(objects[n].azimuth, numCls)];
    }
    var skip := |classes| != 1;
    if |classes| == 0 {
      return Failure("IndexError: no object");
    }
    if |boxes[0]| < 4 {
      return Failure("IndexError: box");
    }
    return Success(PascalLabel(classes[0], boxes[0][..4], skip));
  }

  /** What get_pascal3d_azi_ele returns: elevation, azimuth, box and the
      skip flag. */
  datatype AziEle = AziEle(ele: real, azi: real, box: seq<int>, skip: bool)

  /** get_pascal3d_azi_ele: a record with more than one object is skipped;
      otherwise the first object's viewpoint and box are read, which raises
      when there is no object. */
  function Pascal3dAziEle(objects: seq<CarAnnotation>): Result<AziEle> {
    if |objects| > 1 then Success(AziEle(0.0, 0.0, [], true))
    else if |objects| == 0 then Failure("IndexError: no object")
    else Success(AziEle(objects[0].elevation, objects[0].azimuth, TruncAll(objects[0].bbox), false))
  }

  /** A record is skipped exactly when it holds more than one car, it fails
      exactly when it holds none, and a record that is not skipped gives its
      one car's viewpoint and box. */
  lemma AziEleSkipsSeveralCars(objects: seq<CarAnnotation>)
    ensures Pascal3dAziEle(objects).Failure? <==> |objects| == 0
    ensures Pascal3dAziEle(objects).Success? ==> (Pascal3dAziEle(objects).value.skip <==> |objects| > 1)
    ensures Pascal3dAziEle(objects).Success? && !Pascal3dAziEle(objects).value.skip ==>
      Pascal3dAziEle(objects).value == AziEle(objects[0].elevation, objects[0].azimuth, TruncAll(objects[0].bbox), false)
  {
  }

  /** The two readers skip the same records: where both return, the skip
      flag of get_pascal3d_label (not exactly one car) and that of
      get_pascal3d_azi_ele (more than one car) agree, and both raise on a
      record without objects. */
  lemma SkipRulesAgree(objects: seq<CarAnnotation>, numCls: nat)
    ensures |objects| == 0 ==> PascalLabelOf(objects, numCls).Failure? && Pascal3dAziEle(objects).Failure?
    ensures PascalLabelOf(objects, numCls).Success? && Pascal3dAziEle(objects).Success? ==>
      PascalLabelOf(objects, numCls).value.skip == Pascal3dAziEle(objects).value.skip
  {
  }

  // ---------------------------------------------------------------------
  // Picking a record with one car

  /** A dataset entry: the record's objects and the pixel size of its car
      image. */
  datatype Sample = Sample(objects: seq<CarAnnotation>, width: nat, height: nat)

  /** The record chosen for an image and what was read from it. */
  datatype Pick = Pick(index: nat, view: AziEle)

  /** The resample loop of render AS WRITTEN: when the selected record is
      skipped, the next index is drawn with np.random.randint() without any
      bound, which raises. */
  function PickRecordAsWritten(dataset: seq<Sample>, first: nat): Result<Pick>
    requires first < |dataset|
  {
    match Pascal3dAziEle(dataset[first].objects)
    case Failure(e) => Failure(e)
    case Success(v) => if v.skip then Failure("TypeError: randint() without a bound") else Success(Pick(first, v))
  }

  /** The resample loop as evidently intended: the drawn records are tried
      in order until one holds exactly one car. */
  function FirstUsable(dataset: seq<Sample>, candidates: seq<nat>): (r: Result<Pick>)
    requires forall k :: 0 <= k < |candidates| ==> candidates[k] < |dataset|
    ensures r.Success? ==> r.value.index < |dataset|
    decreases |candidates|
  {
    if candidates == [] then Failure("no record with exactly one car")
    else
      match Pascal3dAziEle(dataset[candidates[0]].objects)
      case Failure(e) => Failure(e)
      case Success(v) => if v.skip then FirstUsable(dataset, candidates[1..]) else Success(Pick(candidates[0], v))
  }

  /** With a two-car record selected first and a one-car record drawn next,
      the loop as written raises where the intended loop uses the second
      record. */
  lemma PickRecordAsWrittenRaisesOnTwoCars()
    ensures var car := CarAnnotation([0.0, 0.0, 10.0, 10.0], 0.0, 0.0);
      var dataset := [Sample([car, car], 10, 10), Sample([car], 10, 10)];
      && PickRecordAsWritten(dataset, 0).Failure?
      && FirstUsable(dataset, [0, 1]) == Success(Pick(1, AziEle(0.0, 0.0, [0, 0, 10, 10], false)))
  {
    var car := CarAnnotation([0.0, 0.0, 10.0, 10.0], 0.0, 0.0);
    var dataset := [Sample([car, car], 10, 10), Sample([car], 10, 10)];
    assert TruncAll(car.bbox) == [0, 0, 10, 10];
    assert [0, 1][1..] == [1];
    assert FirstUsable(dataset, [1]) == Success(Pick(1, AziEle(0.0, 0.0, [0, 0, 10, 10], false)));
  }

  /** A record picked by the intended loop is one of the drawn records, holds
      exactly one car, and every record drawn before it holds several. */
  lemma {:induction false} FirstUsableHasOneCar(dataset: seq<Sample>, candidates: seq<nat>)
    requires forall k :: 0 <= k < |candidates| ==> candidates[k] < |dataset|
    ensures FirstUsable(dataset, candidates).Success? ==>
      var p := FirstUsable(dataset, candidates).value;
      && p.index < |dataset|
      && |dataset[p.index].objects| == 1
      && Pascal3dAziEle(dataset[p.index].objects) == Success(p.view)
      && exists j :: 0 <= j < |candidates| && candidates[j] == p.index &&
           forall i :: 0 <= i < j ==> |dataset[candidates[i]].objects| > 1
    decreases |candidates|
  {
    if candidates != [] && FirstUsable(dataset, candidates).Success? {
      var v := Pascal3dAziEle(dataset[candidates[0]].objects);
      if v.value.skip {
        var rest := candidates[1..];
        FirstUsableHasOneCar(dataset, rest);
        var p := FirstUsable(dataset, candidates).value;
        var j :| 0 <= j < |rest| && rest[j] == p.index && forall i :: 0 <= i < j ==> |dataset[rest[i]].objects| > 1;
        assert candidates[j + 1] == p.index;
        forall i | 0 <= i < j + 1
          ensures |dataset[candidates[i]].objects| > 1
        {
          if i > 0 {
            assert candidates[i] == rest[i - 1];
          }
        }
      } else {
        assert candidates[0] == FirstUsable(dataset, candidates).value.index;
      }
    }
  }

  /** The resample loop: the drawn records in order, until one is usable. */
  method PickRecord(dataset: seq<Sample>, candidates: seq<nat>) returns (r: Result<Pick>)
    requires forall k :: 0 <= k < |candidates| ==> candidates[k] < |dataset|
    ensures r == FirstUsable(dataset, candidates)
  {
    var k := 0;
    while k < |candidates|
      invariant 0 <= k <= |candidates|
      invariant FirstUsable(dataset, candidates) == FirstUsable(dataset, candidates[k..])
    {
      assert candidates[k..][1..] == candidates[k + 1..];
      var v := Pascal3dAziEle(dataset[candidates[k]].objects);
      if v.Failure? {
        return Failure(v.error);
      }
      if !v.value.skip {
        return Success(Pick(candidates[k], v.value));
      }
      k := k + 1;
    }
    return Failure("no record with exactly one car");
  }

  // ---------------------------------------------------------------------
  // The label rows of render

  /** The record the resample loop of the given version picks from the
      drawn indices, the selected one first. */
  function PickIn(ver: Version, dataset: seq<Sample>, candidates: seq<nat>): (r: Result<Pick>)
    requires |candidates| >= 1 && forall k :: 0 <= k < |candidates| ==> candidates[k] < |dataset|
  {
    if ver == AsWritten then PickRecordAsWritten(dataset, candidates[0]) else FirstUsable(dataset, candidates)
  }

  /** The two loops pick the same record when the selected one is usable;
      when it holds several cars the loop as written raises and the intended
      loop goes on to the next drawn record. */
  lemma PicksAgreeUnlessFirstSkipped(dataset: seq<Sample>, candidates: seq<nat>)
    requires |candidates| >= 1 && forall k :: 0 <= k < |candidates| ==> candidates[k] < |dataset|
    ensures |dataset[candidates[0]].objects| <= 1 ==> PickIn(AsWritten, dataset, candidates) == PickIn(Intended, dataset, candidates)
    ensures |dataset[candidates[0]].objects| > 1 ==>
      && PickIn(AsWritten, dataset, candidates).Failure?
      && PickIn(Intended, dataset, candidates) == FirstUsable(dataset, candidates[1..])
  {
    AziEleSkipsSeveralCars(dataset[candidates[0]].objects);
  }

  /** The renderer: output image height and width, and the viewpoint classes. */
  datatype Renderer = Renderer(h: nat, w: nat, classes: seq<ViewClass>)

  predicate ValidRenderer(rc: Renderer) {
    rc.h > 0 && rc.w > 0 && |rc.classes| >= 1
  }

  /** The random draws for one image: the render-rate draw, the record
      indices drawn (the selected one first), the unit draws behind the
      stretch r1 and the resize factor, the rotation the enhancer applies,
      and the paste offsets randint returns. */
  datatype Draw = Draw(gate: real, candidates: seq<nat>, stretch: real, scale: real,
                       rotation: real, pasteX: int, pasteY: int)

  /** randint(len(dataset)) only gives indices of the dataset. */
  predicate Drawn(dataset: seq<Sample>, d: Draw) {
    |d.candidates| >= 1 && forall k :: 0 <= k < |d.candidates| ==> d.candidates[k] < |dataset|
  }

  /** An image is left without a car when its draw exceeds render_rate. */
  predicate Skipped(d: Draw, renderRate: real) {
    d.gate > renderRate
  }

  /** numpy's uniform(low, high) for the unit draw u: low + (high - low) u. */
  function Uniform(lo: real, hi: real, u: real): real {
    lo + (hi - lo) * u
  }

  /** A unit draw in [0, 1) gives a value in [low, high) when low < high. */
  lemma UniformInRange(lo: real, hi: real, u: real)
    requires lo < hi && 0.0 <= u < 1.0
    ensures lo <= Uniform(lo, hi, u) < hi
  {
    var d := hi - lo;
    var p := d * u;
    assert Uniform(lo, hi, u) == lo + p;
    PositiveMul(d, 1.0 - u);
    assert d * (1.0 - u) == d - p;
    NonNegativeMul(d, u);
  }

  lemma PositiveMul(a: real, b: real)
    requires a > 0.0 && b > 0.0
    ensures a * b > 0.0
  {
  }

  lemma NonNegativeMul(a: real, b: real)
    requires a >= 0.0 && b >= 0.0
    ensures a * b >= 0.0
  {
  }

  /** The label row of an image rendered from record view v of sample s, in
      version ver: [class, y, x, h, w, rotation] followed by the class
      distribution, y and x the centre of the pasted box and h and w the
      size of the resized box, each as a fraction of the image. It raises when the box is not
      four numbers, when its width or stretched height is zero (the scale
      bounds divide by them), and when a paste range is empty. */
  function LabelFromRecord(t: Transcendentals, rc: Renderer, ver: Version, s: Sample, v: AziEle, d: Draw): (r: Result<seq<real>>)
    requires Lawful(t) && ValidRenderer(rc)
    ensures r.Success? ==> |r.value| == 6 + |rc.classes|
  {
    if |v.box| != 4 then Failure("ValueError: box")
    else
      var vp := LabelDistribution(t, rc.classes, v.ele, v.azi, Sigma);
      var r1 := Uniform(0.9, 1.1, d.stretch);
      var box := Ltrb(v.box[0] as real, v.box[1] as real, v.box[2] as real, v.box[3] as real);
      var boxW := box.r - box.l;
      var boxH := (box.b - box.t) * r1;
      if boxW == 0.0 || boxH == 0.0 then Failure("ZeroDivisionError: box size")
      else
        var bounds := ScaleBounds(rc.w as real, rc.h as real, boxW, boxH);
        var z := ResizeIn(ver, box, s.width as real, s.height as real, Uniform(bounds.lo, bounds.hi, d.scale), r1);
        PastedLabel(rc, vp, RotatedBox(t, z.corners, d.rotation, z.imgW, z.imgH), z.boxW, z.boxH, d)
  }

  /** The second half of the label row: for the rotated box rb, the paste
      offsets are drawn, and the row is built from the centre of the pasted
      box and the label size boxW by boxH. */
  function PastedLabel(rc: Renderer, vp: Viewpoint, rb: Ltrb, boxW: real, boxH: real, d: Draw): (r: Result<seq<real>>)
    requires ValidRenderer(rc)
    ensures r.Success? ==> |r.value| == 6 + |vp.distribution|
  {
    var px := PasteRange(rc.w as real, rb.l, rb.r - rb.l);
    var py := PasteRange(rc.h as real, rb.t, rb.b - rb.t);
    if px.lo >= px.hi || py.lo >= py.hi then Failure("ValueError: low >= high")
    else
      var boxX := (rb.r + rb.l) / 2.0 + d.pasteX as real;
      var boxY := (rb.b + rb.t) / 2.0 + d.pasteY as real;
      Success([vp.cls as real, boxY / rc.h as real, boxX / rc.w as real,
               boxH / rc.h as real, boxW / rc.w as real, d.rotation] + vp.distribution)
  }

  /** The label row of one image that passes the gate: a record is picked,
      then labelled, both in version ver. */
  function ImageLabel(t: Transcendentals, rc: Renderer, ver: Version, dataset: seq<Sample>, d: Draw): (r: Result<seq<real>>)
    requires Lawful(t) && ValidRenderer(rc) && Drawn(dataset, d)
    ensures r.Success? ==> |r.value| == 6 + |rc.classes|
  {
    match PickIn(ver, dataset, d.candidates)
    case Failure(e) => Failure(e)
    case Success(p) => LabelFromRecord(t, rc, ver, dataset[p.index], p.view, d)
  }

  /** A label row carries a distribution over the classes that sums to 1
      and whose most likely class is the row's class. */
  lemma LabelClassIsMostLikely(t: Transcendentals, rc: Renderer, ver: Version, s: Sample, v: AziEle, d: Draw)
    requires Lawful(t) && ValidRenderer(rc) && LabelFromRecord(t, rc, ver, s, v, d).Success?
    ensures var row := LabelFromRecord(t, rc, ver, s, v, d).value;
      && Sum(row[6..]) == 1.0
      && row[0] == ArgMax(row[6..]) as real
  {
    var vp := LabelDistribution(t, rc.classes, v.ele, v.azi, Sigma);
    var row := LabelFromRecord(t, rc, ver, s, v, d).value;
    assert row[6..] == vp.distribution;
    assert row[0] == vp.cls as real;
    DistributionNormalised(t, rc.classes, v.ele, v.azi, Sigma);
    ClassIsMostLikely(t, rc.classes, v.ele, v.azi, Sigma);
  }

  /** Unrotated, the label size is the size of the pasted box: the rotated
      box of the resized corners is box_w wide and box_h high. */
  lemma UnrotatedLabelSize(t: Transcendentals, box: Ltrb, width: real, height: real, resize: real, r1: real)
    requires Lawful(t) && WellFormed(Resize(box, width, height, resize, r1).corners)
    ensures var z := Resize(box, width, height, resize, r1);
      var rb := RotatedBox(t, z.corners, 0.0, z.imgW, z.imgH);
      rb.r - rb.l == z.boxW && rb.b - rb.t == z.boxH
  {
    var z := Resize(box, width, height, resize, r1);
    ResizedLabelMatchesCorners(box, width, height, resize, r1);
    UnrotatedBox(t, z.corners, z.imgW, z.imgH);
  }

  /** The two versions resize to the same corners and differ in the label
      height by the factor r1 (AsWrittenStretchesHeightTwice); label heights
      in that ratio give rows that raise alike and differ only in the height
      entry, in the same ratio. */
  lemma PastedLabelScalesHeight(rc: Renderer, vp: Viewpoint, rb: Ltrb, boxW: real, hw: real, hi: real, d: Draw, r1: real)
    requires ValidRenderer(rc) && hw == hi * r1
    ensures PastedLabel(rc, vp, rb, boxW, hw, d).Success? <==> PastedLabel(rc, vp, rb, boxW, hi, d).Success?
    ensures PastedLabel(rc, vp, rb, boxW, hi, d).Success? ==>
      var w := PastedLabel(rc, vp, rb, boxW, hw, d).value;
      var z := PastedLabel(rc, vp, rb, boxW, hi, d).value;
      && w[3] == r1 * z[3]
      && forall j :: 0 <= j < |z| && j != 3 ==> w[j] == z[j]
  {
    QuotientOfMultiple(r1, hi, rc.h as real);
  }

  lemma QuotientOfMultiple(r: real, a: real, h: real)
    requires h != 0.0
    ensures (a * r) / h == r * (a / h)
  {
  }

  /** render's loop over one image past the gate: pick a record, label it. */
  method RenderImage(t: Transcendentals, rc: Renderer, ver: Version, dataset: seq<Sample>, d: Draw) returns (row: Result<seq<real>>)
    requires Lawful(t) && ValidRenderer(rc) && Drawn(dataset, d)
    ensures row == ImageLabel(t, rc, ver, dataset, d)
  {
    var pick;
    if ver == AsWritten {
      pick := PickRecordAsWritten(dataset, d.candidates[0]);
    } else {
      pick := PickRecord(dataset, d.candidates);
    }
    if pick.Failure? {
      return Failure(pick.error);
    }
    row := LabelFromRecord(t, rc, ver, dataset[pick.value.index], pick.value.view, d);
  }

  /** The image of draw d raises nothing: the gate skips it or it labels. */
  predicate Labelled(t: Transcendentals, rc: Renderer, ver: Version, dataset: seq<Sample>, d: Draw, renderRate: real)
    requires Lawful(t) && ValidRenderer(rc) && Drawn(dataset, d)
  {
    Skipped(d, renderRate) || ImageLabel(t, rc, ver, dataset, d).Success?
  }

  /** The row render leaves in the batch for an image without a label. */
  function Sentinel(n: nat): (r: seq<real>)
    ensures |r| == n
  {
    seq(n, _ => -1.0)
  }

  /** Row of the label batch for one draw: the image's label row when the
      image passes the gate and labels, the sentinel -1 row otherwise. */
  function BatchRow(t: Transcendentals, rc: Renderer, ver: Version, dataset: seq<Sample>, d: Draw, renderRate: real): (r: seq<real>)
    requires Lawful(t) && ValidRenderer(rc) && Drawn(dataset, d)
    ensures |r| == 6 + |rc.classes|
  {
    var sentinel := Sentinel(6 + |rc.classes|);
    if Skipped(d, renderRate) then sentinel
    else
      match ImageLabel(t, rc, ver, dataset, d)
      case Success(row) => row
      case Failure(_) => sentinel
  }

  /** An image the gate skips keeps the sentinel row. */
  lemma SkippedRowIsSentinel(t: Transcendentals, rc: Renderer, ver: Version, dataset: seq<Sample>, d: Draw, renderRate: real)
    requires Lawful(t) && ValidRenderer(rc) && Drawn(dataset, d) && Skipped(d, renderRate)
    ensures BatchRow(t, rc, ver, dataset, d, renderRate) == Sentinel(6 + |rc.classes|)
  {
  }

  /** An image past the gate that labels gets its label row. */
  lemma LabelledRow(t: Transcendentals, rc: Renderer, ver: Version, dataset: seq<Sample>, d: Draw, renderRate: real)
    requires Lawful(t) && ValidRenderer(rc) && Drawn(dataset, d) && !Skipped(d, renderRate)
    requires ImageLabel(t, rc, ver, dataset, d).Success?
    ensures Labelled(t, rc, ver, dataset, d, renderRate)
    ensures BatchRow(t, rc, ver, dataset, d, renderRate) == ImageLabel(t, rc, ver, dataset, d).value
  {
  }

  /** The label batch of render: every row starts as the sentinel -1; an
      image past the render-rate gate gets its label row, an image the gate
      skips keeps the sentinel. The call raises (ok is false) exactly when
      some image past the gate raises. With ver = AsWritten this is the code
      as written, with Intended the corrected code. Images and masks are not
      modelled. */
  method Render(t: Transcendentals, rc: Renderer, ver: Version, dataset: seq<Sample>, draws: seq<Draw>, renderRate: real)
    returns (labels: array2<real>, ok: bool)
    requires Lawful(t) && ValidRenderer(rc)
    requires forall i :: 0 <= i < |draws| ==> Drawn(dataset, draws[i])
    ensures fresh(labels)
    ensures labels.Length0 == |draws| && labels.Length1 == 6 + |rc.classes|
    ensures ok <==> forall i :: 0 <= i < |draws| ==> Labelled(t, rc, ver, dataset, draws[i], renderRate)
    ensures ok ==> forall i, j :: 0 <= i < |draws| && 0 <= j < labels.Length1 ==>
      labels[i, j] == BatchRow(t, rc, ver, dataset, draws[i], renderRate)[j]
  {
    var width := 6 + |rc.classes|;
    labels := new real[|draws|, width]((_, _) => -1.0);
    ok := true;
    for i := 0 to |draws|
      invariant labels.Length0 == |draws| && labels.Length1 == width
      invariant forall i' :: 0 <= i' < i ==> Labelled(t, rc, ver, dataset, draws[i'], renderRate)
      invariant forall i', j :: 0 <= i' < |draws| && 0 <= j < width ==>
        labels[i', j] == if i' < i then BatchRow(t, rc, ver, dataset, draws[i'], renderRate)[j] else -1.0
    {
      var labelled := RenderStep(t, rc, ver, dataset, draws[i], renderRate, labels, i);
      if !labelled {
        ok := false;
        return;
      }
    }
  }

  /** One pass of render's loop over image i: the gate, then the label row
      written into the batch. It reports whether the image raised nothing. */
  method RenderStep(t: Transcendentals, rc: Renderer, ver: Version, dataset: seq<Sample>, d: Draw, renderRate: real,
                    labels: array2<real>, i: nat) returns (labelled: bool)
    requires Lawful(t) && ValidRenderer(rc) && Drawn(dataset, d)
    requires i < labels.Length0 && labels.Length1 == 6 + |rc.classes|
    requires forall j :: 0 <= j < labels.Length1 ==> labels[i, j] == -1.0
    modifies labels
    ensures labelled == Labelled(t, rc, ver, dataset, d, renderRate)
    ensures labelled ==> forall i', j :: 0 <= i' < labels.Length0 && 0 <= j < labels.Length1 ==>
      labels[i', j] == if i' == i then BatchRow(t, rc, ver, dataset, d, renderRate)[j] else old(labels[i', j])
  {
    if d.gate > renderRate {
      SkippedRowIsSentinel(t, rc, ver, dataset, d, renderRate);
      return true;
    }
    var row := RenderImage(t, rc, ver, dataset, d);
    if row.Failure? {
      return false;
    }
    LabelledRow(t, rc, ver, dataset, d, renderRate);
    WriteRow(labels, i, row.value);
    labelled := true;
  }

  /** `label_batch[i] = label`: row i of the batch becomes the label row. */
  method WriteRow(labels: array2<real>, i: nat, row: seq<real>)
    requires i < labels.Length0 && |row| == labels.Length1
    modifies labels
    ensures forall i', j :: 0 <= i' < labels.Length0 && 0 <= j < labels.Length1 ==>
      labels[i', j] == if i' == i then row[j] else old(labels[i', j])
  {
    forall j | 0 <= j < labels.Length1 {
      labels[i, j] := row[j];
    }
  }
}
