/** The svg.js values the pan/zoom engine works with: points, boxes and affine
    matrices. Every matrix the engine builds comes from `translate`, uniform
    `scale`/`scaleO` and `inverse`, so a matrix here is a uniform scale
    followed by a translation. */
module Geometry {

  datatype Point = Point(x: real, y: real)

  /** An svg.js Box: origin (x, y) and size. */
  datatype Box = Box(x: real, y: real, width: real, height: real)

  /** The svg.js matrix (a, b, c, d, e, f) with a = d = s, b = c = 0,
      e = tx and f = ty: it maps p to s * p + (tx, ty). */
  datatype Matrix = Matrix(s: real, tx: real, ty: real)

  /** `new Matrix()` */
  const Identity: Matrix := Matrix(1.0, 0.0, 0.0)

  function Min(a: real, b: real): real { if a <= b then a else b }
  function Max(a: real, b: real): real { if a <= b then b else a }

  /** `new Point(p).transform(m)` */
  function Apply(m: Matrix, p: Point): Point {
    Point(m.s * p.x + m.tx, m.s * p.y + m.ty)
  }

  /** `new Matrix().translate(dx, dy)` */
  function Translation(dx: real, dy: real): (r: Matrix)
    ensures r.s == 1.0
  {
    Matrix(1.0, dx, dy)
  }

  /** `m.translateO(dx, dy)`: the translation is applied after m. */
  function TranslateO(m: Matrix, dx: real, dy: real): (r: Matrix)
    ensures r.s == m.s
  {
    Matrix(m.s, m.tx + dx, m.ty + dy)
  }

  /** `m.scaleO(k, c.x, c.y)`: a uniform scale by k about c, applied after m. */
  function ScaleO(m: Matrix, k: real, c: Point): (r: Matrix)
    ensures r.s == m.s * k
  {
    Matrix(m.s * k, m.tx * k - c.x * k + c.x, m.ty * k - c.y * k + c.y)
  }

  /** `new Matrix({ scale: k, origin: c })` */
  function ScaleAbout(k: real, c: Point): (r: Matrix)
    ensures r.s == k && Apply(r, c) == c
  {
    ScaleO(Identity, k, c)
  }

  /** `m.inverse()`, defined when the determinant s * s is not zero. */
  function Inverse(m: Matrix): (r: Matrix)
    requires m.s != 0.0
    ensures r.s * m.s == 1.0
  {
    Matrix(1.0 / m.s, -m.tx / m.s, -m.ty / m.s)
  }

  /** `translateO` moves every image point by (dx, dy). */
  lemma ApplyTranslateO(m: Matrix, dx: real, dy: real, p: Point)
    ensures Apply(TranslateO(m, dx, dy), p) == Point(Apply(m, p).x + dx, Apply(m, p).y + dy)
  {
  }

  /** `scaleO(k, c)` scales every image point by k about c. */
  lemma ApplyScaleO(m: Matrix, k: real, c: Point, p: Point)
    ensures Apply(ScaleO(m, k, c), p) == Point(c.x + k * (Apply(m, p).x - c.x), c.y + k * (Apply(m, p).y - c.y))
  {
  }

  /** The inverse undoes the matrix on both sides. */
  lemma InverseRoundTrip(m: Matrix, p: Point)
    requires m.s != 0.0
    ensures Apply(Inverse(m), Apply(m, p)) == p
    ensures Apply(m, Apply(Inverse(m), p)) == p
  {
    var i := 1.0 / m.s;
    assert i * m.s == 1.0;
    assert i * (m.s * p.x + m.tx) + -m.tx / m.s == i * m.s * p.x;
    assert i * (m.s * p.y + m.ty) + -m.ty / m.s == i * m.s * p.y;
    assert m.s * (i * p.x + -m.tx / m.s) + m.tx == m.s * i * p.x;
    assert m.s * (i * p.y + -m.ty / m.s) + m.ty == m.s * i * p.y;
  }

  /** `b.transform(m)`: the bounding box of the images of b's corners. */
  function TransformBox(b: Box, m: Matrix): (r: Box)
    ensures r.width >= 0.0 && r.height >= 0.0
    ensures m.s >= 0.0 && b.width >= 0.0 && b.height >= 0.0 ==>
      Apply(m, Point(b.x, b.y)) == Point(r.x, r.y) &&
      Apply(m, Point(b.x + b.width, b.y + b.height)) == Point(r.x + r.width, r.y + r.height)
  {
    var x1 := m.s * b.x + m.tx;
    var x2 := m.s * (b.x + b.width) + m.tx;
    var y1 := m.s * b.y + m.ty;
    var y2 := m.s * (b.y + b.height) + m.ty;
    assert m.s >= 0.0 && b.width >= 0.0 ==> x1 <= x2 by {
      if m.s >= 0.0 && b.width >= 0.0 { assert x2 - x1 == m.s * b.width; }
    }
    assert m.s >= 0.0 && b.height >= 0.0 ==> y1 <= y2 by {
      if m.s >= 0.0 && b.height >= 0.0 { assert y2 - y1 == m.s * b.height; }
    }
    Box(Min(x1, x2), Min(y1, y2), Max(x1, x2) - Min(x1, x2), Max(y1, y2) - Min(y1, y2))
  }

  /** svg.js `box.cx`, `box.cy` */
  function Center(b: Box): Point {
    Point(b.x + b.width / 2.0, b.y + b.height / 2.0)
  }

  predicate Positive(b: Box) {
    b.width > 0.0 && b.height > 0.0
  }

  /** Where a user-space point appears on the surface when the box is the
      viewBox: (0, 0) is the box's top-left corner, (1, 1) its bottom-right. */
  function ViewCoord(v: Box, p: Point): Point
    requires Positive(v)
  {
    Point((p.x - v.x) / v.width, (p.y - v.y) / v.height)
  }

  /** The matrix `m.translateO(c - m(p)).scaleO(k, c)` that panTo and zoomTo
      build: it brings p to c, then scales by k about c. */
  function CenterOn(m: Matrix, p: Point, c: Point, k: real): (r: Matrix)
    ensures Apply(r, p) == c
    ensures r.s == m.s * k
  {
    var q := Apply(m, p);
    ScaleO(TranslateO(m, c.x - q.x, c.y - q.y), k, c)
  }

  /** A box mapped by a matrix with positive scale keeps its shape: its
      origin and size follow the matrix. */
  lemma TransformBoxByPositiveScale(b: Box, m: Matrix)
    requires m.s > 0.0 && b.width >= 0.0 && b.height >= 0.0
    ensures TransformBox(b, m) == Box(m.s * b.x + m.tx, m.s * b.y + m.ty, m.s * b.width, m.s * b.height)
    ensures Positive(b) ==> Positive(TransformBox(b, m))
  {
    var r := TransformBox(b, m);
    assert Apply(m, Point(b.x + b.width, b.y + b.height)) == Point(r.x + r.width, r.y + r.height);
    assert r.width == m.s * b.width;
    assert r.height == m.s * b.height;
    if Positive(b) {
      assert m.s * b.width > 0.0;
      assert m.s * b.height > 0.0;
    }
  }

  /** Mapping a box by a matrix and then by its inverse gives the box back. */
  lemma TransformBoxRoundTrip(b: Box, m: Matrix)
    requires m.s > 0.0 && b.width >= 0.0 && b.height >= 0.0
    ensures TransformBox(TransformBox(b, m), Inverse(m)) == b
  {
    var i := Inverse(m);
    var r := TransformBox(b, m);
    TransformBoxByPositiveScale(b, m);
    assert i.s > 0.0 by { assert i.s * m.s == 1.0; }
    TransformBoxByPositiveScale(r, i);
    var back := TransformBox(r, i);
    InverseRoundTrip(m, Point(b.x, b.y));
    assert Point(back.x, back.y) == Apply(i, Apply(m, Point(b.x, b.y)));
    assert back.width == i.s * (m.s * b.width);
    assert back.height == i.s * (m.s * b.height);
  }

  /** Pan-end reconciliation: showing the content through matrix m inside the
      viewBox v looks exactly like showing it untransformed inside the viewBox
      v mapped by m's inverse. */
  lemma {:induction false} ReconcileKeepsView(v: Box, m: Matrix, q: Point)
    requires m.s > 0.0 && Positive(v)
    ensures Positive(TransformBox(v, Inverse(m)))
    ensures ViewCoord(TransformBox(v, Inverse(m)), q) == ViewCoord(v, Apply(m, q))
  {
    var i := Inverse(m);
    assert i.s > 0.0 by { assert i.s * m.s == 1.0; }
    InverseRoundTrip(m, q);
    MovedViewCoord(v, i, Apply(m, q));
  }

  /** Mapping both the viewBox and a point by the same matrix with positive
      scale keeps where the point appears on the surface. */
  lemma MovedViewCoord(v: Box, n: Matrix, p: Point)
    requires n.s > 0.0 && Positive(v)
    ensures Positive(TransformBox(v, n))
    ensures ViewCoord(TransformBox(v, n), Apply(n, p)) == ViewCoord(v, p)
  {
    TransformBoxByPositiveScale(v, n);
    var w := TransformBox(v, n);
    var q := Apply(n, p);
    AffineAxis(n.s, n.tx, v.x, v.width, p.x, q.x, w.x, w.width);
    AffineAxis(n.s, n.ty, v.y, v.height, p.y, q.y, w.y, w.height);
  }

  /** One axis of MovedViewCoord: mapping a point (p to q) and a viewBox
      side (vx, vw to wx, ww) by the same increasing affine map keeps the
      point's surface coordinate. */
  lemma AffineAxis(a: real, b: real, vx: real, vw: real, p: real, q: real, wx: real, ww: real)
    requires a > 0.0 && vw > 0.0
    requires q == a * p + b && wx == a * vx + b && ww == a * vw
    ensures (q - wx) / ww == (p - vx) / vw
  {
    assert q - wx == a * (p - vx);
    DivCommon(a, p - vx, vw);
  }

  lemma DivCommon(k: real, a: real, b: real)
    requires k > 0.0 && b > 0.0
    ensures (k * a) / (k * b) == a / b
  {
    assert (k * a) == (a / b) * (k * b);
  }

  /** Zooming by k about f gives the same picture on either channel: scaling
      the agent matrix about f inside viewBox v, or scaling the viewBox by
      1 / k about f. */
  lemma ZoomChannelsAgree(v: Box, m: Matrix, k: real, f: Point, q: Point)
    requires k > 0.0 && Positive(v)
    ensures Positive(TransformBox(v, ScaleAbout(1.0 / k, f)))
    ensures ViewCoord(v, Apply(ScaleO(m, k, f), q)) == ViewCoord(TransformBox(v, ScaleAbout(1.0 / k, f)), Apply(m, q))
  {
    var i := 1.0 / k;
    assert i * k == 1.0 && i > 0.0;
    var n := ScaleAbout(i, f);
    var mq := Apply(m, q);
    var sq := Apply(ScaleO(m, k, f), q);
    ApplyScaleO(m, k, f, q);
    assert Apply(n, sq) == mq by {
      assert f.x + i * (sq.x - f.x) == mq.x by {
        assert i * (sq.x - f.x) == i * k * (mq.x - f.x);
      }
      assert f.y + i * (sq.y - f.y) == mq.y by {
        assert i * (sq.y - f.y) == i * k * (mq.y - f.y);
      }
    }
    MovedViewCoord(v, n, sq);
  }

  /** The viewBox scaled by i about f. */
  lemma ScaleAboutBox(v: Box, i: real, f: Point)
    requires i > 0.0 && Positive(v)
    ensures TransformBox(v, ScaleAbout(i, f)) == Box(f.x + i * (v.x - f.x), f.y + i * (v.y - f.y), i * v.width, i * v.height)
    ensures Positive(TransformBox(v, ScaleAbout(i, f)))
  {
    var z := ScaleAbout(i, f);
    assert z == Matrix(i, f.x - i * f.x, f.y - i * f.y);
    TransformBoxByPositiveScale(v, z);
  }

  /** Panning by (dx, dy) gives the same picture on either channel:
      translating the agent matrix, or moving the viewBox by (-dx, -dy). */
  lemma PanChannelsAgree(v: Box, m: Matrix, dx: real, dy: real, q: Point)
    requires Positive(v)
    ensures TransformBox(v, Translation(-dx, -dy)) == Box(v.x - dx, v.y - dy, v.width, v.height)
    ensures ViewCoord(v, Apply(TranslateO(m, dx, dy), q)) == ViewCoord(TransformBox(v, Translation(-dx, -dy)), Apply(m, q))
  {
    var t := Translation(-dx, -dy);
    TransformBoxByPositiveScale(v, t);
    var tq := Apply(TranslateO(m, dx, dy), q);
    assert Apply(t, tq) == Apply(m, q);
    MovedViewCoord(v, t, tq);
  }

  /** The zoom about f keeps f where it was on the surface. */
  lemma ZoomKeepsFocusInPlace(v: Box, k: real, f: Point)
    requires k > 0.0 && Positive(v)
    ensures Positive(TransformBox(v, ScaleAbout(1.0 / k, f)))
    ensures ViewCoord(TransformBox(v, ScaleAbout(1.0 / k, f)), f) == ViewCoord(v, f)
  {
    ZoomChannelsAgree(v, Identity, k, f, f);
    assert Apply(ScaleO(Identity, k, f), f) == f;
  }
}
