/** Cairo's affine transformation matrix (cairo_matrix_t) and the three operations the
    repaint code applies to a context's current transformation matrix (CTM):
    translate, uniform scale and rotate. Every operation composes on the user side,
    as cairo does: the new CTM first applies the operation to a user-space point and
    then the old CTM. All arithmetic is exact over `real`. */
module Transform {

  datatype Point = Point(x: real, y: real)

  function Add(p: Point, q: Point): Point {
    Point(p.x + q.x, p.y + q.y)
  }

  function Sub(p: Point, q: Point): Point {
    Point(p.x - q.x, p.y - q.y)
  }

  /** A rotation given by its cosine `c` and sine `s`, as cairo_matrix_init_rotate
      builds it from an angle. */
  datatype Dir = Dir(c: real, s: real)

  /** The two coordinates of the vector (u, v) turned by `d`, written so that the
      matrix entries below share them. */
  function Along(u: real, v: real, d: Dir): real {
    u * d.c + v * d.s
  }

  function Across(u: real, v: real, d: Dir): real {
    v * d.c - u * d.s
  }

  /** Rotates a vector about the origin. */
  function Turn(d: Dir, p: Point): Point {
    Point(Along(p.x, -p.y, d), Across(-p.x, p.y, d))
  }

  /** The rotation that turns first by `a` and then by `b` (angles add). */
  function Compose(a: Dir, b: Dir): Dir {
    Dir(a.c * b.c - a.s * b.s, a.s * b.c + a.c * b.s)
  }

  /** cairo_matrix_t: device x = xx*x + xy*y + x0, device y = yx*x + yy*y + y0. */
  datatype Matrix = Matrix(xx: real, yx: real, xy: real, yy: real, x0: real, y0: real)

  /** Maps a user-space point to device space. */
  function Apply(m: Matrix, p: Point): Point {
    Point(m.xx * p.x + m.xy * p.y + m.x0, m.yx * p.x + m.yy * p.y + m.y0)
  }

  /** cairo_translate: shift user space by (dx, dy). */
  function Translated(m: Matrix, dx: real, dy: real): Matrix {
    m.(x0 := m.xx * dx + m.xy * dy + m.x0, y0 := m.yx * dx + m.yy * dy + m.y0)
  }

  /** cairo_scale with the same factor on both axes. */
  function Scaled(m: Matrix, f: real): Matrix {
    m.(xx := m.xx * f, yx := m.yx * f, xy := m.xy * f, yy := m.yy * f)
  }

  /** cairo_rotate by the rotation `d`. */
  function Rotated(m: Matrix, d: Dir): Matrix {
    Matrix(Along(m.xx, m.xy, d), Along(m.yx, m.yy, d),
           Across(m.xx, m.xy, d), Across(m.yx, m.yy, d),
           m.x0, m.y0)
  }

  /** translate(p), rotate(d), translate(-p): the conjugation the clock code uses to
      turn a hand about the pivot `p`. */
  function AroundPivot(m: Matrix, p: Point, d: Dir): Matrix {
    Translated(Rotated(Translated(m, p.x, p.y), d), -p.x, -p.y)
  }

  /** A translated CTM maps `q` where the old CTM maps `q` shifted by (dx, dy). */
  lemma ApplyTranslated(m: Matrix, dx: real, dy: real, q: Point)
    ensures Apply(Translated(m, dx, dy), q) == Apply(m, Add(q, Point(dx, dy)))
  {
    var t := Translated(m, dx, dy);
    var q' := Add(q, Point(dx, dy));
    assert Apply(t, q).x == Apply(m, q').x by {
      AffineShift(m.xx, m.xy, m.x0, q.x, q.y, dx, dy);
    }
    assert Apply(t, q).y == Apply(m, q').y by {
      AffineShift(m.yx, m.yy, m.y0, q.x, q.y, dx, dy);
    }
  }

  /** One row of an affine map applied to a shifted point. */
  lemma AffineShift(a: real, b: real, c: real, x: real, y: real, dx: real, dy: real)
    ensures a * (x + dx) + b * (y + dy) + c == a * x + b * y + (a * dx + b * dy + c)
  {
    assert a * (x + dx) == a * x + a * dx;
    assert b * (y + dy) == b * y + b * dy;
  }

  /** A scaled CTM maps `q` where the old CTM maps `q` stretched by `f`. */
  lemma ApplyScaled(m: Matrix, f: real, q: Point)
    ensures Apply(Scaled(m, f), q) == Apply(m, Point(f * q.x, f * q.y))
  {
    var q' := Point(f * q.x, f * q.y);
    assert Apply(Scaled(m, f), q).x == Apply(m, q').x by {
      assert m.xx * f * q.x == m.xx * (f * q.x);
      assert m.xy * f * q.y == m.xy * (f * q.y);
    }
    assert Apply(Scaled(m, f), q).y == Apply(m, q').y by {
      assert m.yx * f * q.x == m.yx * (f * q.x);
      assert m.yy * f * q.y == m.yy * (f * q.y);
    }
  }

  lemma RotatedEntry(u: real, v: real, d: Dir, x: real, y: real, k: real)
    ensures Along(u, v, d) * x + Across(u, v, d) * y + k
         == u * Along(x, -y, d) + v * Across(-x, y, d) + k
  {
  }

  /** A rotated CTM maps `q` where the old CTM maps `q` turned by `d`. */
  lemma ApplyRotated(m: Matrix, d: Dir, q: Point)
    ensures Apply(Rotated(m, d), q) == Apply(m, Turn(d, q))
  {
    var q' := Turn(d, q);
    assert Apply(Rotated(m, d), q).x == Apply(m, q').x by {
      RotatedEntry(m.xx, m.xy, d, q.x, q.y, m.x0);
    }
    assert Apply(Rotated(m, d), q).y == Apply(m, q').y by {
      RotatedEntry(m.yx, m.yy, d, q.x, q.y, m.y0);
    }
  }

  /** The conjugated rotation turns every point about the pivot: `q` lands where the
      old CTM puts the pivot plus the turned offset of `q` from it. */
  lemma ApplyAroundPivot(m: Matrix, p: Point, d: Dir, q: Point)
    ensures Apply(AroundPivot(m, p, d), q) == Apply(m, Add(p, Turn(d, Sub(q, p))))
  {
    var t := Translated(m, p.x, p.y);
    var r := Rotated(t, d);
    ApplyTranslated(r, -p.x, -p.y, q);
    assert Add(q, Point(-p.x, -p.y)) == Sub(q, p);
    ApplyRotated(t, d, Sub(q, p));
    ApplyTranslated(m, p.x, p.y, Turn(d, Sub(q, p)));
    assert Add(Turn(d, Sub(q, p)), Point(p.x, p.y)) == Add(p, Turn(d, Sub(q, p)));
  }

  /** The pivot itself does not move: the hands turn about it without wobbling. */
  lemma PivotFixed(m: Matrix, p: Point, d: Dir)
    ensures Apply(AroundPivot(m, p, d), p) == Apply(m, p)
  {
    ApplyAroundPivot(m, p, d, p);
    assert Sub(p, p) == Point(0.0, 0.0);
    assert Turn(d, Point(0.0, 0.0)) == Point(0.0, 0.0);
    assert Add(p, Point(0.0, 0.0)) == p;
  }

  lemma ComposeEntries(u: real, v: real, a: Dir, b: Dir)
    ensures Along(Along(u, v, a), Across(u, v, a), b) == Along(u, v, Compose(a, b))
    ensures Across(Along(u, v, a), Across(u, v, a), b) == Across(u, v, Compose(a, b))
  {
  }

  /** Rotating by `a` and then by `b` rotates by their composition. */
  lemma RotatedCompose(m: Matrix, a: Dir, b: Dir)
    ensures Rotated(Rotated(m, a), b) == Rotated(m, Compose(a, b))
  {
    ComposeEntries(m.xx, m.xy, a, b);
    ComposeEntries(m.yx, m.yy, a, b);
  }

  /** Two consecutive turns about the same pivot are one turn about it by the composed
      rotation: the translate(-p) of the first and the translate(p) of the second
      cancel. */
  lemma PivotCompose(m: Matrix, p: Point, a: Dir, b: Dir)
    ensures AroundPivot(AroundPivot(m, p, a), p, b) == AroundPivot(m, p, Compose(a, b))
  {
    var t := Translated(m, p.x, p.y);
    assert Translated(Translated(Rotated(t, a), -p.x, -p.y), p.x, p.y) == Rotated(t, a);
    RotatedCompose(t, a, b);
  }

  /** What the code's angle-to-rotation conversion (degrees to radians, then cosine
      and sine inside cairo) must satisfy for the telescoping below: adding angles
      composes rotations. The true cosine and sine satisfy it. */
  ghost predicate IsRotationMap(cis: real -> Dir) {
    forall a: real, b: real :: Compose(cis(a), cis(b)) == cis(a + b)
  }

  /** A turn by `a` about the pivot followed by a turn by the DELTA `b - a` about the
      same pivot is a turn by `b`: the deltas telescope to the absolute angle. */
  lemma Telescope(m: Matrix, p: Point, cis: real -> Dir, a: real, b: real)
    requires IsRotationMap(cis)
    ensures AroundPivot(AroundPivot(m, p, cis(a)), p, cis(b - a)) == AroundPivot(m, p, cis(b))
  {
    PivotCompose(m, p, cis(a), cis(b - a));
    assert Compose(cis(a), cis(b - a)) == cis(a + (b - a));
    assert a + (b - a) == b;
  }

  /** scale(f) followed by scale(1/f) leaves the CTM as it was. */
  lemma ScaleCancel(m: Matrix, f: real)
    requires f != 0.0
    ensures Scaled(Scaled(m, f), 1.0 / f) == m
  {
    assert m.xx * f * (1.0 / f) == m.xx * (f * (1.0 / f));
    assert m.yx * f * (1.0 / f) == m.yx * (f * (1.0 / f));
    assert m.xy * f * (1.0 / f) == m.xy * (f * (1.0 / f));
    assert m.yy * f * (1.0 / f) == m.yy * (f * (1.0 / f));
  }
}
