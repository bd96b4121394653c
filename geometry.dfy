/**
 * CoreGraphics geometry over exact rationals: sizes, rectangles, points and
 * affine transforms in CoreGraphics' row-vector convention, where a point
 * (x, y) maps to (a*x + c*y + tx, b*x + d*y + ty).
 */
module Geometry {

  datatype Point = Point(x: real, y: real)

  datatype Size = Size(width: real, height: real)

  /** A frame: origin (x, y) and extent (width, height). */
  datatype Rect = Rect(x: real, y: real, width: real, height: real)

  /** A size whose sides are both strictly positive (a real video track or image). */
  type PositiveSize = s: Size | s.width > 0.0 && s.height > 0.0 witness Size(1.0, 1.0)

  datatype Affine = Affine(a: real, b: real, c: real, d: real, tx: real, ty: real)

  /** The point that `t` maps `p` to. */
  function Apply(t: Affine, p: Point): Point {
    Point(t.a * p.x + t.c * p.y + t.tx, t.b * p.x + t.d * p.y + t.ty)
  }

  const Identity: Affine := Affine(1.0, 0.0, 0.0, 1.0, 0.0, 0.0)

  /** `CGAffineTransform(scaleX:y:)`. */
  function Scale(sx: real, sy: real): Affine {
    Affine(sx, 0.0, 0.0, sy, 0.0, 0.0)
  }

  /** `CGAffineTransform(translationX:y:)`. */
  function Translate(dx: real, dy: real): Affine {
    Affine(1.0, 0.0, 0.0, 1.0, dx, dy)
  }

  /**
   * `CGAffineTransform(rotationAngle: .pi)`, taken as the exact half turn:
   * cos(pi) = -1 and sin(pi) = 0.
   */
  function HalfTurn(): Affine {
    Affine(-1.0, 0.0, 0.0, -1.0, 0.0, 0.0)
  }

  /**
   * `t1.concatenating(t2)`: the transform that applies `t1` first and
   * then `t2` (the matrix product t1 * t2 in row-vector convention).
   */
  function Concat(t1: Affine, t2: Affine): Affine {
    Affine(t1.a * t2.a + t1.b * t2.c,
           t1.a * t2.b + t1.b * t2.d,
           t1.c * t2.a + t1.d * t2.c,
           t1.c * t2.b + t1.d * t2.d,
           t1.tx * t2.a + t1.ty * t2.c + t2.tx,
           t1.tx * t2.b + t1.ty * t2.d + t2.ty)
  }

  /** The three elementary transforms do what their names say to every point. */
  lemma ElementaryApply(p: Point, sx: real, sy: real, dx: real, dy: real)
    ensures Apply(Scale(sx, sy), p) == Point(sx * p.x, sy * p.y)
    ensures Apply(Translate(dx, dy), p) == Point(p.x + dx, p.y + dy)
    ensures Apply(HalfTurn(), p) == Point(-p.x, -p.y)
  {
  }

  /** Applying `Concat(t1, t2)` is applying `t1`, then `t2`. */
  lemma ConcatApply(t1: Affine, t2: Affine, p: Point)
    ensures Apply(Concat(t1, t2), p) == Apply(t2, Apply(t1, p))
  {
    var q := Apply(t1, p);
    calc {
      Apply(t2, q).x;
      t2.a * (t1.a * p.x + t1.c * p.y + t1.tx) + t2.c * (t1.b * p.x + t1.d * p.y + t1.ty) + t2.tx;
      (t1.a * t2.a + t1.b * t2.c) * p.x + (t1.c * t2.a + t1.d * t2.c) * p.y + (t1.tx * t2.a + t1.ty * t2.c + t2.tx);
      Apply(Concat(t1, t2), p).x;
    }
    calc {
      Apply(t2, q).y;
      t2.b * (t1.a * p.x + t1.c * p.y + t1.tx) + t2.d * (t1.b * p.x + t1.d * p.y + t1.ty) + t2.ty;
      (t1.a * t2.b + t1.b * t2.d) * p.x + (t1.c * t2.b + t1.d * t2.d) * p.y + (t1.tx * t2.b + t1.ty * t2.d + t2.ty);
      Apply(Concat(t1, t2), p).y;
    }
  }

  /** An affine transform is determined by where it sends the origin and the two unit points. */
  lemma AffineExtensional(t: Affine, u: Affine)
    requires Apply(t, Point(0.0, 0.0)) == Apply(u, Point(0.0, 0.0))
    requires Apply(t, Point(1.0, 0.0)) == Apply(u, Point(1.0, 0.0))
    requires Apply(t, Point(0.0, 1.0)) == Apply(u, Point(0.0, 1.0))
    ensures t == u
  {
  }

  /** Concatenation is associative, so the order of grouping in a chain never matters. */
  lemma ConcatAssociative(t1: Affine, t2: Affine, t3: Affine)
    ensures Concat(Concat(t1, t2), t3) == Concat(t1, Concat(t2, t3))
  {
    var l, r := Concat(Concat(t1, t2), t3), Concat(t1, Concat(t2, t3));
    forall p: Point | p in {Point(0.0, 0.0), Point(1.0, 0.0), Point(0.0, 1.0)}
      ensures Apply(l, p) == Apply(r, p)
    {
      ConcatApply(Concat(t1, t2), t3, p);
      ConcatApply(t1, t2, p);
      ConcatApply(t1, Concat(t2, t3), p);
      ConcatApply(t2, t3, Apply(t1, p));
    }
    AffineExtensional(l, r);
  }

  /** Scaling uniformly after `t` multiplies all six entries of `t` by the factor. */
  lemma ConcatScale(t: Affine, s: real)
    ensures Concat(t, Scale(s, s)) == Affine(t.a * s, t.b * s, t.c * s, t.d * s, t.tx * s, t.ty * s)
  {
  }
}
