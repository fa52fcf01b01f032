/** Optional values: the model's replacement for properties that may be `undefined`. */
module Wrappers {

  datatype Option<+T> = None | Some(value: T)
}

/**
 Sizes, points and the axis-aligned transforms a 2D canvas context builds
 from `resetTransform`, `scale` and `translate`. All quantities are reals:
 the model ignores floating-point rounding.
 */
module Geometry {

  /** A width/height pair, in logical units or device pixels depending on use. */
  datatype Size = Size(width: real, height: real)

  datatype Point = Point(x: real, y: real)

  predicate Positive(s: Size) {
    s.width > 0.0 && s.height > 0.0
  }

  /**
   An axis-aligned affine map (x, y) |-> (sx * x + tx, sy * y + ty). Only
   scaling and translation are ever applied, so no shear or rotation terms
   are needed.
   */
  datatype Transform = Transform(sx: real, sy: real, tx: real, ty: real)

  function Apply(m: Transform, p: Point): Point {
    Point(m.sx * p.x + m.tx, m.sy * p.y + m.ty)
  }

  /** The transform a context holds after `resetTransform()`. */
  function Identity(): (m: Transform)
    ensures forall p :: Apply(m, p) == p
  {
    Transform(1.0, 1.0, 0.0, 0.0)
  }

  /** `g.scale(a, b)`: post-multiply the current transform by a scaling. */
  function ThenScale(m: Transform, a: real, b: real): Transform {
    Transform(m.sx * a, m.sy * b, m.tx, m.ty)
  }

  /** `g.translate(dx, dy)`: post-multiply the current transform by a translation. */
  function ThenTranslate(m: Transform, dx: real, dy: real): Transform {
    Transform(m.sx, m.sy, m.sx * dx + m.tx, m.sy * dy + m.ty)
  }

  /** After `scale(a, b)` user coordinates are scaled first, then the old transform applies. */
  lemma ScaleComposes(m: Transform, a: real, b: real, p: Point)
    ensures Apply(ThenScale(m, a, b), p) == Apply(m, Point(a * p.x, b * p.y))
  {
    assert (m.sx * a) * p.x == m.sx * (a * p.x);
    assert (m.sy * b) * p.y == m.sy * (b * p.y);
  }

  /** After `translate(dx, dy)` user coordinates are shifted first, then the old transform applies. */
  lemma TranslateComposes(m: Transform, dx: real, dy: real, p: Point)
    ensures Apply(ThenTranslate(m, dx, dy), p) == Apply(m, Point(p.x + dx, p.y + dy))
  {
    var r := Apply(ThenTranslate(m, dx, dy), p);
    var q := Apply(m, Point(p.x + dx, p.y + dy));
    assert r.x == q.x by {
      assert m.sx * (p.x + dx) == m.sx * p.x + m.sx * dx;
    }
    assert r.y == q.y by {
      assert m.sy * (p.y + dy) == m.sy * p.y + m.sy * dy;
    }
  }
}
