/**
 The letterbox arithmetic of `reshape`: from the on-screen size of a canvas,
 the device pixel ratio and the canvas's reference resolution, compute the
 backing resolution and the offset and uniform scale through which the
 drawing function paints. Over the reals the intended guarantees hold
 exactly; the source computes with doubles, so there they hold only up to
 rounding.
 */
module Fit {
  import opened Geometry

  /**
   Result of one fit: the backing resolution in device pixels, the offset
   of the fitted rectangle in logical units, and the reference-to-logical
   scale.
   */
  datatype Placement = Placement(backing: Size, left: real, top: real, scale: real)

  /** The backing resolution for an on-screen size at a pixel ratio (the value assigned, before any integer conversion by the host). */
  function Backing(client: Size, dpr: real): Size {
    Size(client.width * dpr, client.height * dpr)
  }

  /** The reference rectangle drawn at scale `k`, in logical units. */
  function Fitted(original: Size, k: real): Size {
    Size(original.width * k, original.height * k)
  }

  /** The reference rectangle at scale `k` fits inside `box`. */
  predicate Fits(original: Size, k: real, box: Size) {
    original.width * k <= box.width && original.height * k <= box.height
  }

  /**
   An independent description of the intended fit: backing resolution
   tracks density, the scale is the largest at which the reference
   rectangle fits the box, and the slack is split evenly on both axes.
   */
  ghost predicate BestFit(p: Placement, client: Size, dpr: real, original: Size) {
    && p.backing == Backing(client, dpr)
    && p.scale > 0.0
    && Fits(original, p.scale, client)
    && (forall k :: Fits(original, k, client) ==> k <= p.scale)
    && 2.0 * p.left + original.width * p.scale == client.width
    && 2.0 * p.top + original.height * p.scale == client.height
  }

  /** The on-screen box is relatively taller (narrower) than the reference. */
  predicate Taller(client: Size, original: Size)
    requires Positive(client) && Positive(original)
  {
    client.width / client.height < original.width / original.height
  }

  /** The fit computed by `reshape`, branch for branch. */
  function Reshape(client: Size, dpr: real, original: Size): (p: Placement)
    requires Positive(client) && dpr > 0.0 && Positive(original)
    ensures p.backing == Backing(client, dpr)
    ensures p.scale > 0.0
    ensures p.left >= 0.0 && p.top >= 0.0
    ensures p.left + original.width * p.scale <= client.width
    ensures p.top + original.height * p.scale <= client.height
    ensures original.width * p.scale == client.width || original.height * p.scale == client.height
  {
    var w := client.width;
    var h := client.height;
    var aspect := original.width / original.height;
    if w / h < aspect then
      TallerFacts(client, original);
      Placement(Backing(client, dpr), 0.0, (h - w / aspect) / 2.0, w / original.width)
    else
      WiderFacts(client, original);
      Placement(Backing(client, dpr), (w - h * aspect) / 2.0, 0.0, h / original.height)
  }

  /** Arithmetic behind the first branch of `Reshape`. */
  lemma TallerFacts(client: Size, original: Size)
    requires Positive(client) && Positive(original)
    requires Taller(client, original)
    ensures var aspect := original.width / original.height;
            var k := client.width / original.width;
            && original.width * k == client.width
            && client.width / aspect == original.height * k
            && original.height * k < client.height
  {
    var w, h, ow, oh := client.width, client.height, original.width, original.height;
    var aspect := ow / oh;
    var k := w / ow;
    assert aspect * oh == ow;
    assert k * ow == w;
    assert w / aspect * aspect == w;
    assert w / aspect == oh * k by {
      assert (oh * k) * aspect == k * ow;
    }
    assert w / h * h == w;
    assert w < aspect * h by {
      assert (w / h) * h < aspect * h;
    }
    assert oh * k * aspect < h * aspect;
  }

  /** Arithmetic behind the second branch of `Reshape`. */
  lemma WiderFacts(client: Size, original: Size)
    requires Positive(client) && Positive(original)
    requires !Taller(client, original)
    ensures var aspect := original.width / original.height;
            var k := client.height / original.height;
            && original.height * k == client.height
            && client.height * aspect == original.width * k
            && original.width * k <= client.width
  {
    var w, h, ow, oh := client.width, client.height, original.width, original.height;
    var aspect := ow / oh;
    var k := h / oh;
    assert aspect * oh == ow;
    assert k * oh == h;
    assert h * aspect == ow * k by {
      assert h * aspect == k * oh * aspect;
    }
    assert w / h * h == w;
    assert aspect * h <= w by {
      assert aspect * h <= (w / h) * h;
    }
  }

  /**
   A box relatively taller than the reference is letterboxed vertically:
   the width is filled, the content starts at the left edge, and the
   vertical slack is split evenly above and below.
   */
  lemma TallBoxLetterboxesVertically(client: Size, dpr: real, original: Size)
    requires Positive(client) && dpr > 0.0 && Positive(original)
    requires client.width / client.height < original.width / original.height
    ensures var p := Reshape(client, dpr, original);
            && p.left == 0.0
            && p.scale == client.width / original.width
            && original.width * p.scale == client.width
            && p.top > 0.0
            && 2.0 * p.top + original.height * p.scale == client.height
  {
    TallerFacts(client, original);
    var aspect := original.width / original.height;
    var k := client.width / original.width;
    var p := Reshape(client, dpr, original);
    assert p.scale == k && p.left == 0.0;
    var slack := client.height - client.width / aspect;
    assert p.top == slack / 2.0;
    assert 2.0 * p.top == slack;
    assert slack == client.height - original.height * k;
  }

  /**
   Otherwise the box is letterboxed horizontally: the height is filled,
   the content starts at the top edge, and the horizontal slack is split
   evenly left and right.
   */
  lemma WideBoxLetterboxesHorizontally(client: Size, dpr: real, original: Size)
    requires Positive(client) && dpr > 0.0 && Positive(original)
    requires client.width / client.height >= original.width / original.height
    ensures var p := Reshape(client, dpr, original);
            && p.top == 0.0
            && p.scale == client.height / original.height
            && original.height * p.scale == client.height
            && p.left >= 0.0
            && 2.0 * p.left + original.width * p.scale == client.width
  {
    WiderFacts(client, original);
    var aspect := original.width / original.height;
    var k := client.height / original.height;
    var p := Reshape(client, dpr, original);
    assert p.scale == k && p.top == 0.0;
    var slack := client.width - client.height * aspect;
    assert p.left == slack / 2.0;
    assert 2.0 * p.left == slack;
    assert slack == client.width - original.width * k;
  }

  /** The fitted rectangle has exactly the reference aspect ratio. */
  lemma NoDistortion(client: Size, dpr: real, original: Size)
    requires Positive(client) && dpr > 0.0 && Positive(original)
    ensures var f := Fitted(original, Reshape(client, dpr, original).scale);
            f.width / f.height == original.width / original.height
  {
    FittedRatio(original, Reshape(client, dpr, original).scale);
  }

  /** A rectangle scaled from the reference keeps its aspect ratio. */
  lemma FittedRatio(original: Size, k: real)
    requires Positive(original) && k > 0.0
    ensures Fitted(original, k).width / Fitted(original, k).height == original.width / original.height
  {
    RatioUnderScaling(original.width, original.height, k);
  }

  /** Scaling both sides of a ratio by the same positive factor keeps it. */
  lemma RatioUnderScaling(a: real, b: real, k: real)
    requires b > 0.0 && k > 0.0
    ensures (a * k) / (b * k) == a / b
  {
    var q := a / b;
    assert q * b == a;
    assert (b * k) * q == a * k;
    assert (a * k) / (b * k) * (b * k) == a * k;
  }

  /** The computed fit is the intended one: largest scale, centered, density-tracking. */
  lemma ReshapeIsBestFit(client: Size, dpr: real, original: Size)
    requires Positive(client) && dpr > 0.0 && Positive(original)
    ensures BestFit(Reshape(client, dpr, original), client, dpr, original)
  {
    var p := Reshape(client, dpr, original);
    if Taller(client, original) {
      TallBoxLetterboxesVertically(client, dpr, original);
      forall k | Fits(original, k, client) ensures k <= p.scale {
        assert original.width * k <= original.width * p.scale;
      }
    } else {
      WideBoxLetterboxesHorizontally(client, dpr, original);
      forall k | Fits(original, k, client) ensures k <= p.scale {
        assert original.height * k <= original.height * p.scale;
      }
    }
  }

  /** Conversely, any placement meeting the intended description is the one computed. */
  lemma BestFitIsUnique(q: Placement, client: Size, dpr: real, original: Size)
    requires Positive(client) && dpr > 0.0 && Positive(original)
    requires BestFit(q, client, dpr, original)
    ensures q == Reshape(client, dpr, original)
  {
    var p := Reshape(client, dpr, original);
    ReshapeIsBestFit(client, dpr, original);
    assert q.scale <= p.scale && p.scale <= q.scale;
    assert q.scale == p.scale;
    assert 2.0 * q.left == 2.0 * p.left;
    assert 2.0 * q.top == 2.0 * p.top;
  }

  /**
   The transform the drawing function paints through: `resetTransform`,
   `scale(dpr, dpr)`, `translate(left, top)`, `scale(scale, scale)`.
   */
  function ContextTransform(p: Placement, dpr: real): (m: Transform)
    ensures m == Transform(dpr * p.scale, dpr * p.scale, dpr * p.left, dpr * p.top)
  {
    ThenScale(ThenTranslate(ThenScale(Identity(), dpr, dpr), p.left, p.top), p.scale, p.scale)
  }

  /** The composed transform sends a reference point to dpr * (offset + scale * point). */
  lemma DeviceMapping(p: Placement, dpr: real, pt: Point)
    ensures Apply(ContextTransform(p, dpr), pt)
         == Point(dpr * (p.left + p.scale * pt.x), dpr * (p.top + p.scale * pt.y))
  {
    var m1 := ThenScale(Identity(), dpr, dpr);
    var m2 := ThenTranslate(m1, p.left, p.top);
    var q := Point(p.scale * pt.x, p.scale * pt.y);
    var r := Point(q.x + p.left, q.y + p.top);
    ScaleComposes(m2, p.scale, p.scale, pt);
    TranslateComposes(m1, p.left, p.top, q);
    ScaleComposes(Identity(), dpr, dpr, r);
    assert Apply(Identity(), Point(dpr * r.x, dpr * r.y)) == Point(dpr * r.x, dpr * r.y);
  }

  /**
   Every point of the reference rectangle lands inside the backing store,
   in device pixels: nothing the drawing function paints in reference
   units is clipped.
   */
  lemma ReferenceLandsInBacking(client: Size, dpr: real, original: Size, pt: Point)
    requires Positive(client) && dpr > 0.0 && Positive(original)
    requires 0.0 <= pt.x <= original.width && 0.0 <= pt.y <= original.height
    ensures var p := Reshape(client, dpr, original);
            var d := Apply(ContextTransform(p, dpr), pt);
            && 0.0 <= d.x <= p.backing.width
            && 0.0 <= d.y <= p.backing.height
  {
    var p := Reshape(client, dpr, original);
    PlacedPointInBacking(p, client, dpr, original, pt);
  }

  /** The device-pixel form of `PlacedPointInBox`. */
  lemma PlacedPointInBacking(p: Placement, client: Size, dpr: real, original: Size, pt: Point)
    requires dpr > 0.0 && p.backing == Backing(client, dpr)
    requires p.scale > 0.0 && p.left >= 0.0 && p.top >= 0.0
    requires p.left + original.width * p.scale <= client.width
    requires p.top + original.height * p.scale <= client.height
    requires 0.0 <= pt.x <= original.width && 0.0 <= pt.y <= original.height
    ensures var d := Apply(ContextTransform(p, dpr), pt);
            && 0.0 <= d.x <= p.backing.width
            && 0.0 <= d.y <= p.backing.height
  {
    DeviceMapping(p, dpr, pt);
    PlacedPointInBox(p, client, original, pt);
    var u := p.left + p.scale * pt.x;
    var v := p.top + p.scale * pt.y;
    ScaleMonotone(dpr, 0.0, u);
    ScaleMonotone(dpr, u, client.width);
    ScaleMonotone(dpr, 0.0, v);
    ScaleMonotone(dpr, v, client.height);
    assert dpr * client.width == client.width * dpr;
    assert dpr * client.height == client.height * dpr;
  }

  /** A reference point, placed by an offset and scale that keep the reference rectangle inside the box, lies inside the box. */
  lemma PlacedPointInBox(p: Placement, client: Size, original: Size, pt: Point)
    requires p.scale > 0.0 && p.left >= 0.0 && p.top >= 0.0
    requires p.left + original.width * p.scale <= client.width
    requires p.top + original.height * p.scale <= client.height
    requires 0.0 <= pt.x <= original.width && 0.0 <= pt.y <= original.height
    ensures 0.0 <= p.left + p.scale * pt.x <= client.width
    ensures 0.0 <= p.top + p.scale * pt.y <= client.height
  {
    ScaleMonotone(p.scale, 0.0, pt.x);
    ScaleMonotone(p.scale, pt.x, original.width);
    ScaleMonotone(p.scale, 0.0, pt.y);
    ScaleMonotone(p.scale, pt.y, original.height);
  }

  lemma ScaleMonotone(k: real, x: real, y: real)
    requires k >= 0.0 && x <= y
    ensures k * x <= k * y
  {
    assert k * y - k * x == k * (y - x);
  }
}
