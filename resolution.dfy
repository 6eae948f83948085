/** The resolution normaliser: `MVSDataset.scale_mvs_input`, which fits an
    image inside `max_h x max_w` with dimensions that are multiples of `base`,
    and the resize to the sample's standard shape done in `__getitem__`. The
    pixels are not modelled: an image is its shape, and `cv2.resize` becomes
    "the image now has the requested shape". */
module Resolution {
  import opened Common

  datatype ScaleError =
    | ZeroDivision   // an image dimension of 0 is divided by
    | EmptyResize    // `cv2.resize` is asked for a destination without pixels

  /** An image shape together with the intrinsics that match it. */
  datatype Scaled = Scaled(shape: Shape, intrinsics: Matrix)

  /** The uniform factor of lines 158-165: start from `max_h / h`, switch to
      `max_w / w` if the width would still overflow; 1 when the image fits. */
  function FitScale(img: Shape, maxW: int, maxH: int): real
    requires img.h > 0 && img.w > 0
  {
    if img.h > maxH || img.w > maxW then
      var s := maxH as real / img.h as real;
      if s * img.w as real > maxW as real then maxW as real / img.w as real else s
    else 1.0
  }

  /** The factor is min(max_h / h, max_w / w) when the image overflows. */
  lemma FitScaleSpec(img: Shape, maxW: int, maxH: int)
    requires img.h > 0 && img.w > 0
    ensures var s := FitScale(img, maxW, maxH);
      var sh, sw := maxH as real / img.h as real, maxW as real / img.w as real;
      && (img.h > maxH || img.w > maxW ==> s == (if sh <= sw then sh else sw))
      && (img.h <= maxH && img.w <= maxW ==> s == 1.0)
  {
    var w := img.w as real;
    var sh, sw := maxH as real / img.h as real, maxW as real / w;
    assert sw * w == maxW as real;
    if img.h > maxH || img.w > maxW {
      if sh * w > maxW as real {
        assert sh * w > sw * w;
      } else {
        assert sh * w <= sw * w;
      }
    }
  }

  /** The factor never enlarges and keeps the scaled image inside the bound. */
  lemma FitScaleBounds(img: Shape, maxW: int, maxH: int)
    requires img.h > 0 && img.w > 0
    ensures FitScale(img, maxW, maxH) * img.w as real <= maxW as real
    ensures FitScale(img, maxW, maxH) * img.h as real <= maxH as real
    ensures FitScale(img, maxW, maxH) <= 1.0
  {
    var h, w := img.h as real, img.w as real;
    var sh, sw := maxH as real / h, maxW as real / w;
    assert sh * h == maxH as real && sw * w == maxW as real;
    if img.h > maxH || img.w > maxW {
      if sh * w > maxW as real {
        assert sh * w > sw * w;
        assert sw < sh;
        assert sw * h < sh * h;
        if img.w > maxW {
          assert sw * w < 1.0 * w;
        } else {
          assert maxH as real < h;
          assert sh * h < 1.0 * h;
        }
      } else {
        if img.h > maxH {
          assert sh * h < 1.0 * h;
        } else {
          assert sh * w < 1.0 * w;
        }
      }
    }
  }

  /** The quantisation stride; `scale_mvs_input` is only called with its
      default `base=32`. */
  const Base := 32

  /** `x // base * base` for a float `x`: the largest multiple of the base at
      or below `x`. */
  function FloorToBase(x: real): (n: int)
    ensures n % Base == 0
    ensures n as real <= x < (n + Base) as real
  {
    (x / Base as real).Floor * Base
  }

  /** `d` scaled by `s` and floored to the base (lines 162 and 164). */
  function Quantise(s: real, d: nat): int
  {
    FloorToBase(s * d as real)
  }

  /** The width and height `scale_mvs_input` resizes to (lines 158-164);
      they are negative when the bound is. */
  function NewWidth(img: Shape, maxW: int, maxH: int): int
    requires img.h > 0 && img.w > 0
  {
    Quantise(FitScale(img, maxW, maxH), img.w)
  }

  function NewHeight(img: Shape, maxW: int, maxH: int): int
    requires img.h > 0 && img.w > 0
  {
    Quantise(FitScale(img, maxW, maxH), img.h)
  }

  /** A dimension `d` scaled by `s <= 1` to within `bound` and floored to
      the base is a multiple of the base, stays within `bound` and within
      `d`, and is the largest such multiple at or below the scaled size. */
  lemma Quantised(s: real, d: nat, bound: int)
    requires s <= 1.0 && s * d as real <= bound as real
    ensures var n := Quantise(s, d);
      && n % Base == 0 && n <= bound && n <= d
      && n as real <= s * d as real < (n + Base) as real
  {
    assert s * d as real <= 1.0 * d as real;
  }

  /** Both new dimensions are multiples of the base, inside the bound, no
      larger than the image, and the largest such multiples at or below the
      uniformly scaled size. */
  lemma NewShapeSpec(img: Shape, maxW: int, maxH: int)
    requires img.h > 0 && img.w > 0
    ensures var nw, nh := NewWidth(img, maxW, maxH), NewHeight(img, maxW, maxH);
      var s := FitScale(img, maxW, maxH);
      && nw % Base == 0 && nh % Base == 0
      && nw <= maxW && nh <= maxH
      && nw <= img.w && nh <= img.h
      && nw as real <= s * img.w as real < (nw + Base) as real
      && nh as real <= s * img.h as real < (nh + Base) as real
  {
    var s := FitScale(img, maxW, maxH);
    FitScaleBounds(img, maxW, maxH);
    Quantised(s, img.w, maxW);
    Quantised(s, img.h, maxH);
  }

  /** `scale_mvs_input`: the image resized to the new width and height and
      the intrinsics rescaled to match. */
  function ScaleMvsInput(img: Shape, k: Matrix, maxW: int, maxH: int): (r: Result<Scaled, ScaleError>)
    requires IsMatrix(k, 3, 3)
    ensures r.Ok? ==> r.value.shape.h > 0 && r.value.shape.w > 0 && IsMatrix(r.value.intrinsics, 3, 3)
  {
    if img.h == 0 || img.w == 0 then Err(ZeroDivision)
    else
      var newW, newH := NewWidth(img, maxW, maxH), NewHeight(img, maxW, maxH);
      if newW <= 0 || newH <= 0 then Err(EmptyResize)
      else
        var scaleW := newW as real / img.w as real;
        var scaleH := newH as real / img.h as real;
        Ok(Scaled(Shape(newH, newW), ScaleRow(ScaleRow(k, 0, scaleW), 1, scaleH)))
  }

  /** `scale_mvs_input` fails on an image dimension of 0 (division by zero)
      and when a new dimension would be 0 or less (an empty resize);
      otherwise the image takes the new shape. */
  lemma ScaleMvsInputResult(img: Shape, k: Matrix, maxW: int, maxH: int)
    requires IsMatrix(k, 3, 3)
    ensures img.h == 0 || img.w == 0 ==> ScaleMvsInput(img, k, maxW, maxH) == Err(ZeroDivision)
    ensures img.h > 0 && img.w > 0 ==>
      var nw, nh := NewWidth(img, maxW, maxH), NewHeight(img, maxW, maxH);
      && (ScaleMvsInput(img, k, maxW, maxH).Ok? <==> nh > 0 && nw > 0)
      && (nh > 0 && nw > 0 ==> ScaleMvsInput(img, k, maxW, maxH).value.shape == Shape(nh, nw))
  {
  }

  /** Intrinsic row 0 is scaled by new_w / w, row 1 by new_h / h, row 2 kept. */
  lemma ScaleMvsInputIntrinsics(img: Shape, k: Matrix, maxW: int, maxH: int)
    requires IsMatrix(k, 3, 3) && ScaleMvsInput(img, k, maxW, maxH).Ok?
    ensures var r := ScaleMvsInput(img, k, maxW, maxH).value;
      && r.intrinsics[2] == k[2]
      && (forall j :: 0 <= j < 3 ==> r.intrinsics[0][j] == k[0][j] * (r.shape.w as real / img.w as real))
      && (forall j :: 0 <= j < 3 ==> r.intrinsics[1][j] == k[1][j] * (r.shape.h as real / img.h as real))
  {
    FitIntrinsics(img, k, maxW, maxH, ScaleMvsInput(img, k, maxW, maxH).value);
  }

  /** The resize to the standard shape (lines 228-234): a view whose shape
      differs from (sh, sw) is resized to it, with intrinsic rows 0 and 1
      scaled by sw / c_w and sh / c_h. */
  function ResizeToStandard(v: Scaled, sh: int, sw: int): (r: Result<Scaled, ScaleError>)
    requires v.shape.h > 0 && v.shape.w > 0 && IsMatrix(v.intrinsics, 3, 3)
    ensures v.shape.h == sh && v.shape.w == sw ==> r.Ok? && r.value == v
    ensures r.Ok? ==> r.value.shape.h == sh && r.value.shape.w == sw && IsMatrix(r.value.intrinsics, 3, 3)
    ensures r.Err? <==> (v.shape.h != sh || v.shape.w != sw) && (sh <= 0 || sw <= 0)
    ensures r.Ok? ==> (r.value.intrinsics ==
      ScaleRow(ScaleRow(v.intrinsics, 0, sw as real / v.shape.w as real), 1, sh as real / v.shape.h as real))
  {
    var c := v.shape;
    if c.h != sh || c.w != sw then
      if sh <= 0 || sw <= 0 then Err(EmptyResize)
      else
        var scaleH := sh as real / c.h as real;
        var scaleW := sw as real / c.w as real;
        Ok(Scaled(Shape(sh, sw), ScaleRow(ScaleRow(v.intrinsics, 0, scaleW), 1, scaleH)))
    else
      assert sw as real / c.w as real == 1.0 && sh as real / c.h as real == 1.0;
      ScaleRowByOne(v.intrinsics);
      Ok(v)
  }

  lemma ScaleRowByOne(k: Matrix)
    requires IsMatrix(k, 3, 3)
    ensures ScaleRow(ScaleRow(k, 0, 1.0), 1, 1.0) == k
  {
    var k' := ScaleRow(ScaleRow(k, 0, 1.0), 1, 1.0);
    assert forall i :: 0 <= i < 3 ==> k'[i] == k[i];
  }

  /** Scaling one row by f and then by g scales it by f * g. */
  lemma ScaleRowTwice(m: Matrix, i: nat, f: real, g: real)
    requires i < |m|
    ensures ScaleRow(ScaleRow(m, i, f), i, g) == ScaleRow(m, i, f * g)
  {
    var l, r := ScaleRow(ScaleRow(m, i, f), i, g), ScaleRow(m, i, f * g);
    assert l[i] == r[i] by {
      forall j | 0 <= j < |m[i]|
        ensures l[i][j] == r[i][j]
      {
        assert m[i][j] * f * g == m[i][j] * (f * g);
      }
    }
    assert forall n :: 0 <= n < |m| ==> l[n] == r[n];
  }

  /** Scalings of two different rows commute. */
  lemma ScaleRowsCommute(m: Matrix, i: nat, j: nat, f: real, g: real)
    requires i < |m| && j < |m| && i != j
    ensures ScaleRow(ScaleRow(m, i, f), j, g) == ScaleRow(ScaleRow(m, j, g), i, f)
  {
    var l, r := ScaleRow(ScaleRow(m, i, f), j, g), ScaleRow(ScaleRow(m, j, g), i, f);
    assert forall n :: 0 <= n < |m| ==> l[n] == r[n];
  }

  /** Two successive ratios through b compose to one ratio. */
  lemma RatioProduct(a: real, b: real, c: real)
    requires a > 0.0 && b > 0.0
    ensures (b / a) * (c / b) == c / a
  {
  }

  /** Scaling a row by equal factors gives equal matrices. */
  lemma ScaleRowCongruent(m: Matrix, i: nat, f: real, g: real)
    requires i < |m| && f == g
    ensures ScaleRow(m, i, f) == ScaleRow(m, i, g)
  {
  }

  /** Scaling rows 0 and 1 by b / a and d / c, then by e / b and f / d, is
      scaling them by e / a and f / c. */
  lemma ComposeRowScalings(k: Matrix, a: real, b: real, c: real, d: real, e: real, f: real)
    requires IsMatrix(k, 3, 3) && a > 0.0 && b > 0.0 && c > 0.0 && d > 0.0
    ensures ScaleRow(ScaleRow(ScaleRow(ScaleRow(k, 0, b / a), 1, d / c), 0, e / b), 1, f / d)
         == ScaleRow(ScaleRow(k, 0, e / a), 1, f / c)
  {
    var p, q, r, s := b / a, d / c, e / b, f / d;
    var k0 := ScaleRow(k, 0, p);
    ScaleRowsCommute(k0, 1, 0, q, r);
    ScaleRowTwice(k, 0, p, r);
    RatioProduct(a, b, e);
    ScaleRowCongruent(k, 0, p * r, e / a);
    var k1 := ScaleRow(k, 0, e / a);
    ScaleRowTwice(k1, 1, q, s);
    RatioProduct(c, d, f);
    ScaleRowCongruent(k1, 1, q * s, f / c);
  }

  /** The intrinsics `scale_mvs_input` returns, as row scalings. */
  lemma FitIntrinsics(img: Shape, k: Matrix, maxW: int, maxH: int, fit: Scaled)
    requires IsMatrix(k, 3, 3)
    requires ScaleMvsInput(img, k, maxW, maxH).Ok? && ScaleMvsInput(img, k, maxW, maxH).value == fit
    ensures img.h > 0 && img.w > 0 && fit.shape.h > 0 && fit.shape.w > 0
    ensures fit.intrinsics == ScaleRow(ScaleRow(k, 0, fit.shape.w as real / img.w as real), 1, fit.shape.h as real / img.h as real)
  {
  }

  /** Fitting an image and then resizing it to the standard shape leaves
      intrinsics that match the final shape against the native one: row 0
      scaled by sw / w, row 1 by sh / h, row 2 as given, whichever of the two
      resizes actually happened. */
  lemma NormalisedIntrinsics(img: Shape, k: Matrix, maxW: int, maxH: int, sh: int, sw: int, fit: Scaled, out: Scaled)
    requires IsMatrix(k, 3, 3)
    requires ScaleMvsInput(img, k, maxW, maxH).Ok? && ScaleMvsInput(img, k, maxW, maxH).value == fit
    requires ResizeToStandard(fit, sh, sw).Ok? && ResizeToStandard(fit, sh, sw).value == out
    ensures img.h > 0 && img.w > 0
    ensures out.shape.h == sh && out.shape.w == sw
    ensures out.intrinsics == ScaleRow(ScaleRow(k, 0, sw as real / img.w as real), 1, sh as real / img.h as real)
  {
    FitIntrinsics(img, k, maxW, maxH, fit);
    ComposeRowScalings(k, img.w as real, fit.shape.w as real, img.h as real, fit.shape.h as real, sw as real, sh as real);
  }
}
