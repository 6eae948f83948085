/** The depth and mask pyramids (`MVSDataset.read_depth_hr` and
    `read_mask_hr`): crop the bottom border, threshold the mask, and derive
    three stages. `cv2.resize`'s nearest-neighbour sampling is not modelled:
    the two downsampled stages are given by their shapes. */
module Pyramid {
  import opened Common

  /** A single-channel 2-D float array: its width and its rows. */
  datatype Grid = Grid(width: nat, rows: seq<seq<real>>)

  predicate WellFormed(g: Grid)
  {
    forall i :: 0 <= i < |g.rows| ==> |g.rows[i]| == g.width
  }

  function ShapeOf(g: Grid): Shape
  {
    Shape(|g.rows|, g.width)
  }

  /** The rows removed from the bottom of every full-resolution array. */
  const Border := 16

  /** `a[:-16, :]`: every row but the last 16 (none when there are fewer). */
  function CropBorder(g: Grid): (c: Grid)
    ensures c.width == g.width
    ensures |c.rows| == if |g.rows| > Border then |g.rows| - Border else 0
    ensures forall i :: 0 <= i < |c.rows| ==> c.rows[i] == g.rows[i]
    ensures WellFormed(g) ==> WellFormed(c)
  {
    Grid(g.width, g.rows[..if |g.rows| > Border then |g.rows| - Border else 0])
  }

  /** `(v > 10).astype(np.float32)`. */
  function Threshold(v: real): (t: real)
    ensures t == 1.0 || t == 0.0
    ensures t == 1.0 <==> v > 10.0
  {
    if v > 10.0 then 1.0 else 0.0
  }

  function ThresholdGrid(g: Grid): (t: Grid)
    ensures t.width == g.width && |t.rows| == |g.rows|
    ensures forall i :: 0 <= i < |g.rows| ==> |t.rows[i]| == |g.rows[i]|
    ensures forall i, j :: 0 <= i < |g.rows| && 0 <= j < |g.rows[i]| ==> t.rows[i][j] == Threshold(g.rows[i][j])
  {
    Grid(g.width, seq(|g.rows|, i requires 0 <= i < |g.rows| =>
      seq(|g.rows[i]|, j requires 0 <= j < |g.rows[i]| => Threshold(g.rows[i][j]))))
  }

  /** The three stages: shapes (h // 4, w // 4) and (h // 2, w // 2) for the
      two resized ones, and the array itself for stage 3. */
  datatype Pyramid = Pyramid(stage1: Shape, stage2: Shape, stage3: Grid)

  datatype PyramidError = EmptyResize   // `cv2.resize` to a size without pixels

  function Stages(c: Grid): Result<Pyramid, PyramidError>
  {
    var h, w := |c.rows|, c.width;
    if w / 4 == 0 || h / 4 == 0 then Err(EmptyResize)
    else Ok(Pyramid(Shape(h / 4, w / 4), Shape(h / 2, w / 2), c))
  }

  /** After cropping 16 rows, stage 1 has shape (h // 4, w // 4), stage 2
      (h // 2, w // 2) and stage 3 is the cropped array; the build fails
      exactly when the cropped array is narrower or shorter than 4. */
  function ReadDepthHr(depth: Grid): (r: Result<Pyramid, PyramidError>)
    ensures var h := if |depth.rows| > Border then |depth.rows| - Border else 0;
      var w := depth.width;
      && (r.Ok? <==> h >= 4 && w >= 4)
      && (r.Ok? ==> r.value.stage1 == Shape(h / 4, w / 4) && r.value.stage2 == Shape(h / 2, w / 2)
                    && r.value.stage3 == CropBorder(depth))
  {
    Stages(CropBorder(depth))
  }

  function ReadMaskHr(mask: Grid): Result<Pyramid, PyramidError>
  {
    Stages(CropBorder(ThresholdGrid(mask)))
  }

  /** Cropping and thresholding commute. */
  lemma {:induction false} CropThresholdCommute(g: Grid)
    ensures CropBorder(ThresholdGrid(g)) == ThresholdGrid(CropBorder(g))
  {
    var a, b := CropBorder(ThresholdGrid(g)), ThresholdGrid(CropBorder(g));
    assert |a.rows| == |b.rows|;
    forall i | 0 <= i < |a.rows|
      ensures a.rows[i] == b.rows[i]
    {
      assert |a.rows[i]| == |b.rows[i]|;
    }
  }

  /** Every value of the mask's stage 3 is 1.0 when the source pixel in the
      same place is above 10 and 0.0 otherwise; the stage shapes are those
      of the depth pyramid. */
  lemma ReadMaskHrSpec(mask: Grid)
    requires WellFormed(mask)
    ensures var r := ReadMaskHr(mask);
      var c := CropBorder(mask);
      var h, w := |c.rows|, c.width;
      && (r.Ok? <==> h >= 4 && w >= 4)
      && (r.Ok? ==>
            && r.value.stage1 == Shape(h / 4, w / 4) && r.value.stage2 == Shape(h / 2, w / 2)
            && ShapeOf(r.value.stage3) == Shape(h, w)
            && WellFormed(r.value.stage3)
            && forall i, j :: 0 <= i < h && 0 <= j < w ==>
                 (r.value.stage3.rows[i][j] == 1.0 <==> mask.rows[i][j] > 10.0)
                 && (r.value.stage3.rows[i][j] == 0.0 <==> mask.rows[i][j] <= 10.0))
  {
    CropThresholdCommute(mask);
  }
}
