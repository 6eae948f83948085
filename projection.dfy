/** Projection matrices and depth hypotheses built in `__getitem__`: the
    2x4x4 matrix of each view (extrinsics in slot 0, intrinsics in the top
    left 3x3 of slot 1), the three stages whose intrinsic rows 0-1 are
    multiplied by 1, 2 and 4, and `np.arange` for the reference view's depth
    values. */
module Projection {
  import opened Common

  /** Slot 0 is the 4x4 extrinsic matrix, slot 1 the embedded intrinsics. */
  type ProjMat = seq<Matrix>

  predicate IsProjMat(p: ProjMat)
  {
    |p| == 2 && IsMatrix(p[0], 4, 4) && IsMatrix(p[1], 4, 4)
  }

  /** `proj_mat = zeros((2, 4, 4)); proj_mat[0, :4, :4] = E; proj_mat[1, :3, :3] = K`. */
  function BuildProjMat(e: Matrix, k: Matrix): (p: ProjMat)
    requires IsMatrix(e, 4, 4) && IsMatrix(k, 3, 3)
    ensures IsProjMat(p)
    ensures p[0] == e
    ensures forall i, j :: 0 <= i < 3 && 0 <= j < 3 ==> p[1][i][j] == k[i][j]
    ensures forall j :: 0 <= j < 4 ==> p[1][3][j] == 0.0 && p[1][j][3] == 0.0
  {
    [e, seq(4, i requires 0 <= i < 4 => seq(4, j requires 0 <= j < 4 =>
          if i < 3 && j < 3 then k[i][j] else 0.0))]
  }

  /** A copy of `p` whose intrinsic rows 0 and 1 are multiplied by `f`
      (`stage_pjmats[:, 1, :2, :] = proj_matrices[:, 1, :2, :] * f`). */
  function StageScale(p: ProjMat, f: real): (q: ProjMat)
    requires IsProjMat(p)
    ensures IsProjMat(q)
  {
    [p[0], ScaleRow(ScaleRow(p[1], 0, f), 1, f)]
  }

  datatype Staged = Staged(stage1: seq<ProjMat>, stage2: seq<ProjMat>, stage3: seq<ProjMat>)

  predicate AllProjMats(ps: seq<ProjMat>)
  {
    forall n :: 0 <= n < |ps| ==> IsProjMat(ps[n])
  }

  function Stage(ps: seq<ProjMat>): Staged
    requires AllProjMats(ps)
  {
    Staged(ps,
           seq(|ps|, n requires 0 <= n < |ps| => StageScale(ps[n], 2.0)),
           seq(|ps|, n requires 0 <= n < |ps| => StageScale(ps[n], 4.0)))
  }

  /** Staging: stage 1 is the stacked matrices; in stage 2 the intrinsic rows
      0-1 are doubled and in stage 3 quadrupled (so stage 3 doubles stage 2);
      the extrinsic slot and intrinsic rows 2-3 are the same in all three. */
  lemma StageSpec(ps: seq<ProjMat>)
    requires AllProjMats(ps)
    ensures var st := Stage(ps);
      && st.stage1 == ps && |st.stage2| == |ps| && |st.stage3| == |ps|
      && forall n :: 0 <= n < |ps| ==>
           && IsProjMat(st.stage2[n]) && IsProjMat(st.stage3[n])
           && st.stage2[n][0] == ps[n][0] && st.stage3[n][0] == ps[n][0]
           && st.stage2[n][1][2..] == ps[n][1][2..] && st.stage3[n][1][2..] == ps[n][1][2..]
           && (forall i, j :: 0 <= i < 2 && 0 <= j < 4 ==>
                 st.stage2[n][1][i][j] == 2.0 * ps[n][1][i][j]
                 && st.stage3[n][1][i][j] == 4.0 * ps[n][1][i][j]
                 && st.stage3[n][1][i][j] == 2.0 * st.stage2[n][1][i][j])
  {
    var st := Stage(ps);
    forall n | 0 <= n < |ps|
      ensures st.stage2[n][1][2..] == ps[n][1][2..] && st.stage3[n][1][2..] == ps[n][1][2..]
    {
      assert st.stage2[n][1][2..] == [ps[n][1][2], ps[n][1][3]];
      assert st.stage3[n][1][2..] == [ps[n][1][2], ps[n][1][3]];
    }
  }

  datatype ArangeError = ZeroStep   // `np.arange` with a step of 0

  /** The k-th value of an arithmetic progression. */
  function Tick(start: real, step: real, k: nat): real
  {
    start + k as real * step
  }

  /** `np.arange(start, stop, step)`: ceil((stop - start) / step) values (none
      if that is negative), the k-th being start + k * step, in exact
      arithmetic. */
  function Arange(start: real, stop: real, step: real): (r: Result<seq<real>, ArangeError>)
    ensures r.Err? <==> step == 0.0
    ensures r.Ok? && step > 0.0 ==> forall k :: 0 <= k < |r.value| ==> start <= r.value[k] < stop
    ensures r.Ok? && step < 0.0 ==> forall k :: 0 <= k < |r.value| ==> stop < r.value[k] <= start
    ensures r.Ok? && step > 0.0 && start < stop ==> start + |r.value| as real * step >= stop
    ensures r.Ok? && step < 0.0 && start > stop ==> start + |r.value| as real * step <= stop
    ensures r.Ok? ==> forall k :: 0 <= k < |r.value| ==> r.value[k] == Tick(start, step, k)
  {
    if step == 0.0 then Err(ZeroStep)
    else
      var q := (stop - start) / step;
      var n := Ceil(q);
      var len: nat := if n > 0 then n else 0;
      ArangeBounds(start, stop, step, len);
      Ok(seq(len, k requires 0 <= k < len => Tick(start, step, k)))
  }

  lemma ArangeBounds(start: real, stop: real, step: real, len: nat)
    requires step != 0.0
    requires len == (if Ceil((stop - start) / step) > 0 then Ceil((stop - start) / step) else 0)
    ensures step > 0.0 ==> forall k: nat :: k < len ==> start <= Tick(start, step, k) < stop
    ensures step < 0.0 ==> forall k: nat :: k < len ==> stop < Tick(start, step, k) <= start
    ensures step > 0.0 && start < stop ==> start + len as real * step >= stop
    ensures step < 0.0 && start > stop ==> start + len as real * step <= stop
  {
    var q := (stop - start) / step;
    assert q * step == stop - start;
    forall k: nat | k < len
      ensures step > 0.0 ==> start <= Tick(start, step, k) < stop
      ensures step < 0.0 ==> stop < Tick(start, step, k) <= start
    {
      assert k as real < q;
      if step > 0.0 {
        assert k as real * step < q * step;
        assert 0.0 <= k as real * step;
      } else {
        assert k as real * step > q * step;
        assert 0.0 >= k as real * step;
        assert Tick(start, step, k) == start + k as real * step;
        assert start + q * step == stop;
      }
    }
    if start != stop && ((step > 0.0 && start < stop) || (step < 0.0 && start > stop)) {
      assert q > 0.0;
      assert len as real >= q;
      if step > 0.0 {
        assert len as real * step >= q * step;
      } else {
        assert len as real * step <= q * step;
      }
    }
  }

  /** The reference view's depth hypotheses (lines 246-251): `ndepths` values
      from depth_min in steps of depth_interval, stopping half a step short of
      depth_min + ndepths * depth_interval; the call fails for a zero interval. */
  function DepthValues(depthMin: real, depthInterval: real, ndepths: int): Result<seq<real>, ArangeError>
  {
    Arange(depthMin, depthInterval * (ndepths as real - 0.5) + depthMin, depthInterval)
  }

  /** In exact arithmetic there are exactly `ndepths` hypotheses (none for a
      negative count), the k-th being depth_min + k * depth_interval. */
  lemma DepthValuesSpec(depthMin: real, depthInterval: real, ndepths: int)
    requires depthInterval != 0.0
    ensures var r := DepthValues(depthMin, depthInterval, ndepths);
      var n := if ndepths > 0 then ndepths else 0;
      && r.Ok? && |r.value| == n
      && forall k :: 0 <= k < n ==> r.value[k] == depthMin + k as real * depthInterval
  {
    var stop := depthInterval * (ndepths as real - 0.5) + depthMin;
    var q := (stop - depthMin) / depthInterval;
    var x := ndepths as real - 0.5;
    assert stop - depthMin == x * depthInterval;
    assert q * depthInterval == x * depthInterval;
    assert (q - x) * depthInterval == 0.0;
    assert q == x;
    assert Ceil(q) == ndepths;
  }
}
