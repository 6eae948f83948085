/** The sample assembler (`MVSDataset.__getitem__`) and the dataset object
    that owns the resolution lock. The module-level `s_h, s_w` of the source
    become the fields `sh, sw` of the dataset, next to `fixRes` and `fixWh`.

    Files are inputs: for every (scan, view) the shape of its image, the
    tokenised lines of its camera file, and its depth map and mask; a missing
    entry is the file that is not there. */
module Dataset {
  import opened Common
  import opened PairList
  import opened CameraFile
  import opened Resolution
  import opened Pyramid
  import opened Projection

  datatype Key = Key(scan: string, view: int)

  datatype Files = Files(
    images: map<Key, Shape>,
    cams: map<Key, CamLines>,
    depths: map<Key, Grid>,
    masks: map<Key, Grid>)

  /** The constructor's settings that `__getitem__` reads. */
  datatype Config = Config(nviews: int, ndepths: int, maxH: int, maxW: int)

  /** The resolution lock: `fix_res`, `fix_wh` and the standard `(s_h, s_w)`. */
  datatype Lock = Lock(fixRes: bool, fixWh: bool, sh: int, sw: int)

  datatype SampleError =
    | IndexOutOfRange
    | MissingImage(key: Key)
    | MissingScale(scene: string)
    | MissingCamera(key: Key)
    | BadCamera(key: Key, cam: CamError)
    | BadResize(key: Key, resize: ScaleError)
    | MissingDepth(key: Key)
    | MissingMask(key: Key)
    | BadPyramid(key: Key, pyramid: PyramidError)
    | BadDepthValues(arange: ArangeError)

  /** What only the reference view contributes. */
  datatype RefOut = RefOut(depth: Pyramid, mask: Pyramid, depthValues: seq<real>)

  /** One processed view: its final image shape, its projection matrix, and
      the reference data when it is view 0. */
  datatype ViewOut = ViewOut(shape: Shape, proj: ProjMat, ref: Option<RefOut>)

  datatype Sample = Sample(
    viewIds: seq<int>,
    shapes: seq<Shape>,
    proj: Staged,
    depthValues: seq<real>,
    depth: Pyramid,
    mask: Pyramid)

  /** Python's `s[:e]`: a negative end counts from the back. */
  function SliceTo(s: seq<int>, e: int): (r: seq<int>)
    ensures |r| <= |s| && r == s[..|r|]
    ensures 0 <= e ==> |r| == if e < |s| then e else |s|
  {
    var end := if e >= 0 then (if e < |s| then e else |s|)
               else (if |s| + e > 0 then |s| + e else 0);
    s[..end]
  }

  /** `[ref_view] + src_views[:nviews - 1]`. */
  function ViewIds(meta: Meta, nviews: int): seq<int>
  {
    [meta.refView] + SliceTo(meta.srcViews, nviews - 1)
  }

  /** At most `nviews` views (for nviews >= 1), the reference first, then the
      source views in their listed order; exactly `nviews` when the entry
      lists at least nviews - 1 sources, as every indexed entry does. */
  lemma ViewIdsSpec(meta: Meta, nviews: int)
    requires nviews >= 1
    ensures var v := ViewIds(meta, nviews);
      && 1 <= |v| <= nviews
      && v[0] == meta.refView
      && v[1..] == meta.srcViews[..|v| - 1]
      && (|meta.srcViews| >= nviews - 1 ==> |v| == nviews)
  {
    var v := ViewIds(meta, nviews);
    assert v[1..] == SliceTo(meta.srcViews, nviews - 1);
  }

  /** The lock step of lines 216-225. */
  function LockStep(st: Lock, i: nat, c: Shape): (st': Lock)
    ensures !st'.fixRes
    ensures st.fixRes ==> st' == Lock(false, true, c.h, c.w)
    ensures i == 0 ==> !st'.fixRes && st'.fixWh == (st.fixWh || st.fixRes)
    ensures i == 0 ==> (st'.sh, st'.sw) == (if st.fixRes || !st.fixWh then (c.h, c.w) else (st.sh, st.sw))
    ensures !st.fixRes ==> st'.fixWh == st.fixWh
    ensures i != 0 && !st.fixRes ==> st' == st
  {
    var st1 := if st.fixRes then Lock(false, true, c.h, c.w) else st;
    if i == 0 && !st1.fixWh then st1.(sh := c.h, sw := c.w) else st1
  }

  /** The steps of one view before the lock (lines 207-214): the image, the
      scene's interval scale, the camera file and `scale_mvs_input`. */
  function FitView(cfg: Config, key: Key, scene: string, scales: map<string, real>, files: Files)
    : (r: Result<(Camera, Scaled), SampleError>)
    ensures r.Ok? ==> IsMatrix(r.value.0.extrinsics, 4, 4) && IsMatrix(r.value.1.intrinsics, 3, 3)
    ensures r.Ok? ==> r.value.1.shape.h > 0 && r.value.1.shape.w > 0
  {
    if key !in files.images then Err(MissingImage(key))
    else if scene !in scales then Err(MissingScale(scene))
    else if key !in files.cams then Err(MissingCamera(key))
    else
      var cam := ReadCamFile(files.cams[key], scales[scene], cfg.ndepths);
      if cam.Err? then Err(BadCamera(key, cam.error))
      else
        var fit := ScaleMvsInput(files.images[key], cam.value.intrinsics, cfg.maxW, cfg.maxH);
        if fit.Err? then Err(BadResize(key, fit.error))
        else Ok((cam.value, fit.value))
  }

  /** The reference view's extra reads (lines 243-251). */
  function RefData(cfg: Config, key: Key, cam: Camera, files: Files): Result<RefOut, SampleError>
  {
    if key !in files.depths then Err(MissingDepth(key))
    else
      var depth := ReadDepthHr(files.depths[key]);
      if depth.Err? then Err(BadPyramid(key, depth.error))
      else if key !in files.masks then Err(MissingMask(key))
      else
        var mask := ReadMaskHr(files.masks[key]);
        if mask.Err? then Err(BadPyramid(key, mask.error))
        else
          var values := DepthValues(cam.depthMin, cam.depthInterval, cfg.ndepths);
          if values.Err? then Err(BadDepthValues(values.error))
          else Ok(RefOut(depth.value, mask.value, values.value))
  }

  /** One pass of the loop body of `__getitem__` for view `i`: the new lock
      state (which survives an error raised later in the view) and the view's
      output. */
  function ProcessView(cfg: Config, st: Lock, i: nat, key: Key, scene: string, scales: map<string, real>, files: Files)
    : (res: (Lock, Result<ViewOut, SampleError>))
    ensures res.1.Ok? ==> IsProjMat(res.1.value.proj)
    ensures res.1.Ok? ==> res.1.value.shape.h == res.0.sh && res.1.value.shape.w == res.0.sw
    ensures res.1.Ok? ==> (res.1.value.ref.Some? <==> i == 0)
  {
    match FitView(cfg, key, scene, scales, files)
    case Err(e) => (st, Err(e))
    case Ok((cam, fit)) =>
      var st' := LockStep(st, i, fit.shape);
      var std := ResizeToStandard(fit, st'.sh, st'.sw);
      if std.Err? then (st', Err(BadResize(key, std.error)))
      else
        var proj := BuildProjMat(cam.extrinsics, std.value.intrinsics);
        if i != 0 then (st', Ok(ViewOut(std.value.shape, proj, None)))
        else
          var ref := RefData(cfg, key, cam, files);
          if ref.Err? then (st', Err(ref.error))
          else (st', Ok(ViewOut(std.value.shape, proj, Some(ref.value))))
  }

  /** The lock state one pass leaves: unchanged when the view fails before
      the lock step, the lock step applied to the fitted shape otherwise. */
  lemma ProcessViewState(cfg: Config, st: Lock, i: nat, key: Key, scene: string, scales: map<string, real>, files: Files)
    ensures var f := FitView(cfg, key, scene, scales, files);
      ProcessView(cfg, st, i, key, scene, scales, files).0 == if f.Err? then st else LockStep(st, i, f.value.1.shape)
  {
  }

  /** The first `n` passes of the view loop. */
  function Run(cfg: Config, st0: Lock, meta: Meta, ids: seq<int>, scales: map<string, real>, files: Files, n: nat)
    : (Lock, Result<seq<ViewOut>, SampleError>)
    requires n <= |ids|
  {
    if n == 0 then (st0, Ok([]))
    else
      var prev := Run(cfg, st0, meta, ids, scales, files, n - 1);
      if prev.1.Err? then prev
      else
        var step := ProcessView(cfg, prev.0, n - 1, Key(meta.scan, ids[n - 1]), meta.sceneKey, scales, files);
        if step.1.Err? then (step.0, Err(step.1.error))
        else (step.0, Ok(prev.1.value + [step.1.value]))
  }

  lemma {:induction false} RunErrorStops(cfg: Config, st0: Lock, meta: Meta, ids: seq<int>, scales: map<string, real>, files: Files, n: nat, m: nat)
    requires n <= m <= |ids| && Run(cfg, st0, meta, ids, scales, files, n).1.Err?
    ensures Run(cfg, st0, meta, ids, scales, files, m) == Run(cfg, st0, meta, ids, scales, files, n)
    decreases m - n
  {
    if n < m {
      RunErrorStops(cfg, st0, meta, ids, scales, files, n + 1, m);
    }
  }

  /** Passes that succeed yield one output per view; every output has the
      lock's final standard shape and a valid projection matrix, and only
      view 0 carries the reference data. */
  lemma {:induction false} RunOutputs(cfg: Config, st0: Lock, meta: Meta, ids: seq<int>, scales: map<string, real>, files: Files, n: nat)
    requires n <= |ids| && Run(cfg, st0, meta, ids, scales, files, n).1.Ok?
    ensures var (st, outs) := Run(cfg, st0, meta, ids, scales, files, n);
      && |outs.value| == n
      && (n > 0 ==> !st.fixRes)
      && forall k :: 0 <= k < n ==>
           && outs.value[k].shape.h == st.sh && outs.value[k].shape.w == st.sw
           && IsProjMat(outs.value[k].proj)
           && (outs.value[k].ref.Some? <==> k == 0)
  {
    if n > 0 {
      RunOutputs(cfg, st0, meta, ids, scales, files, n - 1);
      var prev := Run(cfg, st0, meta, ids, scales, files, n - 1);
      if n > 1 {
        ProcessViewState(cfg, prev.0, n - 1, Key(meta.scan, ids[n - 1]), meta.sceneKey, scales, files);
      }
    }
  }

  /** The lock after the view loop: view 0's fitted shape sets (sh, sw)
      unless `fixWh` was already latched and `fixRes` not armed; `fixRes`
      fires on view 0 at most and latches `fixWh`; the later views change
      nothing. If view 0 fails before the lock step, nothing changes. */
  lemma {:induction false} RunLock(cfg: Config, st0: Lock, meta: Meta, ids: seq<int>, scales: map<string, real>, files: Files, n: nat)
    requires 1 <= n <= |ids|
    ensures var f0 := FitView(cfg, Key(meta.scan, ids[0]), meta.sceneKey, scales, files);
      var st := Run(cfg, st0, meta, ids, scales, files, n).0;
      && (f0.Err? ==> st == st0)
      && (f0.Ok? ==> st == LockStep(st0, 0, f0.value.1.shape))
  {
    if n > 1 {
      RunLock(cfg, st0, meta, ids, scales, files, n - 1);
      var prev := Run(cfg, st0, meta, ids, scales, files, n - 1);
      if prev.1.Ok? {
        RunOutputs(cfg, st0, meta, ids, scales, files, n - 1);
        ProcessViewState(cfg, prev.0, n - 1, Key(meta.scan, ids[n - 1]), meta.sceneKey, scales, files);
      }
    } else {
      ProcessViewState(cfg, st0, 0, Key(meta.scan, ids[0]), meta.sceneKey, scales, files);
    }
  }

  /** A view that goes through reads its camera file, fits its image, and
      resizes it to the lock's standard shape; its projection matrix is built
      from the camera's extrinsics and the resized intrinsics. */
  lemma ProcessViewSteps(cfg: Config, st: Lock, i: nat, key: Key, scene: string, scales: map<string, real>, files: Files)
    requires ProcessView(cfg, st, i, key, scene, scales, files).1.Ok?
    ensures key in files.cams && key in files.images && scene in scales
    ensures var res := ProcessView(cfg, st, i, key, scene, scales, files);
      var cam := ReadCamFile(files.cams[key], scales[scene], cfg.ndepths);
      && cam.Ok?
      && var fit := ScaleMvsInput(files.images[key], cam.value.intrinsics, cfg.maxW, cfg.maxH);
      && fit.Ok?
      && var std := ResizeToStandard(fit.value, res.0.sh, res.0.sw);
      && std.Ok?
      && res.1.value.proj == BuildProjMat(cam.value.extrinsics, std.value.intrinsics)
  {
  }

  /** A processed view's projection matrix holds its camera's extrinsics
      and its camera's intrinsics (rows 0-1 already divided by 4) with row 0
      scaled by s_w / w and row 1 by s_h / h against the native image shape,
      whichever of the two resizes happened. */
  lemma ProcessViewIntrinsics(cfg: Config, st: Lock, i: nat, key: Key, scene: string, scales: map<string, real>, files: Files)
    requires ProcessView(cfg, st, i, key, scene, scales, files).1.Ok?
    ensures key in files.cams && key in files.images && scene in scales
    ensures files.images[key].h > 0 && files.images[key].w > 0
    ensures var res := ProcessView(cfg, st, i, key, scene, scales, files);
      var cam := ReadCamFile(files.cams[key], scales[scene], cfg.ndepths);
      var img := files.images[key];
      && cam.Ok?
      && res.1.value.proj == BuildProjMat(cam.value.extrinsics,
           ScaleRow(ScaleRow(cam.value.intrinsics, 0, res.0.sw as real / img.w as real), 1, res.0.sh as real / img.h as real))
  {
    var res := ProcessView(cfg, st, i, key, scene, scales, files);
    ProcessViewSteps(cfg, st, i, key, scene, scales, files);
    var cam := ReadCamFile(files.cams[key], scales[scene], cfg.ndepths).value;
    var img := files.images[key];
    var fit := ScaleMvsInput(img, cam.intrinsics, cfg.maxW, cfg.maxH).value;
    var std := ResizeToStandard(fit, res.0.sh, res.0.sw).value;
    NormalisedIntrinsics(img, cam.intrinsics, cfg.maxW, cfg.maxH, res.0.sh, res.0.sw, fit, std);
  }

  /** The sample built from the loop's outputs (lines 254-275). */
  function SampleOf(ids: seq<int>, outs: seq<ViewOut>): Sample
    requires |outs| >= 1 && outs[0].ref.Some?
    requires forall k :: 0 <= k < |outs| ==> IsProjMat(outs[k].proj)
  {
    var projs := seq(|outs|, k requires 0 <= k < |outs| => outs[k].proj);
    var ref := outs[0].ref.value;
    Sample(ids, seq(|outs|, k requires 0 <= k < |outs| => outs[k].shape), Stage(projs),
           ref.depthValues, ref.depth, ref.mask)
  }

  /** `__getitem__(idx)` from lock state `st0`: the lock state afterwards and
      the sample or the error raised. */
  function Assemble(cfg: Config, st0: Lock, metas: seq<Meta>, scales: map<string, real>, idx: int, files: Files)
    : (Lock, Result<Sample, SampleError>)
  {
    if idx < -|metas| || idx >= |metas| then (st0, Err(IndexOutOfRange))
    else
      var meta := metas[if idx < 0 then idx + |metas| else idx];
      var ids := ViewIds(meta, cfg.nviews);
      var run := Run(cfg, st0, meta, ids, scales, files, |ids|);
      if run.1.Err? then (run.0, Err(run.1.error))
      else
        RunOutputs(cfg, st0, meta, ids, scales, files, |ids|);
        (run.0, Ok(SampleOf(ids, run.1.value)))
  }

  /** `Assemble` from the run of the selected views, when the run succeeds. */
  lemma AssembleFromRun(cfg: Config, st0: Lock, metas: seq<Meta>, scales: map<string, real>, idx: int, files: Files,
                        st: Lock, outs: seq<ViewOut>)
    requires -|metas| <= idx < |metas|
    requires var ids := ViewIds(metas[if idx < 0 then idx + |metas| else idx], cfg.nviews);
      Run(cfg, st0, metas[if idx < 0 then idx + |metas| else idx], ids, scales, files, |ids|) == (st, Ok(outs))
    ensures |outs| >= 1 && outs[0].ref.Some? && forall k :: 0 <= k < |outs| ==> IsProjMat(outs[k].proj)
    ensures var ids := ViewIds(metas[if idx < 0 then idx + |metas| else idx], cfg.nviews);
      Assemble(cfg, st0, metas, scales, idx, files) == (st, Ok(SampleOf(ids, outs)))
  {
    var meta := metas[if idx < 0 then idx + |metas| else idx];
    RunOutputs(cfg, st0, meta, ViewIds(meta, cfg.nviews), scales, files, |ViewIds(meta, cfg.nviews)|);
  }

  /** `Assemble` from the run of the selected views, when the run fails. */
  lemma AssembleFromFailedRun(cfg: Config, st0: Lock, metas: seq<Meta>, scales: map<string, real>, idx: int, files: Files,
                              st: Lock, e: SampleError)
    requires -|metas| <= idx < |metas|
    requires var ids := ViewIds(metas[if idx < 0 then idx + |metas| else idx], cfg.nviews);
      Run(cfg, st0, metas[if idx < 0 then idx + |metas| else idx], ids, scales, files, |ids|) == (st, Err(e))
    ensures Assemble(cfg, st0, metas, scales, idx, files) == (st, Err(e))
  {
  }

  /** View 0's reference data is the depth and mask pyramids of its files and
      the depth values of its camera. */
  lemma ProcessViewRef(cfg: Config, st: Lock, key: Key, scene: string, scales: map<string, real>, files: Files)
    requires ProcessView(cfg, st, 0, key, scene, scales, files).1.Ok?
    ensures key in files.cams && scene in scales && key in files.depths && key in files.masks
    ensures var ref := ProcessView(cfg, st, 0, key, scene, scales, files).1.value.ref.value;
      var cam := ReadCamFile(files.cams[key], scales[scene], cfg.ndepths);
      && cam.Ok? && cam.value.depthInterval != 0.0
      && ReadDepthHr(files.depths[key]) == Ok(ref.depth)
      && ReadMaskHr(files.masks[key]) == Ok(ref.mask)
      && DepthValues(cam.value.depthMin, cam.value.depthInterval, cfg.ndepths) == Ok(ref.depthValues)
  {
  }

  /** One more view: the run's next state and output are those of
      `ProcessView` from the state the shorter run left. */
  lemma RunNext(cfg: Config, st0: Lock, meta: Meta, ids: seq<int>, scales: map<string, real>, files: Files, n: nat,
                outs: seq<ViewOut>, st: Lock)
    requires n < |ids| && Run(cfg, st0, meta, ids, scales, files, n) == (st, Ok(outs))
    ensures var step := ProcessView(cfg, st, n, Key(meta.scan, ids[n]), meta.sceneKey, scales, files);
      Run(cfg, st0, meta, ids, scales, files, n + 1)
        == if step.1.Err? then (step.0, Err(step.1.error)) else (step.0, Ok(outs + [step.1.value]))
  {
  }

  /** The first output of a run is view 0's output from the initial lock. */
  lemma {:induction false} RunFirst(cfg: Config, st0: Lock, meta: Meta, ids: seq<int>, scales: map<string, real>, files: Files, n: nat)
    requires 1 <= n <= |ids| && Run(cfg, st0, meta, ids, scales, files, n).1.Ok?
    ensures var v := ProcessView(cfg, st0, 0, Key(meta.scan, ids[0]), meta.sceneKey, scales, files);
      var outs := Run(cfg, st0, meta, ids, scales, files, n).1.value;
      v.1.Ok? && |outs| >= 1 && outs[0] == v.1.value
  {
    if n > 1 {
      RunFirst(cfg, st0, meta, ids, scales, files, n - 1);
    }
  }

  /** A sample holds the reference view and at most nviews - 1 source views;
      every image has the lock's standard shape; the projection matrices are
      staged. */
  lemma AssembleViews(cfg: Config, st0: Lock, metas: seq<Meta>, scales: map<string, real>, idx: int, files: Files)
    requires Assemble(cfg, st0, metas, scales, idx, files).1.Ok?
    ensures -|metas| <= idx < |metas|
    ensures var (st, r) := Assemble(cfg, st0, metas, scales, idx, files);
      var s := r.value;
      var meta := metas[if idx < 0 then idx + |metas| else idx];
      && s.viewIds == ViewIds(meta, cfg.nviews)
      && |s.shapes| == |s.viewIds| == |s.proj.stage1|
      && (forall k :: 0 <= k < |s.shapes| ==> s.shapes[k].h == st.sh && s.shapes[k].w == st.sw)
      && AllProjMats(s.proj.stage1) && s.proj == Stage(s.proj.stage1)
  {
    var meta := metas[if idx < 0 then idx + |metas| else idx];
    var ids := ViewIds(meta, cfg.nviews);
    RunOutputs(cfg, st0, meta, ids, scales, files, |ids|);
  }

  /** The depth hypotheses of a sample are `ndepths` steps of the reference
      camera's interval from its minimum depth, and its pyramids are those of
      the reference view's depth map and mask. */
  lemma AssembleReference(cfg: Config, st0: Lock, metas: seq<Meta>, scales: map<string, real>, idx: int, files: Files)
    requires Assemble(cfg, st0, metas, scales, idx, files).1.Ok?
    ensures -|metas| <= idx < |metas|
    ensures var meta := metas[if idx < 0 then idx + |metas| else idx];
      var refKey := Key(meta.scan, meta.refView);
      && refKey in files.cams && meta.sceneKey in scales && refKey in files.depths && refKey in files.masks
      && ReadCamFile(files.cams[refKey], scales[meta.sceneKey], cfg.ndepths).Ok?
    ensures var s := Assemble(cfg, st0, metas, scales, idx, files).1.value;
      var meta := metas[if idx < 0 then idx + |metas| else idx];
      var refKey := Key(meta.scan, meta.refView);
      var cam := ReadCamFile(files.cams[refKey], scales[meta.sceneKey], cfg.ndepths).value;
      && |s.depthValues| == (if cfg.ndepths > 0 then cfg.ndepths else 0)
      && (forall k :: 0 <= k < |s.depthValues| ==> s.depthValues[k] == cam.depthMin + k as real * cam.depthInterval)
      && ReadDepthHr(files.depths[refKey]) == Ok(s.depth)
      && ReadMaskHr(files.masks[refKey]) == Ok(s.mask)
  {
    var meta := metas[if idx < 0 then idx + |metas| else idx];
    var ids := ViewIds(meta, cfg.nviews);
    assert ids[0] == meta.refView;
    RunFirst(cfg, st0, meta, ids, scales, files, |ids|);
    var key := Key(meta.scan, ids[0]);
    ProcessViewRef(cfg, st0, key, meta.sceneKey, scales, files);
    var cam := ReadCamFile(files.cams[key], scales[meta.sceneKey], cfg.ndepths).value;
    DepthValuesSpec(cam.depthMin, cam.depthInterval, cfg.ndepths);
  }

  /** How one `__getitem__` call moves the lock: `fixRes` is never re-armed
      and `fixWh` never cleared; once `fixWh` is latched (and `fixRes` spent)
      the standard shape never changes, so every later sample of the scene has
      that shape; a call that succeeds spends `fixRes` and latches `fixWh` if
      `fixRes` was armed. */
  lemma AssembleLock(cfg: Config, st0: Lock, metas: seq<Meta>, scales: map<string, real>, idx: int, files: Files)
    ensures var (st, r) := Assemble(cfg, st0, metas, scales, idx, files);
      && (st.fixRes ==> st0.fixRes)
      && (st0.fixWh ==> st.fixWh)
      && (st0.fixWh && !st0.fixRes ==> st == st0)
      && (r.Ok? ==> !st.fixRes && st.fixWh == (st0.fixWh || st0.fixRes))
      && (r.Ok? && st0.fixWh && !st0.fixRes ==>
            forall k :: 0 <= k < |r.value.shapes| ==> r.value.shapes[k] == Shape(st0.sh, st0.sw))
  {
    if -|metas| <= idx < |metas| {
      var meta := metas[if idx < 0 then idx + |metas| else idx];
      var ids := ViewIds(meta, cfg.nviews);
      RunLock(cfg, st0, meta, ids, scales, files, |ids|);
      var run := Run(cfg, st0, meta, ids, scales, files, |ids|);
      if run.1.Ok? {
        RunOutputs(cfg, st0, meta, ids, scales, files, |ids|);
      }
    }
  }

  /** Entries produced by indexing always give a full group of `nviews`
      views (for nviews >= 1) whose scene has an interval scale. */
  lemma IndexedEntriesAreFull(scans: seq<string>, files: map<string, PairLines>, spec: IntervalScale, nviews: int)
    requires nviews >= 1 && Build(scans, files, spec, nviews, |scans|).Ok?
    ensures var ix := Build(scans, files, spec, nviews, |scans|).value;
      forall m :: m in ix.metas ==> |ViewIds(m, nviews)| == nviews && m.sceneKey in ix.scales
  {
    BuildSpec(scans, files, spec, nviews, |scans|);
    var ix := Build(scans, files, spec, nviews, |scans|).value;
    forall m | m in ix.metas
      ensures |ViewIds(m, nviews)| == nviews
    {
      ViewIdsSpec(m, nviews);
    }
  }

  datatype OpenError = NotTestMode | IndexFailed(build: BuildError)

  /** The dataset: `MVSDataset` after `__init__`. */
  class MVSDataset {
    const cfg: Config
    const metas: seq<Meta>
    const intervalScale: map<string, real>
    var fixRes: bool
    var fixWh: bool
    var sh: int
    var sw: int

    function LockState(): Lock
      reads this
    {
      Lock(fixRes, fixWh, sh, sw)
    }

    constructor (cfg: Config, metas: seq<Meta>, intervalScale: map<string, real>, fixRes: bool)
      ensures this.cfg == cfg && this.metas == metas && this.intervalScale == intervalScale
      ensures LockState() == Lock(fixRes, false, 0, 0)
    {
      this.cfg := cfg;
      this.metas := metas;
      this.intervalScale := intervalScale;
      this.fixRes := fixRes;
      this.fixWh := false;
      this.sh, this.sw := 0, 0;
    }

    /** One pass of the view loop: fit the view, apply the lock of lines
        216-225 to the fields, resize to the standard shape, build the
        projection matrix and, for view 0, read the reference data. */
    method ViewStep(i: nat, key: Key, scene: string, files: Files) returns (r: Result<ViewOut, SampleError>)
      modifies this`fixRes, this`fixWh, this`sh, this`sw
      ensures (LockState(), r) == ProcessView(cfg, old(LockState()), i, key, scene, intervalScale, files)
    {
      var fitted := FitView(cfg, key, scene, intervalScale, files);
      if fitted.Err? {
        return Err(fitted.error);
      }
      var (cam, fit) := fitted.value;
      if fixRes {
        // the same standard shape for the rest of the scene
        sh, sw := fit.shape.h, fit.shape.w;
        fixRes := false;
        fixWh := true;
      }
      if i == 0 && !fixWh {
        // the same standard shape within this sample
        sh, sw := fit.shape.h, fit.shape.w;
      }
      var std := ResizeToStandard(fit, sh, sw);
      if std.Err? {
        return Err(BadResize(key, std.error));
      }
      var proj := BuildProjMat(cam.extrinsics, std.value.intrinsics);
      if i != 0 {
        return Ok(ViewOut(std.value.shape, proj, None));
      }
      var ref := RefData(cfg, key, cam, files);
      if ref.Err? {
        return Err(ref.error);
      }
      return Ok(ViewOut(std.value.shape, proj, Some(ref.value)));
    }

    /** `__getitem__(idx)`. */
    method GetItem(idx: int, files: Files) returns (r: Result<Sample, SampleError>)
      modifies this`fixRes, this`fixWh, this`sh, this`sw
      ensures (LockState(), r) == Assemble(cfg, old(LockState()), metas, intervalScale, idx, files)
    {
      if idx < -|metas| || idx >= |metas| {
        return Err(IndexOutOfRange);
      }
      var meta := metas[if idx < 0 then idx + |metas| else idx];
      var ids := ViewIds(meta, cfg.nviews);
      ghost var st0 := LockState();
      var outs: seq<ViewOut> := [];
      var i := 0;
      while i < |ids|
        invariant 0 <= i <= |ids|
        invariant Run(cfg, st0, meta, ids, intervalScale, files, i) == (LockState(), Ok(outs))
      {
        RunNext(cfg, st0, meta, ids, intervalScale, files, i, outs, LockState());
        var v := ViewStep(i, Key(meta.scan, ids[i]), meta.sceneKey, files);
        if v.Err? {
          RunErrorStops(cfg, st0, meta, ids, intervalScale, files, i + 1, |ids|);
          AssembleFromFailedRun(cfg, st0, metas, intervalScale, idx, files, LockState(), v.error);
          return Err(v.error);
        }
        outs := outs + [v.value];
        i := i + 1;
      }
      AssembleFromRun(cfg, st0, metas, intervalScale, idx, files, LockState(), outs);
      return Ok(SampleOf(ids, outs));
    }
  }

  /** `MVSDataset(datapath, listfile, mode, nviews, ndepths, interval_scale,
      max_h=..., max_w=..., fix_res=...)`: only the test mode is accepted, then
      the pair files are indexed. */
  method Open(mode: string, scans: seq<string>, pairFiles: map<string, PairLines>, cfg: Config,
              scale: IntervalScale, fixRes: bool)
    returns (r: Result<MVSDataset, OpenError>)
    ensures mode != "test" ==> r.Err? && r.error == NotTestMode
    ensures mode == "test" ==> (r.Ok? <==> Build(scans, pairFiles, scale, cfg.nviews, |scans|).Ok?)
    ensures r.Ok? ==>
      var ix := Build(scans, pairFiles, scale, cfg.nviews, |scans|).value;
      && fresh(r.value) && r.value.cfg == cfg
      && r.value.metas == ix.metas && r.value.intervalScale == ix.scales
      && r.value.LockState() == Lock(fixRes, false, 0, 0)
  {
    if mode != "test" {
      return Err(NotTestMode);
    }
    var index := BuildList(scans, pairFiles, scale, cfg.nviews);
    if index.Err? {
      return Err(IndexFailed(index.error));
    }
    var ds := new MVSDataset(cfg, index.value.metas, index.value.scales, fixRes);
    return Ok(ds);
  }
}
