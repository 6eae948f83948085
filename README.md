# Multi-view-stereo evaluation inputs, modelled in Dafny

This project models the evaluation dataset `MVSDataset` of `fuse/general_eval.py`.
The dataset indexes the scenes' pair files into evaluation entries. For one
entry it then builds a sample: the reference view and its source views, each
image forced to one standard resolution, a 2x4x4 projection matrix per view
staged three times, the depth and mask pyramids of the reference view, and
its depth hypotheses.

The model keeps the source's structure, one module per part:

- `PairList` (`pair_list.dfy`) is the pair-list indexer `build_list`. A pair
  file is given as its lines, already split into integer tokens. A line past
  the end of the file is empty, as `readline` returns it. `BuildList` and
  `ReadPairFile` are the loops of the source. They are proved equal to the
  specification function `Build`, and lemmas state what `Build` produces.
- `CameraFile` (`camera.dfy`) is `read_cam_file`. A camera file is given as
  its lines of real tokens.
- `Resolution` (`resolution.dfy`) is `scale_mvs_input` and the resize to the
  standard shape done in `__getitem__`. An image is modelled by its shape.
- `Pyramid` (`pyramid.dfy`) is the shape and threshold logic of
  `read_depth_hr` and `read_mask_hr`.
- `Projection` (`projection.dfy`) builds the projection matrices, stages
  them, and computes the depth hypotheses (`np.arange`).
- `Dataset` (`dataset.dfy`) is the dataset object and `__getitem__`. The
  class `MVSDataset` holds the entries, the interval scales and the
  resolution lock. The lock is `fixRes`, `fixWh` and the standard shape
  `sh, sw`; these two fields stand for the module-level `s_h, s_w`.
  `GetItem` loops over the views and updates the lock in place. It is proved
  equal to the specification function `Assemble`, and lemmas about
  `Assemble` state what a sample holds and how the lock moves.

Every error the source raises on these paths is an `Err` value. Such errors
include a missing file, a malformed line, a `reshape` of the wrong size, a
division by zero, a `cv2.resize` to an empty size, an `np.arange` with a zero
step, and an index out of range.

Two details of the code that the model keeps exactly:

- A short source list is padded to `nviews` ids (`fuse/general_eval.py:60-64`),
  one more than `__getitem__` uses: it keeps the reference view and the first
  `nviews - 1` source views (`fuse/general_eval.py:180`).
- The ids are `tokens[1::2]`, i.e. positions 1, 3, 5, ... of the source line:
  the leading count and the scores are dropped (`fuse/general_eval.py:57`).

The sample count on camera line 11 goes through `int(float(...))`, which
truncates toward zero. The model uses truncation (`Common.Trunc`). For the
non-negative counts of real camera files this equals the floor.

## Model

| member | source | states |
|---|---|---|
| Common.ScaleRow | fuse/general_eval.py:168-169 | row `i` is multiplied entrywise by the factor; every other row is unchanged |
| Common.Reshape | fuse/general_eval.py:85-91 | a flat list of rows*cols numbers becomes a rows x cols matrix |
| Common.ReshapeAt | fuse/general_eval.py:85-91 | entry (i, j) of the reshaped matrix is token i*cols + j (row-major order) |
| Common.Trunc | fuse/general_eval.py:99 | `int(x)` is the integer between 0 and x that is less than 1 away from x |
| Common.Ceil | fuse/general_eval.py:246-251 | the smallest integer at or above x, which gives the length of `np.arange` |
| PairList.OddTokens | fuse/general_eval.py:57 | `split()[1::2]`, the tokens at odd positions; OddTokensAt states its length and elements |
| PairList.LineAt | fuse/general_eval.py:53-57 | reading past the end of the pair file gives an empty line |
| PairList.OddTokensAt | fuse/general_eval.py:57 | `tokens[1::2]` has len/2 elements; element k is token 2k+1, so the count and the scores are dropped |
| PairList.Repeat | fuse/general_eval.py:64 | `[x] * n` has n elements, all equal to x |
| PairList.PadWithFirst | fuse/general_eval.py:59-64 | a non-empty list shorter than nviews gets length exactly nviews, its own elements first, then copies of its first element; other lists are unchanged |
| PairList.ViewpointEntry | fuse/general_eval.py:55-65 | one viewpoint: its reference line must be one integer; it yields one entry (scan, ref_view, padded sources, scan) when its source line lists an id, and none otherwise; EntryShape states the entry |
| PairList.ViewpointEntries | fuse/general_eval.py:55-65 | the loop over the first v viewpoints, stopping at the first malformed reference line; ViewpointEntriesOk, ViewpointEntriesInOrder and ViewpointErrorStops state it |
| PairList.ScanEntries | fuse/general_eval.py:52-65 | one pair file: the viewpoint count on line 0 must be one integer, then every viewpoint is read; ReadPairFile and ScanEntriesShape state it |
| PairList.ScaleOf | fuse/general_eval.py:44-48 | the interval scale of a scan: the one number for every scene, or the scan's entry of the per-scene table, a missing entry being an error; BuildSpec states it |
| PairList.Build | fuse/general_eval.py:37-75 | the index of the first k scans: scale lookup, then pair file, then its entries, appended scan by scan; BuildSpec, BuildPrefix, BuildInOrder and BuildErrorStops state it, and BuildList is proved equal to it |
| PairList.WithSourcesSorted | fuse/general_eval.py:55-65 | the viewpoints that yield entries are listed in increasing file order |
| PairList.WithSourcesMembers | fuse/general_eval.py:59-65 | a viewpoint yields an entry if and only if its source line lists at least one id |
| PairList.ViewpointEntriesOk | fuse/general_eval.py:53-57 | reading the viewpoints succeeds if and only if every reference line is a single integer |
| PairList.ViewpointEntriesInOrder | fuse/general_eval.py:55-65 | one entry per viewpoint with sources, in file order, each (scan, ref_view, padded sources, scan) |
| PairList.EntryShape | fuse/general_eval.py:59-65 | an entry names its scan twice, has the reference id from its line, at least nviews (and at least one) source views, and the listed ids first |
| PairList.ViewpointErrorStops | fuse/general_eval.py:55-57 | the first malformed reference line ends reading of the pair file with that error |
| PairList.BuildErrorStops | fuse/general_eval.py:43-53 | the first failing scan ends indexing with its error |
| PairList.ScanEntriesShape | fuse/general_eval.py:52-65 | every entry of a scan names that scan and has at least nviews source views |
| PairList.BuildSpec | fuse/general_eval.py:41-67 | the scale table has exactly the listed scans, each resolved from the interval-scale argument; every entry's scene has a scale and at least nviews source views |
| PairList.BuildPrefix | fuse/general_eval.py:43-65 | when indexing the first m scans succeeds, indexing any fewer succeeds too, and its entries are a prefix of the longer list |
| PairList.BuildInOrder | fuse/general_eval.py:43-65 | entries are appended scan by scan: each scan contributes exactly its pair file's entries, after those of earlier scans |
| PairList.ReadPairFile | fuse/general_eval.py:52-65 | the loop over one pair file computes exactly the scan's entries or the first read error |
| PairList.BuildList | fuse/general_eval.py:37-75 | the loop over the scans computes exactly the index (entries and scale table) or the first error |
| CameraFile.Tokens | fuse/general_eval.py:85-91 | the numbers of lines a to b-1 joined, as `' '.join(lines[a:b])` split into numbers; lines past the end contribute nothing; ReadCamFileEntries states what is read from them |
| CameraFile.DepthInterval | fuse/general_eval.py:94-102 | with three or more tokens on line 11 the interval is int(count)*interval/ndepths*scale, and an error if ndepths is 0; otherwise interval*scale |
| CameraFile.ReadCamFile | fuse/general_eval.py:80-104 | succeeds if and only if lines 1-4 hold 16 numbers, lines 7-9 hold 9, line 11 exists with at least two numbers, and no division by ndepths = 0 is needed; gives 4x4 extrinsics as read, 3x3 intrinsics with rows 0-1 divided by 4, depth_min from line 11, and the depth interval that DepthInterval computes from line 11 |
| CameraFile.ReadCamFileEntries | fuse/general_eval.py:85-92 | entrywise: extrinsics and intrinsic row 2 are the file's tokens; intrinsic rows 0-1 are the tokens divided by 4 |
| Resolution.FitScale | fuse/general_eval.py:158-161 | the factor `scale_mvs_input` applies; FitScaleSpec and FitScaleBounds state it |
| Resolution.FitScaleSpec | fuse/general_eval.py:158-165 | the factor is min(max_h/h, max_w/w) when the image overflows its bound, and 1 otherwise |
| Resolution.FitScaleBounds | fuse/general_eval.py:158-165 | the factor never enlarges, and the scaled image fits in max_w x max_h |
| Resolution.FloorToBase | fuse/general_eval.py:162-164 | `x // 32 * 32` is a multiple of 32, at most x, and within 32 of x |
| Resolution.Quantised | fuse/general_eval.py:162-164 | a scaled dimension rounded down to a multiple of 32 is within 32 below the scaled size, and never above the bound or the unscaled dimension |
| Resolution.NewWidth | fuse/general_eval.py:162-164 | `int(w * scale) // 32 * 32`; NewShapeSpec states its bounds |
| Resolution.NewHeight | fuse/general_eval.py:162-164 | `int(h * scale) // 32 * 32`; NewShapeSpec states its bounds |
| Resolution.NewShapeSpec | fuse/general_eval.py:156-164 | the new width and height are multiples of 32, at most max_w and max_h, at most the input size, and the largest such multiples at or below the scaled size |
| Resolution.ScaleMvsInput | fuse/general_eval.py:156-173 | a successful fit has a non-empty shape and 3x3 intrinsics |
| Resolution.ScaleMvsInputResult | fuse/general_eval.py:156-171 | a zero image dimension fails with a division by zero; otherwise the fit succeeds if and only if both new dimensions are positive, and the image then takes shape (new_h, new_w) |
| Resolution.ScaleMvsInputIntrinsics | fuse/general_eval.py:166-169 | intrinsic row 0 is multiplied by new_w/w, row 1 by new_h/h, and row 2 is unchanged |
| Resolution.FitIntrinsics | fuse/general_eval.py:166-169 | a successful fit has scaled intrinsic row 0 by new_w/w and row 1 by new_h/h, with both old and new dimensions non-zero |
| Resolution.ResizeToStandard | fuse/general_eval.py:228-234 | a view already of shape (s_h, s_w) is unchanged; any other view takes that shape with rows 0 and 1 scaled by s_w/c_w and s_h/c_h; fails if and only if a resize to an empty size is needed |
| Resolution.NormalisedIntrinsics | fuse/general_eval.py:212-234 | after the fit and the resize to (s_h, s_w), the view has that shape, and its intrinsics are the camera's with row 0 scaled by s_w/w and row 1 by s_h/h against the native shape (w, h): the intermediate fitted size cancels out |
| Pyramid.CropBorder | fuse/general_eval.py:118 | `a[:-16, :]` keeps every row but the last 16, unchanged, or no row when there are at most 16 |
| Pyramid.Threshold | fuse/general_eval.py:135 | a value becomes 1.0 if it is greater than 10 and 0.0 otherwise |
| Pyramid.ThresholdGrid | fuse/general_eval.py:135 | the array keeps its shape and each value is thresholded in place |
| Pyramid.ReadDepthHr | fuse/general_eval.py:113-130 | after the crop, stage 1 has shape (h//4, w//4), stage 2 (h//2, w//2), and stage 3 is the cropped array; fails if and only if the cropped array is shorter or narrower than 4 |
| Pyramid.ReadMaskHr | fuse/general_eval.py:132-150 | threshold the mask at 10, crop the bottom 16 rows, and build the three stages; ReadMaskHrSpec and CropThresholdCommute state it |
| Pyramid.CropThresholdCommute | fuse/general_eval.py:135-136 | thresholding then cropping equals cropping then thresholding |
| Pyramid.ReadMaskHrSpec | fuse/general_eval.py:132-150 | the mask stages have the depth pyramid's shapes; each stage-3 value is 1.0 if and only if the source pixel is greater than 10, and 0.0 if and only if it is not |
| Projection.BuildProjMat | fuse/general_eval.py:238-240 | slot 0 is the extrinsics; the top-left 3x3 of slot 1 is the intrinsics; row 3 and column 3 of slot 1 are zero |
| Projection.Stage | fuse/general_eval.py:257-266 | the three stages of the stacked projection matrices; StageSpec states their contents |
| Projection.StageScale | fuse/general_eval.py:257-260 | a staged copy is still a 2x4x4 projection matrix |
| Projection.StageSpec | fuse/general_eval.py:257-266 | stage 1 is the stacked matrices; stage 2 doubles intrinsic rows 0-1 and stage 3 quadruples them; the extrinsic slot and intrinsic rows 2-3 are identical in all stages |
| Projection.Arange | fuse/general_eval.py:246-251 | fails if and only if the step is 0; value k is start + k*step; every value lies in [start, stop) (reversed for a negative step), and the values reach stop |
| Projection.ArangeBounds | fuse/general_eval.py:246-251 | the ceil((stop-start)/step) ticks of the progression stay inside the half-open range, and one more tick passes stop |
| Projection.DepthValues | fuse/general_eval.py:246-251 | `np.arange(depth_min, depth_interval * (ndepths - 0.5) + depth_min, depth_interval)`; DepthValuesSpec states its length and values |
| Projection.DepthValuesSpec | fuse/general_eval.py:246-251 | for a non-zero interval there are exactly ndepths hypotheses (none for a negative count), the k-th being depth_min + k*depth_interval |
| Dataset.SliceTo | fuse/general_eval.py:180 | `s[:e]` is a prefix of s, of length min(e, len s) for e >= 0 |
| Dataset.ViewIds | fuse/general_eval.py:180 | `[ref_view] + src_views[:nviews - 1]`; ViewIdsSpec states it |
| Dataset.ViewIdsSpec | fuse/general_eval.py:180 | at most nviews views, the reference first, then the source views in order; exactly nviews when nviews-1 sources are listed |
| Dataset.LockStep | fuse/general_eval.py:216-225 | fix_res, when set, fires at whichever view reaches it: it clears itself, latches fix_wh and sets (s_h, s_w) to that view's shape; afterwards fix_res is always clear; view 0 sets (s_h, s_w) to its shape unless fix_wh is latched; later views leave a spent lock alone |
| Dataset.FitView | fuse/general_eval.py:207-214 | a view that is read and fitted has 4x4 extrinsics, 3x3 intrinsics and a non-empty shape |
| Dataset.RefData | fuse/general_eval.py:243-251 | view 0's depth and mask pyramids and depth hypotheses, failing on a missing or too small file or a zero interval; ProcessViewRef and AssembleReference state it |
| Dataset.ProcessView | fuse/general_eval.py:186-251 | a view that goes through has the lock's standard shape and a 2x4x4 projection matrix, and carries reference data if and only if it is view 0 |
| Dataset.Run | fuse/general_eval.py:186-241 | the first n passes of the view loop, threading the lock and stopping at the first error; RunOutputs, RunLock, RunFirst and RunErrorStops state it |
| Dataset.RunErrorStops | fuse/general_eval.py:186-251 | the first failing view ends the loop with its error and the lock state it reached |
| Dataset.RunOutputs | fuse/general_eval.py:186-241 | a loop that succeeds yields one output per view, all of the final standard shape, with fix_res spent and reference data only on view 0 |
| Dataset.RunLock | fuse/general_eval.py:216-225 | the lock after the loop is view 0's lock step; later views leave it alone, and it is untouched if view 0 fails before the lock step |
| Dataset.ProcessViewState | fuse/general_eval.py:207-225 | one view leaves the lock alone if its read or fit fails, and otherwise applies the lock step to its fitted shape |
| Dataset.ProcessViewSteps | fuse/general_eval.py:207-240 | a view that goes through reads its camera, fits its image, resizes it to the standard shape, and builds its matrix from those |
| Dataset.ProcessViewIntrinsics | fuse/general_eval.py:207-240 | a view that goes through has a native image of non-zero size, and its projection matrix holds the camera file's extrinsics and its intrinsics (rows 0-1 already divided by 4) with row 0 scaled by s_w/w and row 1 by s_h/h, against the native shape (w, h) |
| Dataset.ProcessViewRef | fuse/general_eval.py:243-251 | view 0's reference data is the pyramids of its depth map and mask and the arange of its camera's non-zero interval |
| Dataset.RunFirst | fuse/general_eval.py:186-251 | the first output of a successful loop is view 0's own result, under the lock the sample starts with |
| Dataset.Assemble | fuse/general_eval.py:175-275 | `__getitem__`: index check (negative indices from the end), view selection, the view loop, staging and the sample; AssembleViews, AssembleReference and AssembleLock state it, and GetItem is proved equal to it |
| Dataset.AssembleViews | fuse/general_eval.py:175-266 | a sample uses the selected views, one image shape and one projection matrix per view, every image of the lock's standard shape, and staged projections |
| Dataset.AssembleReference | fuse/general_eval.py:243-274 | a sample's depth hypotheses are ndepths steps of the reference camera's interval from its depth_min; its depth and mask pyramids are those of the reference view |
| Dataset.AssembleLock | fuse/general_eval.py:216-225 | fix_res is never re-armed and fix_wh never cleared; once the scene-wide lock is latched, the standard shape never changes and every sample has it |
| Dataset.IndexedEntriesAreFull | fuse/general_eval.py:180 | every indexed entry gives exactly nviews views, and its scene has an interval scale |
| Dataset.MVSDataset.constructor | fuse/general_eval.py:29-35 | a new dataset holds the index, with fix_wh clear, fix_res as given and no standard shape yet |
| Dataset.MVSDataset.ViewStep | fuse/general_eval.py:186-251 | one pass of the view loop updates the lock fields in place and gives the view's output or error |
| Dataset.MVSDataset.GetItem | fuse/general_eval.py:175-275 | the view loop gives exactly the sample or error of `__getitem__`, and leaves the lock fields as it does |
| Dataset.Open | fuse/general_eval.py:11-35 | a mode other than "test" is refused; otherwise the dataset opens if and only if indexing succeeds, holding its entries and scale table |

## Left out

- File I/O and paths are not modelled: `open`, `os.path.exists`, the `images_post`/`images` fallback and the filename templates. Files are inputs: a map from (scan, view) to an image shape, camera lines, a depth map and a mask; a missing key is a missing file.
- Pixel content is not modelled: `Image.open`, `read_img`'s division by 255, `read_pfm`, and the interpolation of `cv2.resize`. An image is its shape. A resized pyramid stage is its shape.
- `read_depth` (`fuse/general_eval.py:152-154`) is never called by `__getitem__` and is not part of this model.
- `__len__` only returns the number of entries, which is the length of the `metas` field.
- Parsing strings into numbers (`np.fromstring`, `float`, `int`) is not modelled. Lines come already split into numbers, so a bad token is not modelled beyond its effect on the token count.
- float32 rounding is not modelled; arithmetic is over exact reals. `Projection.DepthValuesSpec` holds in exact arithmetic; float32 rounding can make `np.arange` give one more or one fewer value.
- The torch `Dataset` base class, the `print` diagnostics, and `np.stack`/`transpose` are not modelled. Neither is the `filename` template in the returned sample.
- The numpy updates in place (`intrinsics[...] *=`, `/=`, `proj_mat[...] =` and the stage copies) are modelled as new values. Each of those arrays has a single owner in the source, so no aliasing is lost.
- `s_h, s_w` are module-level globals in the source, so two dataset objects in one process share them. The model keeps them per object.
- `Dataset.Open` takes `max_h`, `max_w` and `fix_res` as parameters, and `ndepths` and the interval scale too: the source's defaults `ndepths=192`, `interval_scale=1.06` and `fix_res=False` (`fuse/general_eval.py:17-18`, `29-31`) are not modelled, so every caller passes all of them. The `KeyError` for a missing `max_h`/`max_w` keyword is not modelled.
- The interval-scale argument is either one number for every scene or a per-scene table. In the source, a Python `int` would take the table branch and fail; that case is not modelled.
- `Resolution.FloorToBase`: `base` is fixed at its default 32, the only value `__getitem__` passes.
- `Pyramid.ReadMaskHrSpec`: the mask is taken as single-channel. A colour mask makes `h, w = np_img.shape` fail in the source; that is not modelled.
