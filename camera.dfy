/** The camera-descriptor reader (`MVSDataset.read_cam_file`). A camera file is
    given as its lines, each already split into numbers: lines 1-4 hold the
    4x4 extrinsics, lines 7-9 the 3x3 intrinsics and line 11 the depth
    parameters `depth_min depth_interval [count [depth_max]]`. */
module CameraFile {
  import opened Common

  type CamLines = seq<seq<real>>

  datatype Camera = Camera(intrinsics: Matrix, extrinsics: Matrix, depthMin: real, depthInterval: real)

  datatype CamError =
    | BadExtrinsics      // lines 1-4 do not hold exactly 16 numbers (reshape fails)
    | BadIntrinsics      // lines 7-9 do not hold exactly 9 numbers
    | MissingDepthLine   // the file has no line 11
    | ShortDepthLine     // line 11 has fewer than two numbers
    | ZeroDepthCount     // the recomputation divides by a configured depth count of 0

  function Flatten(ls: seq<seq<real>>): (t: seq<real>)
  {
    if ls == [] then [] else ls[0] + Flatten(ls[1..])
  }

  /** The numbers of lines [a, b), as `" ".join(lines[a:b])` parses them;
      Python's slice stops at the end of the file. */
  function Tokens(lines: CamLines, a: nat, b: nat): seq<real>
    requires a <= b
  {
    var lo := if a < |lines| then a else |lines|;
    var hi := if b < |lines| then b else |lines|;
    Flatten(lines[lo..hi])
  }

  /** The depth interval after the optional recomputation from a sample
      count and the per-scene scale (lines 94-102). */
  function DepthInterval(line: seq<real>, intervalScale: real, ndepths: int): (r: Result<real, CamError>)
    requires |line| >= 2
    ensures r.Err? <==> |line| >= 3 && ndepths == 0
    ensures |line| < 3 ==> r.Ok? && r.value == line[1] * intervalScale
    ensures |line| >= 3 && ndepths != 0 ==> r.Ok? && r.value == Trunc(line[2]) as real * line[1] / ndepths as real * intervalScale
  {
    var depthMin := line[0];
    var interval := line[1];
    if |line| >= 3 then
      var depthMax := depthMin + Trunc(line[2]) as real * interval;
      if ndepths == 0 then Err(ZeroDepthCount)
      else
        assert depthMax - depthMin == Trunc(line[2]) as real * interval;
        Ok((depthMax - depthMin) / ndepths as real * intervalScale)
    else Ok(interval * intervalScale)
  }

  function ReadCamFile(lines: CamLines, intervalScale: real, ndepths: int): (r: Result<Camera, CamError>)
    ensures r.Ok? <==>
      && |Tokens(lines, 1, 5)| == 16 && |Tokens(lines, 7, 10)| == 9
      && |lines| > 11 && |lines[11]| >= 2
      && (|lines[11]| >= 3 ==> ndepths != 0)
    ensures r.Ok? ==> IsMatrix(r.value.extrinsics, 4, 4) && IsMatrix(r.value.intrinsics, 3, 3)
    ensures r.Ok? ==> r.value.depthMin == lines[11][0]
    ensures r.Ok? ==> r.value.extrinsics == Reshape(Tokens(lines, 1, 5), 4, 4)
    ensures r.Ok? ==>
      var k := Reshape(Tokens(lines, 7, 10), 3, 3);
      r.value.intrinsics == ScaleRow(ScaleRow(k, 0, 1.0 / 4.0), 1, 1.0 / 4.0)
    ensures r.Ok? ==> DepthInterval(lines[11], intervalScale, ndepths) == Ok(r.value.depthInterval)
  {
    var e := Tokens(lines, 1, 5);
    var k := Tokens(lines, 7, 10);
    if |e| != 16 then Err(BadExtrinsics)
    else if |k| != 9 then Err(BadIntrinsics)
    else if |lines| <= 11 then Err(MissingDepthLine)
    else if |lines[11]| < 2 then Err(ShortDepthLine)
    else
      var intrinsics := ScaleRow(ScaleRow(Reshape(k, 3, 3), 0, 1.0 / 4.0), 1, 1.0 / 4.0);
      match DepthInterval(lines[11], intervalScale, ndepths)
      case Err(err) => Err(err)
      case Ok(interval) => Ok(Camera(intrinsics, Reshape(e, 4, 4), lines[11][0], interval))
  }

  /** The reader's promise entry by entry: intrinsic rows 0 and 1 are the
      file's divided by 4, intrinsic row 2 and the extrinsics are as read. */
  lemma ReadCamFileEntries(lines: CamLines, intervalScale: real, ndepths: int)
    requires ReadCamFile(lines, intervalScale, ndepths).Ok?
    ensures var cam := ReadCamFile(lines, intervalScale, ndepths).value;
      && (forall i, j :: 0 <= i < 4 && 0 <= j < 4 ==> cam.extrinsics[i][j] == Tokens(lines, 1, 5)[4 * i + j])
      && (forall i, j :: 0 <= i < 2 && 0 <= j < 3 ==> cam.intrinsics[i][j] == Tokens(lines, 7, 10)[3 * i + j] / 4.0)
      && (forall j :: 0 <= j < 3 ==> cam.intrinsics[2][j] == Tokens(lines, 7, 10)[6 + j])
  {
    var cam := ReadCamFile(lines, intervalScale, ndepths).value;
    forall i, j | 0 <= i < 4 && 0 <= j < 4
      ensures cam.extrinsics[i][j] == Tokens(lines, 1, 5)[4 * i + j]
    {
      ReshapeAt(Tokens(lines, 1, 5), 4, 4, i, j);
    }
    forall i, j | 0 <= i < 3 && 0 <= j < 3
      ensures cam.intrinsics[i][j] == if i < 2 then Tokens(lines, 7, 10)[3 * i + j] / 4.0 else Tokens(lines, 7, 10)[3 * i + j]
    {
      ReshapeAt(Tokens(lines, 7, 10), 3, 3, i, j);
    }
  }
}
