/** Shared vocabulary: the error-carrying result type and the small dense
    matrices (3x3 intrinsics, 4x4 extrinsics) that the camera code works on. */
module Common {

  datatype Result<+T, +E> = Ok(value: T) | Err(error: E)

  datatype Option<+T> = None | Some(value: T)

  /** An image or array shape, rows first as numpy reports it. */
  datatype Shape = Shape(h: nat, w: nat)

  type Matrix = seq<seq<real>>

  predicate IsMatrix(m: Matrix, rows: nat, cols: nat)
  {
    |m| == rows && forall i :: 0 <= i < rows ==> |m[i]| == cols
  }

  /** Row `i` multiplied by `f`, every other row left alone (numpy's `m[i, :] *= f`). */
  function ScaleRow(m: Matrix, i: nat, f: real): (r: Matrix)
    requires i < |m|
    ensures |r| == |m| && |r[i]| == |m[i]|
    ensures forall k :: 0 <= k < |m| && k != i ==> r[k] == m[k]
    ensures forall j :: 0 <= j < |m[i]| ==> r[i][j] == m[i][j] * f
  {
    m[i := seq(|m[i]|, j requires 0 <= j < |m[i]| => m[i][j] * f)]
  }

  /** Row-major reshape of a flat token list into a rows x cols matrix
      (numpy's `reshape((rows, cols))`). */
  function Reshape(t: seq<real>, rows: nat, cols: nat): (m: Matrix)
    requires |t| == rows * cols
    ensures IsMatrix(m, rows, cols)
    decreases rows
  {
    if rows == 0 then [] else [t[..cols]] + Reshape(t[cols..], rows - 1, cols)
  }

  /** Entry (i, j) of the reshaped matrix is token i * cols + j. */
  lemma {:induction false} ReshapeAt(t: seq<real>, rows: nat, cols: nat, i: nat, j: nat)
    requires |t| == rows * cols && i < rows && j < cols
    ensures i * cols + j < |t|
    ensures Reshape(t, rows, cols)[i][j] == t[i * cols + j]
    decreases rows
  {
    if i > 0 {
      ReshapeAt(t[cols..], rows - 1, cols, i - 1, j);
      assert (i - 1) * cols + j + cols == i * cols + j;
    }
  }

  /** Python's `int(x)` on a float: truncation toward zero. */
  function Trunc(x: real): (n: int)
    ensures x >= 0.0 ==> n as real <= x < n as real + 1.0
    ensures x < 0.0 ==> n as real - 1.0 < x <= n as real
  {
    if x >= 0.0 then x.Floor else -((-x).Floor)
  }

  /** The smallest integer at or above `x`. */
  function Ceil(x: real): (n: int)
    ensures n as real - 1.0 < x <= n as real
  {
    -((-x).Floor)
  }
}
