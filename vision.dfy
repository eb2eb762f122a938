// Value types shared by the stitching and calibration models: OpenCV's
// cv::Size, cv::Point2f, cv::Point3f and dense matrices, plus what one camera
// frame offers the calibration code.
module Vision {

  datatype Option<T> = None | Some(value: T)

  /** cv::Size: a width and a height, plain ints (zero or negative is representable). */
  datatype Size = Size(width: int, height: int)

  /** cv::Point2f and cv::Point3f; float coordinates are modelled as reals. */
  datatype Point2 = Point2(x: real, y: real)
  datatype Point3 = Point3(x: real, y: real, z: real)

  /** The corners of one detected chessboard, in the detector's order. */
  type Corners = seq<Point2>

  /** A dense matrix of doubles, row by row. */
  type Matrix = seq<seq<real>>

  predicate IsShape(m: Matrix, rows: nat, cols: nat) {
    |m| == rows && forall i :: 0 <= i < rows ==> |m[i]| == cols
  }

  /** cv::Mat::zeros(rows, cols, CV_64F). */
  function Zeros(rows: nat, cols: nat): (m: Matrix)
    ensures IsShape(m, rows, cols)
  {
    seq(rows, _ => seq(cols, _ => 0.0))
  }

  /** cv::Mat::eye(n, n, CV_64F). */
  function Eye(n: nat): (m: Matrix)
    ensures IsShape(m, n, n)
  {
    seq(n, i => seq(n, j => if i == j then 1.0 else 0.0))
  }

  /**
   * One camera frame as the calibration code sees it: the frame's size and the
   * verdict of the chessboard detector (findChessboardCorners followed by
   * cornerSubPix), which is a library oracle: "found?" plus some corner list.
   */
  datatype CameraFrame = CameraFrame(size: Size, patternFound: bool, corners: Corners)

  /**
   * calibrateCamera as an oracle: from the object points, the image points, the
   * image size and the initial camera matrix and distortion coefficients to the
   * estimated camera matrix and distortion coefficients.
   */
  type CalibrateCameraFn = (seq<seq<Point3>>, seq<Corners>, Size, Matrix, Matrix) -> (Matrix, Matrix)

  /** One identify_chessboard call: the frame and the snapshot flag passed with it. */
  datatype Call = Call(frame: CameraFrame, snapshot: bool)

  /** The corners of the calls that ask to record a found board, in call order. */
  function SnapshotCorners(calls: seq<Call>): seq<Corners>
    decreases |calls|
  {
    if calls == [] then []
    else
      var last := calls[|calls| - 1];
      SnapshotCorners(calls[..|calls| - 1]) + (if last.frame.patternFound && last.snapshot then [last.frame.corners] else [])
  }

  function Min(a: int, b: int): int {
    if a < b then a else b
  }
}
