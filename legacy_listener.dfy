// testapp/app/src/main/java/com/example/testapp/CvCameraViewListener.kt: the
// older, all-Kotlin camera listener. Every frame in which a 10 by 7 chessboard
// is found contributes a view (object points and corners, in two parallel
// lists) until MaxViews are held; stopping the camera calibrates from the
// collected views and stores the result in cameraInfo.
module LegacyListener {
  import opened Vision
  import opened BoardGrid

  /** boardWidth and boardHeight are Doubles in the source. */
  const BoardWidth: real := 10.0
  const BoardHeight: real := 7.0

  /** (boardWidth * boardHeight).toInt() */
  const NumSquares: int := (BoardWidth * BoardHeight).Floor

  /** A view is added only while fewer than this many are held. */
  const MaxViews: nat := 15

  /**
   * The j-th object point of createObjPoints: x is j divided by the width as a
   * Double, y is the Double remainder of j by the height (for j >= 0 it equals
   * the integer remainder by 7), z is 0.
   */
  function ObjPoint(j: nat): Point3 {
    Point3(j as real / BoardWidth, (j % BoardHeight.Floor) as real, 0.0)
  }

  /** The list createObjPoints builds, as written. */
  function ObjPoints(): (r: seq<Point3>)
    ensures |r| == NumSquares == 70
    ensures forall j :: 0 <= j < |r| ==> r[j] == ObjPoint(j)
  {
    seq(70, j requires 0 <= j => ObjPoint(j))
  }

  /**
   * createObjPoints as evidently intended: point j is the corner in column
   * j mod 10 and row j div 10 of the 10 by 7 board, on unit squares, which is
   * the row-major lattice the native classes build with a square size of 1.
   * The listener below keeps the points as written.
   */
  function LatticeObjPoints(): (r: seq<Point3>)
    ensures |r| == NumSquares
    ensures forall j :: 0 <= j < |r| ==> r[j] == Point3((j % 10) as real, (j / 10) as real, 0.0)
  {
    LatticeRowMajor();
    Grid(10, 7, 1)
  }

  lemma LatticeRowMajor()
    ensures |Grid(10, 7, 1)| == 70
    ensures forall j :: 0 <= j < 70 ==> Grid(10, 7, 1)[j] == Point3((j % 10) as real, (j / 10) as real, 0.0)
  {
    GridRowMajor(10, 7, 1);
    forall j | 0 <= j < 70
      ensures Grid(10, 7, 1)[j] == Point3((j % 10) as real, (j / 10) as real, 0.0)
    {
      var q, r := j / 10, j % 10;
      assert j == q * 10 + r;
      assert Grid(10, 7, 1)[q * 10 + r] == Corner(q, r, 1);
    }
  }

  /** createObjPoints: pushes ObjPoint(j) for j = 0 .. numSquares - 1. */
  method CreateObjPoints() returns (obj: seq<Point3>)
    ensures obj == ObjPoints()
  {
    obj := [];
    var numSquares := (BoardWidth * BoardHeight).Floor;
    var j := 0;
    while j < numSquares
      invariant 0 <= j <= numSquares == 70
      invariant |obj| == j && forall k :: 0 <= k < j ==> obj[k] == ObjPoint(k)
    {
      obj := obj + [ObjPoint(j)];
      j := j + 1;
    }
  }

  /**
   * createObjPoints as written does not produce the board's corner lattice:
   * the two agree at the origin and nowhere else.
   */
  lemma ObjPointsMissLattice()
    ensures ObjPoints()[0] == LatticeObjPoints()[0]
    ensures forall j :: 0 < j < 70 ==> ObjPoints()[j] != LatticeObjPoints()[j]
  {
    forall j | 0 < j < 70
      ensures ObjPoints()[j] != LatticeObjPoints()[j]
    {
      ObjPointOffLattice(j);
    }
  }

  /** For j > 0, the written x (j / 10) is never the lattice column j mod 10. */
  lemma ObjPointOffLattice(j: nat)
    requires 0 < j
    ensures ObjPoint(j).x != (j % 10) as real
  {
    var q, r := j / 10, j % 10;
    assert j == q * 10 + r;
    // j == 10 r would give r == 10 (r - q), so r == 0 and then j == 0.
    assert j == 10 * r ==> r == 10 * (r - q);
    assert j != 10 * r;
    assert (j as real) != (r as real) * 10.0;
  }

  /** CameraInfo: matrix, distortion and the rotation and translation vectors, as values. */
  datatype CameraInfo = CameraInfo(matrix: Matrix, dist: Matrix, rvecs: seq<Matrix>, tvecs: seq<Matrix>)

  /** `CameraInfo()`: the info before any calibration, with nothing in it. */
  const EmptyInfo: CameraInfo := CameraInfo([], [], [], [])

  /** calibrateCamera with the rotation and translation vectors it also estimates. */
  type CalibrateWithPosesFn = (seq<seq<Point3>>, seq<Corners>, Size, Matrix, Matrix) -> (Matrix, Matrix, seq<Matrix>, seq<Matrix>)

  /** The listener object's fields. */
  datatype State = State(
    objectPoints: seq<seq<Point3>>,
    imagePoints: seq<Corners>,
    imageSize: Option<Size>,
    cameraInfo: CameraInfo)

  function Initial(): State {
    State([], [], None, EmptyInfo)
  }

  /**
   * onCameraFrame: the frame's size becomes imageSize; a found board adds a
   * view to both lists while fewer than MaxViews are held.
   */
  function FrameStep(s: State, frame: CameraFrame): (t: State)
    ensures t.imageSize == Some(frame.size) && t.cameraInfo == s.cameraInfo
    ensures |s.objectPoints| <= |t.objectPoints| <= |s.objectPoints| + 1
    ensures |t.objectPoints| == |s.objectPoints| + 1 <==> frame.patternFound && |s.objectPoints| < MaxViews
    ensures |t.objectPoints| == |s.objectPoints| ==> t.objectPoints == s.objectPoints && t.imagePoints == s.imagePoints
    ensures |t.objectPoints| == |s.objectPoints| + 1 ==>
      t.objectPoints == s.objectPoints + [ObjPoints()] && t.imagePoints == s.imagePoints + [frame.corners]
  {
    var s' := s.(imageSize := Some(frame.size));
    if frame.patternFound && |s.objectPoints| < MaxViews then
      s'.(objectPoints := s.objectPoints + [ObjPoints()], imagePoints := s.imagePoints + [frame.corners])
    else s'
  }

  function RunFrames(s: State, frames: seq<CameraFrame>): State
    decreases |frames|
  {
    if frames == [] then s else FrameStep(RunFrames(s, frames[..|frames| - 1]), frames[|frames| - 1])
  }

  /** The corners of the frames in which the board is found, in order. */
  function FoundCorners(frames: seq<CameraFrame>): seq<Corners>
    decreases |frames|
  {
    if frames == [] then []
    else
      var last := frames[|frames| - 1];
      FoundCorners(frames[..|frames| - 1]) + (if last.patternFound then [last.corners] else [])
  }

  /**
   * Over any run of frames the two lists stay parallel and within MaxViews,
   * every object-point entry added is the createObjPoints list, imageSize is
   * the last frame's size, and cameraInfo is untouched.
   */
  lemma {:induction false} RunFramesParallel(s: State, frames: seq<CameraFrame>)
    requires |s.objectPoints| == |s.imagePoints| <= MaxViews
    ensures var t := RunFrames(s, frames);
      && |t.objectPoints| == |t.imagePoints| <= MaxViews
      && |s.objectPoints| <= |t.objectPoints|
      && t.objectPoints[..|s.objectPoints|] == s.objectPoints
      && (forall k :: |s.objectPoints| <= k < |t.objectPoints| ==> t.objectPoints[k] == ObjPoints())
      && t.imageSize == (if frames == [] then s.imageSize else Some(frames[|frames| - 1].size))
      && t.cameraInfo == s.cameraInfo
    decreases |frames|
  {
    if frames != [] {
      RunFramesParallel(s, frames[..|frames| - 1]);
    }
  }

  /**
   * Over any run of frames the image points gain, in order, the corners of the
   * first found boards that fit below MaxViews; later boards are ignored.
   */
  lemma {:induction false} RunFramesKeepsEarliest(s: State, frames: seq<CameraFrame>)
    requires |s.objectPoints| == |s.imagePoints| <= MaxViews
    ensures var found := FoundCorners(frames);
      RunFrames(s, frames).imagePoints == s.imagePoints + found[..Min(|found|, MaxViews - |s.imagePoints|)]
    decreases |frames|
  {
    if frames != [] {
      var init := frames[..|frames| - 1];
      RunFramesKeepsEarliest(s, init);
      RunFramesParallel(s, init);
      var f := FoundCorners(init);
      var f' := FoundCorners(frames);
      var room := MaxViews - |s.imagePoints|;
      assert f'[..|f|] == f;
      if |f| < room {
        assert f[..Min(|f|, room)] == f;
        assert f'[..Min(|f'|, room)] == f';
      } else {
        assert f'[..Min(|f'|, room)] == f[..room];
      }
    }
  }

  /**
   * Hence the lists hold min(initial + found, MaxViews) views: the first found
   * corners in order, each paired with the createObjPoints list.
   */
  lemma RunFramesViews(s: State, frames: seq<CameraFrame>)
    requires |s.objectPoints| == |s.imagePoints| <= MaxViews
    ensures var t := RunFrames(s, frames); var found := FoundCorners(frames);
      var added := Min(|found|, MaxViews - |s.imagePoints|);
      && |t.objectPoints| == |t.imagePoints| == |s.imagePoints| + added
      && t.imagePoints == s.imagePoints + found[..added]
      && (forall k :: |s.objectPoints| <= k < |t.objectPoints| ==> t.objectPoints[k] == ObjPoints())
  {
    RunFramesParallel(s, frames);
    RunFramesKeepsEarliest(s, frames);
  }

  /**
   * onCameraViewStopped: with no frame seen, the 3 by 3 matrix (uninitialised
   * in the source, zeros here) and empty results; otherwise calibrateCamera's
   * estimates from the collected views. Only cameraInfo changes.
   */
  function Stopped(s: State, calibrateCamera: CalibrateWithPosesFn): (t: State)
    ensures t.(cameraInfo := s.cameraInfo) == s
    ensures s.imageSize.None? ==> t.cameraInfo == CameraInfo(Zeros(3, 3), [], [], [])
    ensures s.imageSize.Some? ==>
      var (matrix, dist, rvecs, tvecs) := calibrateCamera(s.objectPoints, s.imagePoints, s.imageSize.value, Zeros(3, 3), []);
      t.cameraInfo == CameraInfo(matrix, dist, rvecs, tvecs)
  {
    var info :=
      match s.imageSize
      case None => CameraInfo(Zeros(3, 3), [], [], [])
      case Some(size) =>
        var (matrix, dist, rvecs, tvecs) := calibrateCamera(s.objectPoints, s.imagePoints, size, Zeros(3, 3), []);
        CameraInfo(matrix, dist, rvecs, tvecs);
    s.(cameraInfo := info)
  }

  /** Stopping reads only the views and the size, so stopping again changes nothing. */
  lemma StoppedIdempotent(s: State, calibrateCamera: CalibrateWithPosesFn)
    ensures Stopped(Stopped(s, calibrateCamera), calibrateCamera) == Stopped(s, calibrateCamera)
  {
    var t := Stopped(s, calibrateCamera);
    assert t.(cameraInfo := s.cameraInfo) == s;
  }

  /** The Kotlin `object`, with its mutable lists as sequence fields. */
  class CvCameraViewListener {
    var objectPoints: seq<seq<Point3>>
    var imagePoints: seq<Corners>
    var imageSize: Option<Size>
    var cameraInfo: CameraInfo

    ghost predicate Valid()
      reads this
    {
      && |objectPoints| == |imagePoints| <= MaxViews
      && forall k :: 0 <= k < |objectPoints| ==> objectPoints[k] == ObjPoints()
    }

    ghost function Abstract(): State
      reads this
    {
      State(objectPoints, imagePoints, imageSize, cameraInfo)
    }

    constructor ()
      ensures Valid() && Abstract() == Initial()
    {
      objectPoints, imagePoints := [], [];
      imageSize := None;
      cameraInfo := EmptyInfo;
    }

    /** onCameraViewStarted: resets cameraInfo; the collected views are kept. */
    method OnCameraViewStarted(width: int, height: int)
      requires Valid()
      modifies this`cameraInfo
      ensures Valid()
      ensures Abstract() == old(Abstract()).(cameraInfo := EmptyInfo)
    {
      cameraInfo := EmptyInfo;
    }

    method OnCameraFrame(frame: CameraFrame)
      requires Valid()
      modifies this`imageSize, this`objectPoints, this`imagePoints
      ensures Valid()
      ensures Abstract() == FrameStep(old(Abstract()), frame)
    {
      imageSize := Some(frame.size);
      if frame.patternFound {
        if |objectPoints| < MaxViews {
          var obj := CreateObjPoints();
          objectPoints := objectPoints + [obj];
          imagePoints := imagePoints + [frame.corners];
        }
      }
    }

    method OnCameraViewStopped(calibrateCamera: CalibrateWithPosesFn)
      requires Valid()
      modifies this`cameraInfo
      ensures Valid()
      ensures Abstract() == Stopped(old(Abstract()), calibrateCamera)
    {
      var matrixRes := Zeros(3, 3);
      var distRes: Matrix := [];
      var rvecsRes: seq<Matrix> := [];
      var tvecsRes: seq<Matrix> := [];
      if imageSize.Some? {
        var estimated := calibrateCamera(objectPoints, imagePoints, imageSize.value, matrixRes, distRes);
        matrixRes, distRes, rvecsRes, tvecsRes := estimated.0, estimated.1, estimated.2, estimated.3;
      }
      cameraInfo := CameraInfo(matrixRes, distRes, rvecsRes, tvecsRes);
    }
  }
}
