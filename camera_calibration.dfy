// testapp/app/src/main/cpp/camera_calibration.cpp: the instance-based
// CameraCalibration class that native_lib.cpp keeps as one global object. It
// records the corner sets of snapshot frames in `image_points`, and stops
// recording once it holds MaxSnapshots of them.
module CameraCalibration {
  import opened Vision
  import opened BoardGrid

  /** identify_chessboard records a snapshot only while fewer than this many are held. */
  const MaxSnapshots: nat := 20

  /** The buffer update identify_chessboard makes for one frame. */
  function Recorded(points: seq<Corners>, frame: CameraFrame, snapshot: bool): (r: seq<Corners>)
    ensures |points| <= |r| <= |points| + 1 && r[..|points|] == points
    ensures |r| == |points| + 1 <==> frame.patternFound && snapshot && |points| < MaxSnapshots
    ensures |r| == |points| + 1 ==> r[|points|] == frame.corners
  {
    if frame.patternFound && snapshot && |points| < MaxSnapshots then points + [frame.corners] else points
  }

  function RecordAll(points: seq<Corners>, calls: seq<Call>): seq<Corners>
    decreases |calls|
  {
    if calls == [] then points
    else
      var last := calls[|calls| - 1];
      Recorded(RecordAll(points, calls[..|calls| - 1]), last.frame, last.snapshot)
  }

  /**
   * Over any run of calls the buffer keeps its old entries and appends, in
   * order, the corners of the first snapshots that fit below MaxSnapshots; every
   * later snapshot is ignored.
   */
  lemma {:induction false} RecordAllKeepsEarliest(points: seq<Corners>, calls: seq<Call>)
    requires |points| <= MaxSnapshots
    ensures RecordAll(points, calls) ==
      points + SnapshotCorners(calls)[..Min(|SnapshotCorners(calls)|, MaxSnapshots - |points|)]
    decreases |calls|
  {
    if calls != [] {
      var init := calls[..|calls| - 1];
      RecordAllKeepsEarliest(points, init);
      var s := SnapshotCorners(init);
      var s' := SnapshotCorners(calls);
      var room := MaxSnapshots - |points|;
      assert s'[..|s|] == s;
      if |s| < room {
        assert s[..Min(|s|, room)] == s;
        assert s'[..Min(|s'|, room)] == s';
      } else {
        assert s'[..Min(|s'|, room)] == s[..room];
      }
    }
  }

  /** Hence the buffer never exceeds MaxSnapshots, and a full buffer never changes again. */
  lemma SnapshotsCapped(points: seq<Corners>, calls: seq<Call>)
    requires |points| <= MaxSnapshots
    ensures |RecordAll(points, calls)| == Min(|points| + |SnapshotCorners(calls)|, MaxSnapshots)
    ensures |points| == MaxSnapshots ==> RecordAll(points, calls) == points
  {
    RecordAllKeepsEarliest(points, calls);
  }

  class CameraCalibration {
    var boardSize: Size
    var imageSize: Size
    var squareSize: int
    var imagePoints: seq<Corners>

    ghost predicate Valid()
      reads this`imagePoints
    {
      |imagePoints| <= MaxSnapshots
    }

    /** The default constructor: no sizes yet and no recorded views. */
    constructor ()
      ensures Valid()
      ensures boardSize == Size(0, 0) && imageSize == Size(0, 0) && squareSize == 0 && imagePoints == []
    {
      boardSize, imageSize, squareSize := Size(0, 0), Size(0, 0), 0;
      imagePoints := [];
    }

    /** set_sizes: stores the three values; the recorded views are untouched. */
    method SetSizes(board: Size, image: Size, square: int)
      modifies this`boardSize, this`imageSize, this`squareSize
      ensures boardSize == board && imageSize == image && squareSize == square
    {
      boardSize := board;
      imageSize := image;
      squareSize := square;
    }

    /**
     * identify_chessboard: on a found pattern in snapshot mode, appends the
     * corners if fewer than MaxSnapshots are held; returns the number held.
     * (Drawing the corners onto the frame is not modelled.)
     */
    method IdentifyChessboard(frame: CameraFrame, modeTakeSnapshot: bool) returns (count: int)
      requires Valid()
      modifies this`imagePoints
      ensures Valid()
      ensures imagePoints == Recorded(old(imagePoints), frame, modeTakeSnapshot)
      ensures count == |imagePoints|
    {
      if frame.patternFound {
        if modeTakeSnapshot {
          if |imagePoints| < MaxSnapshots {
            imagePoints := imagePoints + [frame.corners];
          }
        }
      }
      count := |imagePoints|;
    }

    /**
     * calc_board_corner_positions: clears obj, then fills it row by row with the
     * board's corners; the old contents of obj play no part in the result.
     */
    method CalcBoardCornerPositions(obj: seq<Point3>) returns (filled: seq<Point3>)
      ensures filled == BoardCorners(boardSize, squareSize)
    {
      filled := [];
      var width := Iterations(boardSize.width);
      var i := 0;
      while i < boardSize.height
        invariant 0 <= i <= Iterations(boardSize.height)
        invariant filled == Grid(width, i, squareSize)
      {
        var j := 0;
        while j < boardSize.width
          invariant 0 <= j <= width
          invariant filled == Grid(width, i, squareSize) + Row(i, width, squareSize)[..j]
        {
          filled := filled + [Corner(i, j, squareSize)];
          j := j + 1;
        }
        assert Row(i, width, squareSize)[..j] == Row(i, width, squareSize);
        i := i + 1;
      }
    }

    /**
     * calibrate: builds the grid, widens its first row (a no-op), replicates it
     * once per recorded view and hands everything to calibrateCamera with an
     * identity camera matrix and eight zero distortion coefficients; the result
     * is the estimated camera matrix followed by the distortion coefficients.
     */
    method Calibrate(calibrateCamera: CalibrateCameraFn) returns (results: seq<Matrix>)
      requires boardSize.width >= 1 && boardSize.height >= 1
      ensures |results| == 2
      ensures var objectPoints := Replicate(BoardCorners(boardSize, squareSize), |imagePoints|);
              var (matrix, dist) := calibrateCamera(objectPoints, imagePoints, imageSize, Eye(3), Zeros(8, 1));
              results == [matrix, dist]
    {
      var grid := CalcBoardCornerPositions([]);
      WidenFirstRowIsNoOp(boardSize.width, boardSize.height, squareSize);
      grid := WidenFirstRow(grid, boardSize.width, squareSize);
      var objectPoints := Resize([grid], |imagePoints|, grid);
      ResizeReplicates(grid, |imagePoints|);
      var cameraMatrix := Eye(3);
      var distCoeffs := Zeros(8, 1);
      var estimated := calibrateCamera(objectPoints, imagePoints, imageSize, cameraMatrix, distCoeffs);
      cameraMatrix, distCoeffs := estimated.0, estimated.1;
      results := [cameraMatrix, distCoeffs];
    }
  }
}
