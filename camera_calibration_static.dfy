// testapp/app/src/main/cpp/camera-calibration.cpp: the CameraCalibration class
// whose members are all static. Its snapshot buffer `_imagePoints` is bounded
// by replacement rather than by refusal: when it holds more than
// ReplaceAbove entries, the last entry is moved to the front (overwriting the
// front), the last slot is popped, and the new corners are pushed.
module CameraCalibrationStatic {
  import opened Vision
  import opened BoardGrid

  /** identifyChessboard replaces rather than grows once the buffer holds more than this many. */
  const ReplaceAbove: nat := 15

  /** The most the buffer ever holds, starting from empty. */
  const Capacity: nat := ReplaceAbove + 1

  /** `front() = move(back()); pop_back()`: the last entry takes the front's place. */
  function MoveLastToFront(points: seq<Corners>): (r: seq<Corners>)
    requires |points| >= 1
    ensures |r| == |points| - 1
    ensures |r| > 0 ==> r[0] == points[|points| - 1] && r[1..] == points[1..|points| - 1]
  {
    points[0 := points[|points| - 1]][..|points| - 1]
  }

  /** The buffer update identifyChessboard makes for one frame. */
  function Recorded(points: seq<Corners>, frame: CameraFrame, snapshot: bool): (r: seq<Corners>)
    ensures r == points <== !(frame.patternFound && snapshot)
    ensures frame.patternFound && snapshot ==> |r| > 0 && r[|r| - 1] == frame.corners
    ensures frame.patternFound && snapshot && |points| <= ReplaceAbove ==> |r| == |points| + 1 && r[..|points|] == points
    ensures frame.patternFound && snapshot && |points| > ReplaceAbove ==>
      |r| == |points| && r[0] == points[|points| - 1] && r[1..|points| - 1] == points[1..|points| - 1]
    ensures |points| <= Capacity ==> |r| <= Capacity
  {
    if frame.patternFound && snapshot then
      (if |points| > ReplaceAbove then MoveLastToFront(points) else points) + [frame.corners]
    else
      points
  }

  function RecordAll(points: seq<Corners>, calls: seq<Call>): seq<Corners>
    decreases |calls|
  {
    if calls == [] then points
    else
      var last := calls[|calls| - 1];
      Recorded(RecordAll(points, calls[..|calls| - 1]), last.frame, last.snapshot)
  }

  /**
   * Over any run of calls from at most Capacity entries, the buffer grows by one
   * per snapshot until it holds Capacity entries, and then stays at that size;
   * after at least one snapshot its last entry is the newest snapshot's corners.
   */
  lemma {:induction false} RecordAllSizeAndNewest(points: seq<Corners>, calls: seq<Call>)
    requires |points| <= Capacity
    ensures |RecordAll(points, calls)| == Min(|points| + |SnapshotCorners(calls)|, Capacity)
    ensures var s := SnapshotCorners(calls); var r := RecordAll(points, calls);
      |s| > 0 ==> |r| > 0 && r[|r| - 1] == s[|s| - 1]
    decreases |calls|
  {
    if calls != [] {
      RecordAllSizeAndNewest(points, calls[..|calls| - 1]);
    }
  }

  /**
   * Once the buffer is full, entries 1 .. Capacity - 2 never change again: only
   * the front and the back slot take new corners.
   */
  lemma {:induction false} FullBufferKeepsMiddle(points: seq<Corners>, calls: seq<Call>)
    requires |points| == Capacity
    ensures |RecordAll(points, calls)| == Capacity
    ensures RecordAll(points, calls)[1..Capacity - 1] == points[1..Capacity - 1]
    decreases |calls|
  {
    if calls != [] {
      FullBufferKeepsMiddle(points, calls[..|calls| - 1]);
    }
  }

  /** Every entry the buffer holds was there at the start or came from a snapshot. */
  lemma {:induction false} RecordAllEntriesFromSnapshots(points: seq<Corners>, calls: seq<Call>)
    ensures forall c :: c in RecordAll(points, calls) ==> c in points || c in SnapshotCorners(calls)
    decreases |calls|
  {
    if calls != [] {
      var init := calls[..|calls| - 1];
      RecordAllEntriesFromSnapshots(points, init);
      var before := RecordAll(points, init);
      var last := calls[|calls| - 1];
      assert SnapshotCorners(init) <= SnapshotCorners(calls);
      forall c | c in RecordAll(points, calls)
        ensures c in points || c in SnapshotCorners(calls)
      {
        if last.frame.patternFound && last.snapshot {
          if |before| > ReplaceAbove {
            var moved := MoveLastToFront(before);
            assert forall k :: 0 <= k < |moved| ==> moved[k] in before;
          }
        }
      }
    }
  }

  /** The static members, as the fields of the one class-wide state. */
  class CameraCalibration {
    var boardSize: Size
    var imageSize: Size
    var squareSize: int
    var imagePoints: seq<Corners>

    ghost predicate Valid()
      reads this`imagePoints
    {
      |imagePoints| <= Capacity
    }

    /** The in-class initialisers: Size(), Size(), 0 and an empty vector. */
    constructor ()
      ensures Valid()
      ensures boardSize == Size(0, 0) && imageSize == Size(0, 0) && squareSize == 0 && imagePoints == []
    {
      boardSize, imageSize, squareSize := Size(0, 0), Size(0, 0), 0;
      imagePoints := [];
    }

    /** setSizes: stores the three values; the recorded views are untouched. */
    method SetSizes(board: Size, image: Size, square: int)
      modifies this`boardSize, this`imageSize, this`squareSize
      ensures boardSize == board && imageSize == image && squareSize == square
    {
      boardSize := board;
      imageSize := image;
      squareSize := square;
    }

    /**
     * identifyChessboard: on a found pattern in snapshot mode, makes room by
     * moving the last entry to the front if more than ReplaceAbove are held,
     * then appends the corners; returns the number held. (Drawing the corners
     * onto the frame is not modelled.)
     */
    method IdentifyChessboard(frame: CameraFrame, modeTakeSnapshot: bool) returns (count: int)
      requires Valid()
      modifies this`imagePoints
      ensures Valid()
      ensures imagePoints == Recorded(old(imagePoints), frame, modeTakeSnapshot)
      ensures count == |imagePoints|
    {
      if frame.patternFound {
        if modeTakeSnapshot {
          if |imagePoints| > ReplaceAbove {
            imagePoints := imagePoints[0 := imagePoints[|imagePoints| - 1]];
            imagePoints := imagePoints[..|imagePoints| - 1];
          }
          imagePoints := imagePoints + [frame.corners];
        }
      }
      count := |imagePoints|;
    }

    /** calcBoardCornerPositions: clears obj, then fills it row by row with the board's corners. */
    method CalcBoardCornerPositions(obj: seq<Point3>) returns (filled: seq<Point3>)
      ensures filled == BoardCorners(boardSize, squareSize)
    {
      filled := [];
      var width := Iterations(boardSize.width);
      for i := 0 to Iterations(boardSize.height)
        invariant filled == Grid(width, i, squareSize)
      {
        for j := 0 to width
          invariant filled == Grid(width, i, squareSize) + Row(i, width, squareSize)[..j]
        {
          filled := filled + [Corner(i, j, squareSize)];
        }
        assert Row(i, width, squareSize)[..width] == Row(i, width, squareSize);
      }
    }

    /**
     * calibrate: the grid with its first row widened (a no-op), replicated once
     * per recorded view, goes to calibrateCamera with an identity camera matrix
     * and eight zero distortion coefficients; the result is the estimated camera
     * matrix followed by the distortion coefficients.
     */
    method Calibrate(calibrateCamera: CalibrateCameraFn) returns (results: seq<Matrix>)
      requires boardSize.width >= 1 && boardSize.height >= 1
      ensures |results| == 2
      ensures var objectPoints := Replicate(BoardCorners(boardSize, squareSize), |imagePoints|);
              var (matrix, dist) := calibrateCamera(objectPoints, imagePoints, imageSize, Eye(3), Zeros(8, 1));
              results == [matrix, dist]
    {
      var grid := CalcBoardCornerPositions([]);
      WidenFirstRowIsNoOp(boardSize.width, boardSize.height, squareSize);
      grid := WidenFirstRow(grid, boardSize.width, squareSize);
      var objectPoints := Resize([grid], |imagePoints|, grid);
      ResizeReplicates(grid, |imagePoints|);
      var cameraMatrix := Eye(3);
      var distortion := Zeros(8, 1);
      var estimated := calibrateCamera(objectPoints, imagePoints, imageSize, cameraMatrix, distortion);
      cameraMatrix, distortion := estimated.0, estimated.1;
      results := [cameraMatrix, distortion];
    }
  }
}
