// testapp/app/src/main/java/com/example/testapp/screencamera/CvCameraViewListener.kt:
// the camera listener of the calibration screen. It hands every frame to the
// native CameraCalibration object (the global of native_lib.cpp): the first
// frame fixes the sizes, every frame is searched for the chessboard, and a
// frame that follows takeSnapshot() is asked to record its corners.
module SnapshotListener {
  import opened Vision
  import opened BoardGrid
  import CC = CameraCalibration

  /** The listener's constants: a 10 by 6 board of 50-unit squares. */
  const BoardWidth: int := 10
  const BoardHeight: int := 6
  const SquareSize: int := 50
  const Board: Size := Size(BoardWidth, BoardHeight)

  /** What the listener is driven by: camera frames and the snapshot button. */
  datatype Event = Frame(frame: CameraFrame) | Snapshot

  /**
   * The listener's flags together with the native object's fields and the last
   * value posted to imagePointsCount (None before the first frame).
   */
  datatype State = State(
    sizesSet: bool,
    modeTakeSnapshot: bool,
    boardSize: Size,
    imageSize: Size,
    squareSize: int,
    imagePoints: seq<Corners>,
    posted: Option<int>)

  /** Both flags down, the native object as constructed, nothing posted. */
  function Initial(): State {
    State(false, false, Size(0, 0), Size(0, 0), 0, [], None)
  }

  /**
   * One event. takeSnapshot only raises the flag. onCameraFrame sets the sizes
   * on the first frame only, lets identify_chessboard record the corners when
   * the flag is up, posts the returned count and lowers the flag.
   */
  function Step(s: State, e: Event): (t: State)
    ensures e.Snapshot? ==> t.modeTakeSnapshot && t.(modeTakeSnapshot := s.modeTakeSnapshot) == s
    ensures e.Frame? ==> t.sizesSet && !t.modeTakeSnapshot && t.posted == Some(|t.imagePoints|)
    ensures e.Frame? ==> t.imagePoints == CC.Recorded(s.imagePoints, e.frame, s.modeTakeSnapshot)
    ensures e.Frame? && s.sizesSet ==>
      (t.boardSize, t.imageSize, t.squareSize) == (s.boardSize, s.imageSize, s.squareSize)
    ensures e.Frame? && !s.sizesSet ==>
      (t.boardSize, t.imageSize, t.squareSize) == (Board, e.frame.size, SquareSize)
  {
    match e
    case Snapshot => s.(modeTakeSnapshot := true)
    case Frame(frame) =>
      var sized :=
        if s.sizesSet then s
        else s.(boardSize := Board, imageSize := frame.size, squareSize := SquareSize, sizesSet := true);
      var points := CC.Recorded(sized.imagePoints, frame, sized.modeTakeSnapshot);
      sized.(imagePoints := points, posted := Some(|points|), modeTakeSnapshot := false)
  }

  function Run(s: State, events: seq<Event>): State
    decreases |events|
  {
    if events == [] then s else Step(Run(s, events[..|events| - 1]), events[|events| - 1])
  }

  /** The snapshot flag after the events, starting from `flag`. */
  function Pending(flag: bool, events: seq<Event>): bool
    decreases |events|
  {
    if events == [] then flag
    else if events[|events| - 1].Snapshot? then true
    else false
  }

  /**
   * The identify_chessboard calls the events cause: one per frame, whose
   * snapshot flag says whether a snapshot was requested since the previous frame.
   */
  function Calls(flag: bool, events: seq<Event>): seq<Call>
    decreases |events|
  {
    if events == [] then []
    else
      var init := events[..|events| - 1];
      match events[|events| - 1]
      case Snapshot => Calls(flag, init)
      case Frame(frame) => Calls(flag, init) + [Call(frame, Pending(flag, init))]
  }

  /** The first frame among the events, if any. */
  function FirstFrame(events: seq<Event>): (r: Option<CameraFrame>)
    ensures r.Some? ==> exists k :: 0 <= k < |events| && events[k] == Frame(r.value)
                                   && forall m :: 0 <= m < k ==> events[m].Snapshot?
    ensures r.None? ==> forall e :: e in events ==> e.Snapshot?
    decreases |events|
  {
    if events == [] then None
    else
      var init := events[..|events| - 1];
      match FirstFrame(init)
      case Some(frame) =>
        assert forall k :: 0 <= k < |init| ==> events[k] == init[k];
        Some(frame)
      case None =>
        assert forall m :: 0 <= m < |init| ==> events[m] in init;
        if events[|events| - 1].Frame? then Some(events[|events| - 1].frame) else None
  }

  function SnapshotCount(events: seq<Event>): nat
    decreases |events|
  {
    if events == [] then 0
    else SnapshotCount(events[..|events| - 1]) + (if events[|events| - 1].Snapshot? then 1 else 0)
  }

  /**
   * The listener drives the native buffer exactly as the call sequence Calls
   * would: its recorded views are RecordAll over those calls, and its flag is
   * the pending one.
   */
  lemma {:induction false} RunRecordsCalls(s: State, events: seq<Event>)
    ensures Run(s, events).imagePoints == CC.RecordAll(s.imagePoints, Calls(s.modeTakeSnapshot, events))
    ensures Run(s, events).modeTakeSnapshot == Pending(s.modeTakeSnapshot, events)
    decreases |events|
  {
    if events != [] {
      var init := events[..|events| - 1];
      RunRecordsCalls(s, init);
      var before := Calls(s.modeTakeSnapshot, init);
      match events[|events| - 1]
      case Snapshot =>
      case Frame(frame) =>
        var after := before + [Call(frame, Pending(s.modeTakeSnapshot, init))];
        assert after[..|after| - 1] == before;
    }
  }

  /**
   * Hence, from at most CC.MaxSnapshots views, the listener keeps its views and
   * appends the corners of the first requested snapshots that fit, in order.
   */
  lemma RunKeepsEarliest(s: State, events: seq<Event>)
    requires |s.imagePoints| <= CC.MaxSnapshots
    ensures var shots := SnapshotCorners(Calls(s.modeTakeSnapshot, events));
      Run(s, events).imagePoints == s.imagePoints + shots[..Min(|shots|, CC.MaxSnapshots - |s.imagePoints|)]
    ensures |Run(s, events).imagePoints| <= CC.MaxSnapshots
  {
    RunRecordsCalls(s, events);
    CC.RecordAllKeepsEarliest(s.imagePoints, Calls(s.modeTakeSnapshot, events));
  }

  /**
   * The sizes are set by the first frame (board 10 by 6, the frame's own size,
   * squares of 50) and never again; before the first frame they stay as they were.
   */
  lemma {:induction false} SizesSetByFirstFrame(s: State, events: seq<Event>)
    ensures var t := Run(s, events);
      && t.sizesSet == (s.sizesSet || FirstFrame(events).Some?)
      && (s.sizesSet || FirstFrame(events).None? ==>
            (t.boardSize, t.imageSize, t.squareSize) == (s.boardSize, s.imageSize, s.squareSize))
      && (!s.sizesSet && FirstFrame(events).Some? ==>
            (t.boardSize, t.imageSize, t.squareSize) == (Board, FirstFrame(events).value.size, SquareSize))
    decreases |events|
  {
    if events != [] {
      SizesSetByFirstFrame(s, events[..|events| - 1]);
    }
  }

  /**
   * Each snapshot request records at most one view: the views added, plus one
   * for a request still pending, never exceed the requests made (counting one
   * already pending at the start).
   */
  lemma {:induction false} AtMostOneViewPerSnapshot(s: State, events: seq<Event>)
    ensures var t := Run(s, events);
      |t.imagePoints| - |s.imagePoints| + (if t.modeTakeSnapshot then 1 else 0)
        <= SnapshotCount(events) + (if s.modeTakeSnapshot then 1 else 0)
    decreases |events|
  {
    if events != [] {
      AtMostOneViewPerSnapshot(s, events[..|events| - 1]);
    }
  }

  /** A native matrix handle: the Kotlin Mat whose address is passed to the native side. */
  class MatHandle {
    var value: Matrix

    /** Mat(): an empty matrix. */
    constructor ()
      ensures value == []
    {
      value := [];
    }
  }

  /** models.CameraInfo: the two handles and the text dumps of their contents. */
  datatype CameraInfo = CameraInfo(matrix: MatHandle, dist: MatHandle, matDump: Matrix, distDump: Matrix)

  /** The listener object together with the native global it drives. */
  class CvCameraViewListener {
    const native: CC.CameraCalibration
    var sizesSet: bool
    var modeTakeSnapshot: bool
    var imagePointsCount: Option<int>

    ghost predicate Valid()
      reads this, native
    {
      && native.Valid()
      && (sizesSet ==> native.boardSize == Board && native.squareSize == SquareSize)
    }

    ghost function Abstract(): State
      reads this, native
    {
      State(sizesSet, modeTakeSnapshot, native.boardSize, native.imageSize, native.squareSize,
            native.imagePoints, imagePointsCount)
    }

    constructor ()
      ensures Valid() && fresh(native)
      ensures Abstract() == Initial()
    {
      native := new CC.CameraCalibration();
      sizesSet := false;
      modeTakeSnapshot := false;
      imagePointsCount := None;
    }

    /** onCameraFrame: one Frame step (the frame is returned as drawn, which is not modelled). */
    method OnCameraFrame(frame: CameraFrame)
      requires Valid()
      modifies this, native
      ensures Valid()
      ensures Abstract() == Step(old(Abstract()), Frame(frame))
    {
      if !sizesSet {
        native.SetSizes(Board, frame.size, SquareSize);
        sizesSet := true;
      }
      var count := native.IdentifyChessboard(frame, modeTakeSnapshot);
      imagePointsCount := Some(count);
      modeTakeSnapshot := false;
    }

    /** takeSnapshot: one Snapshot step. */
    method TakeSnapshot()
      requires Valid()
      modifies this`modeTakeSnapshot
      ensures Valid()
      ensures Abstract() == Step(old(Abstract()), Snapshot)
    {
      modeTakeSnapshot := true;
    }

    /**
     * calibrateCamera: two fresh, distinct Mats receive the native calibrate's
     * camera matrix and distortion coefficients, and the info carries both
     * handles and their contents. The native object needs its sizes set first:
     * with the default 0 by 0 board, calibrate writes before the grid's start.
     */
    method CalibrateCamera(calibrateCamera: CalibrateCameraFn) returns (info: CameraInfo)
      requires Valid() && sizesSet
      ensures fresh(info.matrix) && fresh(info.dist) && info.matrix != info.dist
      ensures var objectPoints := Replicate(BoardCorners(Board, SquareSize), |native.imagePoints|);
              var (matrix, dist) := calibrateCamera(objectPoints, native.imagePoints, native.imageSize, Eye(3), Zeros(8, 1));
              && info.matrix.value == matrix && info.dist.value == dist
              && info.matDump == matrix && info.distDump == dist
    {
      var matrixMat := new MatHandle();
      var distMat := new MatHandle();
      var results := native.Calibrate(calibrateCamera);
      matrixMat.value := results[0];
      distMat.value := results[1];
      info := CameraInfo(matrixMat, distMat, matrixMat.value, distMat.value);
    }
  }
}
