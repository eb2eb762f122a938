# sber-ar-vr-opencv in Dafny

A verified model of the repository's own logic around OpenCV, in two apps.

**stitcherapp** builds a three-image panorama.
- `put_on_canvas` centres each image vertically on an 800-row black canvas, using C++ truncating division.
- `ThreeImagesStitcher::get_homography` detects features with SURF (type 1) or SIFT (type 2) and matches them with k = 2. It filters the matches by Lowe's ratio test (threshold 0.7), collects the point correspondences and hands them to RANSAC.
- `stitch_left` and `stitch_right` warp one image into a widened frame and paste the other over it.
- `stitch` composes two such stitches in the order its mode (0, 1 or 2) selects. Any other mode produces an empty panorama.

**testapp** calibrates a phone camera against a chessboard.
- The instance class in `camera_calibration.cpp` records corner sets, refusing new ones once it holds 20.
- The static class in `camera-calibration.cpp` holds at most 16. When full, it overwrites the front entry with the last one, drops the last slot and pushes the new corners.
- Both build the board's object-space corner grid, replicate it once per recorded view and call `calibrateCamera` with an identity camera matrix and eight zero distortion coefficients.
- The calibration screen's Kotlin listener drives the instance class:
  - the first frame sets the sizes (a 10 by 6 board of 50-unit squares);
  - `takeSnapshot` arms a one-shot flag; the next frame records its corners if the board is found in it and fewer than 20 are held, and clears the flag either way;
  - `calibrateCamera` returns both matrices.
- An older all-Kotlin listener collects up to 15 views in two parallel lists and calibrates when the camera stops.

OpenCV itself is not modelled. Feature detection, knn matching, `findHomography`, chessboard detection and `calibrateCamera` are function-typed parameters (oracles). An image is a term recording how it was made (loaded, blank canvas, warped, pasted, cropped) together with its size; pixels are not represented. A failed OpenCV assertion, such as a region of interest outside its image, is the `CvException` result.

Modules:
- `Vision`: shared value types.
- `BoardGrid`: the corner grid and `vector::resize`.
- `CustomStitcher` and `StitcherMain`: stitcherapp.
- `CameraCalibration` (cap 20) and `CameraCalibrationStatic` (16, with replacement): the two native classes.
- `SnapshotListener`: the screencamera listener.
- `LegacyListener`: the root-package listener.

Each stateful object is a class whose methods are proved against a state-transition function. The lemmas about those functions state what holds over any sequence of calls.

The stitcher filters matches with a one-way ratio test only: a two-way filter is left as a to-do at `custom_stitcher.cpp:35`, and no ORB detector or brute-force matcher occurs in the code.

The source is inconsistent with itself in five places; the model follows the evident intent.
- `camera_calibration.cpp` defines its members on a lower-case `cameracalibration::`.
- `identifyChessboard` is declared `void` but returns the buffer size. The model returns the size.
- `stitch` is declared to return a `Mat3b` but is defined `void` and writes a file. The model returns the panorama.
- The legacy listener calls `CameraInfo()` with no arguments although the data class has four. The model uses an info with nothing in it.
- The legacy listener's `onCameraViewStopped` assigns to the four fields of `CameraInfo`, which the root-package `CameraInfo.kt` declares as `val`s. The model replaces the whole record instead.

Two defects go further and are listed under "## Findings": `main` as written can never produce a panorama, and the legacy listener's object points are not the board's corners. The model keeps both as written and states the intended behaviour beside them.

## Model

| member | source | states |
|---|---|---|
| CustomStitcher.DetectorFor | stitcherapp/stitcherapp/custom_stitcher.cpp:12-28 | a detector exists exactly for types 1 and 2: SURF with Hessian threshold 400 for 1, SIFT for 2 |
| CustomStitcher.Detect | stitcherapp/stitcherapp/custom_stitcher.cpp:9-28 | with no matching detector the keypoints and descriptors stay empty; otherwise they are the chosen detector's |
| CustomStitcher.RatioTest | stitcherapp/stitcherapp/custom_stitcher.cpp:36-44 | the loop keeps exactly the matches of the ratio-test specification GoodMatches |
| CustomStitcher.PassingIndicesAscending | stitcherapp/stitcherapp/custom_stitcher.cpp:38-44 | the kept indices are indices of entries, at most one per entry, in strictly ascending order |
| CustomStitcher.GoodMatchesLength | stitcherapp/stitcherapp/custom_stitcher.cpp:38-44 | exactly one match is kept per passing entry |
| CustomStitcher.GoodMatchAt | stitcherapp/stitcherapp/custom_stitcher.cpp:40-42 | kept match k is the nearest neighbour of the k-th passing entry |
| CustomStitcher.GoodMatchesAtPassingIndices | stitcherapp/stitcherapp/custom_stitcher.cpp:38-44 | kept matches and passing entries line up one to one, each kept match being its entry's nearest neighbour |
| CustomStitcher.PassingIndicesExact | stitcherapp/stitcherapp/custom_stitcher.cpp:40 | an entry is kept if and only if its nearest distance is below 0.7 times the second-nearest |
| CustomStitcher.GoodMatchesAreThePassingEntries | stitcherapp/stitcherapp/custom_stitcher.cpp:36-44 | the ratio test keeps entry i's best match exactly when entry i passes, nothing else, and in entry order |
| CustomStitcher.ExtractCorrespondences | stitcherapp/stitcherapp/custom_stitcher.cpp:46-50 | correspondence k pairs the query keypoint and the train keypoint of kept match k |
| CustomStitcher.HomographyEstimate | stitcherapp/stitcherapp/custom_stitcher.cpp:7-53 | get_homography as a value: there is a matrix exactly when at least four matches pass the ratio test |
| CustomStitcher.GetHomography | stitcherapp/stitcherapp/custom_stitcher.cpp:7-53 | there is a homography exactly when at least four matches pass the ratio test, and then it is RANSAC's estimate from their query and train points; otherwise the call fails |
| CustomStitcher.NoDetectorNoHomography | stitcherapp/stitcherapp/custom_stitcher.cpp:7-53 | with a detector type other than 1 and 2 nothing is matched, the loops stay in bounds, and there is no homography |
| CustomStitcher.Translation | stitcherapp/stitcherapp/custom_stitcher.cpp:56-58 | move_into_frame is the identity with entry (0, 2) increased by left.cols |
| CustomStitcher.TranslationAddsToTopRow | stitcherapp/stitcherapp/custom_stitcher.cpp:56-61 | the product adds dx times the homography's bottom row to its top row and keeps the other rows |
| CustomStitcher.TranslationShiftsRight | stitcherapp/stitcherapp/custom_stitcher.cpp:56-64 | the composed warp maps each point left.cols columns to the right of where the homography maps it, at the same row |
| CustomStitcher.CopyInto | stitcherapp/stitcherapp/custom_stitcher.cpp:65-66 | copying into a region succeeds exactly when the region lies inside the target, and keeps the target's size |
| CustomStitcher.Crop | stitcherapp/stitcherapp/custom_stitcher.cpp:113-114 | cropping succeeds exactly when the rectangle lies inside the image, and has the rectangle's size |
| CustomStitcher.StitchLeft | stitcherapp/stitcherapp/custom_stitcher.cpp:55-69 | succeeds exactly when the homography left to right is estimated, left is non-empty (warpPerspective refuses an empty source) and right is no taller than left; the result is l+r wide and left.rows tall, left warped by translation times homography with right pasted at column left.cols |
| CustomStitcher.StitchRight | stitcherapp/stitcherapp/custom_stitcher.cpp:71-88 | succeeds exactly when the homography right to left is estimated, right is non-empty (warpPerspective refuses an empty source) and left is no taller than right; the result is l + 2r (side image) or l + r wide and right.rows tall, right warped by its homography with left pasted at the origin |
| CustomStitcher.Stitch | stitcherapp/stitcherapp/custom_stitcher.cpp:91-117 | modes 0, 1 and 2 produce a panorama when they succeed; any other mode leaves it empty |
| CustomStitcher.CleanCutCols | stitcherapp/stitcherapp/custom_stitcher.cpp:113 | the kept width is the largest whole number of columns not above nine tenths of the first stitch's width |
| CustomStitcher.ReferenceImage | stitcherapp/stitcherapp/custom_stitcher.cpp:55-116 | each mode keeps one input unwarped as the reference frame: the right image at column l+m in mode 0, the middle at column l in mode 1, the left at the origin in mode 2; the bottom layer is the warped left image in mode 0 and the warped right image in modes 1 and 2 |
| CustomStitcher.ReferenceImageMode0 | stitcherapp/stitcherapp/custom_stitcher.cpp:98-102 | mode 0 places the right image unwarped at column l+m, over the warped left image |
| CustomStitcher.ReferenceImageMode1 | stitcherapp/stitcherapp/custom_stitcher.cpp:104-108 | mode 1 places the middle image unwarped at column l, over the warped right image |
| CustomStitcher.ReferenceImageMode2 | stitcherapp/stitcherapp/custom_stitcher.cpp:110-115 | mode 2 places the left image unwarped at the origin, through the clean cut, over the warped right image |
| CustomStitcher.FirstHomographyNeeded | stitcherapp/stitcherapp/custom_stitcher.cpp:97-116 | a mode fails when the homography of its first pair is not estimated (middle to right, left to middle, middle to left) |
| CustomStitcher.PanoramaSize | stitcherapp/stitcherapp/custom_stitcher.cpp:97-116 | with every homography estimated, per mode, the exact conditions under which it succeeds (the images it warps non-empty, the heights ordered so every paste fits), and the panorama's width (l+m+r, l+m+2r, 9/10(l+m)+2r) and height |
| CustomStitcher.PanoramaSizeMode0 | stitcherapp/stitcherapp/custom_stitcher.cpp:98-102 | mode 0 succeeds exactly when middle and left are non-empty and r <= m <= l in rows, giving l+m+r columns and left's rows |
| CustomStitcher.PanoramaSizeMode1 | stitcherapp/stitcherapp/custom_stitcher.cpp:104-108 | mode 1 succeeds exactly when left and right are non-empty and m <= l <= r in rows, giving l+m+2r columns and right's rows |
| CustomStitcher.PanoramaSizeMode2 | stitcherapp/stitcherapp/custom_stitcher.cpp:110-115 | mode 2 succeeds exactly when middle and right are non-empty and l <= m <= r in rows, giving 9/10(l+m)+2r columns and right's rows |
| CustomStitcher.EqualHeightsStitch | stitcherapp/stitcherapp/custom_stitcher.cpp:97-116 | with every homography estimated, three non-empty images of one height always stitch in modes 0-2, into a panorama of that height |
| StitcherMain.TruncDiv | stitcherapp/stitcherapp/main.cpp:19 | C++ division truncates toward zero: the remainder lies in [0, b) for a non-negative dividend and in (-b, 0] for a negative one |
| StitcherMain.TopMargin | stitcherapp/stitcherapp/main.cpp:19 | the top margin is half the spare height, short of it by at most one row, toward zero when the image is taller than the canvas |
| StitcherMain.PutOnCanvas | stitcherapp/stitcherapp/main.cpp:13-23 | succeeds exactly when the image is non-empty and no taller than the target; the canvas is cols by target, the image sits at column 0, and the bottom margin equals the top one or exceeds it by one row |
| StitcherMain.MainHomography | stitcherapp/stitcherapp/main.cpp:29-34 | the get_homography of main's stitcher, built with detector 0, fails for every pair of images |
| StitcherMain.StitchCanvases | stitcherapp/stitcherapp/main.cpp:30-35 | main's body for any get_homography: it succeeds only when all three images are non-empty and at most 800 rows tall, and then yields a panorama |
| StitcherMain.RunMain | stitcherapp/stitcherapp/main.cpp:25-38 | main as written ends in a cv::Exception whatever the images, matcher and estimator: its stitcher never has a homography |
| StitcherMain.MainNeverStitches | stitcherapp/stitcherapp/main.cpp:29-35 | stitching the canvases with detector 0 always ends in a cv::Exception, at the first stitch when the canvases are made |
| StitcherMain.MainPanorama | stitcherapp/stitcherapp/main.cpp:25-38 | main as intended, with every homography estimated: with three non-empty images at most 800 rows tall the panorama is 800 rows and c1 + c2 + 2 c3 columns; otherwise main fails |
| StitcherMain.MainDetectsNothing | stitcherapp/stitcherapp/main.cpp:27-34 | main's detector 0 matches no detector case, so no keypoints or descriptors are computed |
| BoardGrid.GridLength | testapp/app/src/main/cpp/camera_calibration.cpp:37-42 | the nested loops emit height * width corners |
| BoardGrid.GridAt | testapp/app/src/main/cpp/camera_calibration.cpp:37-42 | point i * width + j of the grid is corner (j * square, i * square, 0) |
| BoardGrid.GridRowMajor | testapp/app/src/main/cpp/camera_calibration.cpp:37-42 | the grid is the board's corners in row-major order |
| BoardGrid.WidenFirstRow | testapp/app/src/main/cpp/camera_calibration.cpp:49 | only point width-1 changes, and only its x, which becomes square*(width-1) to the right of point 0's |
| BoardGrid.WidenFirstRowIsNoOp | testapp/app/src/main/cpp/camera_calibration.cpp:45-49 | calibrate's overwrite of point width-1 with x0 + square*(width-1) stores the value already there |
| BoardGrid.Resize | testapp/app/src/main/cpp/camera_calibration.cpp:50 | vector::resize keeps the first n elements and pads with copies of the fill value |
| BoardGrid.ResizeReplicates | testapp/app/src/main/cpp/camera_calibration.cpp:47-50 | resizing the one-grid vector to n views gives n copies of the grid |
| CameraCalibration.Recorded | testapp/app/src/main/cpp/camera_calibration.cpp:21-34 | one frame appends its corners exactly when the board is found, a snapshot is asked for and fewer than 20 are held; otherwise the buffer is unchanged |
| CameraCalibration.RecordAllKeepsEarliest | testapp/app/src/main/cpp/camera_calibration.cpp:25-30 | over any calls, the buffer is its old contents followed by the first snapshots that fit below 20, in order |
| CameraCalibration.SnapshotsCapped | testapp/app/src/main/cpp/camera_calibration.cpp:27-29 | the buffer holds min(initial + snapshots, 20) entries, and a full buffer never changes |
| CameraCalibration.CameraCalibration.constructor | testapp/app/src/main/cpp/camera_calibration.h:20-25 | no sizes and no recorded views |
| CameraCalibration.CameraCalibration.SetSizes | testapp/app/src/main/cpp/camera_calibration.cpp:5-9 | stores board size, image size and square size |
| CameraCalibration.CameraCalibration.IdentifyChessboard | testapp/app/src/main/cpp/camera_calibration.cpp:11-35 | the buffer becomes Recorded of the old one, stays within 20, and the returned count is its size |
| CameraCalibration.CameraCalibration.CalcBoardCornerPositions | testapp/app/src/main/cpp/camera_calibration.cpp:37-42 | the result is the board's row-major corner grid, whatever obj held before |
| CameraCalibration.CameraCalibration.Calibrate | testapp/app/src/main/cpp/camera_calibration.cpp:44-61 | the two results are calibrateCamera's estimates from one copy of the board grid per recorded view, the recorded views, the image size, the identity and eight zeros |
| CameraCalibrationStatic.MoveLastToFront | testapp/app/src/main/cpp/camera-calibration.cpp:26-27 | the front takes the last entry's value, the last slot goes, the middle is unchanged |
| CameraCalibrationStatic.Recorded | testapp/app/src/main/cpp/camera-calibration.cpp:23-30 | on a found board in snapshot mode the new corners become the last entry; up to 15 held they are appended, above 15 the old last moves to the front first and the size stays; otherwise nothing changes; at most 16 entries |
| CameraCalibrationStatic.RecordAllSizeAndNewest | testapp/app/src/main/cpp/camera-calibration.cpp:23-30 | over any calls the buffer holds min(initial + snapshots, 16) entries, the newest snapshot last |
| CameraCalibrationStatic.FullBufferKeepsMiddle | testapp/app/src/main/cpp/camera-calibration.cpp:25-29 | once 16 are held, entries 1 to 14 never change again |
| CameraCalibrationStatic.RecordAllEntriesFromSnapshots | testapp/app/src/main/cpp/camera-calibration.cpp:23-30 | every entry held was held at the start or came from a snapshot |
| CameraCalibrationStatic.CameraCalibration.constructor | testapp/app/src/main/cpp/camera-calibration.h:20-23 | the static initialisers: empty sizes, square size 0, no views |
| CameraCalibrationStatic.CameraCalibration.SetSizes | testapp/app/src/main/cpp/camera-calibration.cpp:3-7 | stores board size, image size and square size |
| CameraCalibrationStatic.CameraCalibration.IdentifyChessboard | testapp/app/src/main/cpp/camera-calibration.cpp:9-35 | the buffer becomes Recorded of the old one, stays within 16, and the returned count is its size |
| CameraCalibrationStatic.CameraCalibration.CalcBoardCornerPositions | testapp/app/src/main/cpp/camera-calibration.cpp:37-42 | the result is the board's row-major corner grid |
| CameraCalibrationStatic.CameraCalibration.Calibrate | testapp/app/src/main/cpp/camera-calibration.cpp:44-62 | the two results are calibrateCamera's estimates from one copy of the board grid per recorded view, with the identity and eight zeros as initial values |
| SnapshotListener.Step | testapp/app/src/main/java/com/example/testapp/screencamera/CvCameraViewListener.kt:25-42 | a snapshot only raises the flag; a frame sets the sizes (10 by 6, the frame's size, 50) if not yet set and otherwise keeps them, records as identify_chessboard does under the flag, posts the count and lowers the flag |
| SnapshotListener.RunRecordsCalls | testapp/app/src/main/java/com/example/testapp/screencamera/CvCameraViewListener.kt:34-42 | over any events the native buffer is RecordAll over one call per frame, flagged when a snapshot came since the previous frame |
| SnapshotListener.RunKeepsEarliest | testapp/app/src/main/java/com/example/testapp/screencamera/CvCameraViewListener.kt:34-35 | over any events the views held are the old ones followed by the first requested snapshots that fit below 20 |
| SnapshotListener.SizesSetByFirstFrame | testapp/app/src/main/java/com/example/testapp/screencamera/CvCameraViewListener.kt:29-32 | the sizes are set from the first frame and never change afterwards; before any frame they are untouched |
| SnapshotListener.AtMostOneViewPerSnapshot | testapp/app/src/main/java/com/example/testapp/screencamera/CvCameraViewListener.kt:34-42 | each snapshot request records at most one view |
| SnapshotListener.FirstFrame | testapp/app/src/main/java/com/example/testapp/screencamera/CvCameraViewListener.kt:29-32 | the frame that sets the sizes is the first frame event: every event before it is a snapshot; there is none only when every event is a snapshot |
| SnapshotListener.MatHandle.constructor | testapp/app/src/main/java/com/example/testapp/screencamera/CvCameraViewListener.kt:46-47 | Mat() is empty |
| SnapshotListener.CvCameraViewListener.constructor | testapp/app/src/main/java/com/example/testapp/screencamera/CvCameraViewListener.kt:11-19 | both flags are down, nothing is posted, and the native object is freshly constructed |
| SnapshotListener.CvCameraViewListener.OnCameraFrame | testapp/app/src/main/java/com/example/testapp/screencamera/CvCameraViewListener.kt:25-38 | one Frame step of the listener and its native object |
| SnapshotListener.CvCameraViewListener.TakeSnapshot | testapp/app/src/main/java/com/example/testapp/screencamera/CvCameraViewListener.kt:40-42 | one Snapshot step |
| SnapshotListener.CvCameraViewListener.CalibrateCamera | testapp/app/src/main/java/com/example/testapp/screencamera/CvCameraViewListener.kt:44-56 | two fresh, distinct Mats hold the native camera matrix and distortion coefficients, and the info carries both handles and their contents |
| LegacyListener.ObjPoints | testapp/app/src/main/java/com/example/testapp/CvCameraViewListener.kt:74-81 | as written: 70 points, point j being (j / 10.0, j mod 7, 0) |
| LegacyListener.LatticeObjPoints | testapp/app/src/main/java/com/example/testapp/CvCameraViewListener.kt:74-81 | as intended: 70 points, point j being the board corner (j mod 10, j div 10, 0) |
| LegacyListener.CreateObjPoints | testapp/app/src/main/java/com/example/testapp/CvCameraViewListener.kt:74-81 | the loop builds exactly ObjPoints, the points as written |
| LegacyListener.ObjPointsMissLattice | testapp/app/src/main/java/com/example/testapp/CvCameraViewListener.kt:76-78 | the points as written agree with the board lattice at the origin and at no other index |
| LegacyListener.ObjPointOffLattice | testapp/app/src/main/java/com/example/testapp/CvCameraViewListener.kt:78 | for j > 0 the written x, j / 10.0, is never the lattice column j mod 10 |
| LegacyListener.FrameStep | testapp/app/src/main/java/com/example/testapp/CvCameraViewListener.kt:42-70 | the frame's size becomes imageSize; both lists grow by one (the object points and the corners) exactly when the board is found and fewer than 15 are held, and are otherwise unchanged |
| LegacyListener.RunFramesParallel | testapp/app/src/main/java/com/example/testapp/CvCameraViewListener.kt:42-70 | over any frames the two lists stay parallel and within 15, each added object entry is the createObjPoints list as written, imageSize is the last frame's, cameraInfo is untouched |
| LegacyListener.RunFramesKeepsEarliest | testapp/app/src/main/java/com/example/testapp/CvCameraViewListener.kt:57-68 | over any frames the image points gain, in order, the corners of the first found boards that fit below 15 |
| LegacyListener.RunFramesViews | testapp/app/src/main/java/com/example/testapp/CvCameraViewListener.kt:42-70 | over any frames the lists hold min(initial + found, 15) views: the first found corners in order, each with the createObjPoints list as written |
| LegacyListener.Stopped | testapp/app/src/main/java/com/example/testapp/CvCameraViewListener.kt:24-40 | only cameraInfo changes: calibrateCamera's four results when a frame was seen, the untouched 3 by 3 matrix and empty results otherwise |
| LegacyListener.StoppedIdempotent | testapp/app/src/main/java/com/example/testapp/CvCameraViewListener.kt:24-40 | stopping twice gives the same state as stopping once |
| LegacyListener.CvCameraViewListener.constructor | testapp/app/src/main/java/com/example/testapp/CvCameraViewListener.kt:11-18 | empty lists, no image size, an empty info |
| LegacyListener.CvCameraViewListener.OnCameraViewStarted | testapp/app/src/main/java/com/example/testapp/CvCameraViewListener.kt:20-22 | cameraInfo is reset; the collected views are kept |
| LegacyListener.CvCameraViewListener.OnCameraFrame | testapp/app/src/main/java/com/example/testapp/CvCameraViewListener.kt:42-70 | one FrameStep; the lists stay parallel, within 15, every object entry the createObjPoints list as written |
| LegacyListener.CvCameraViewListener.OnCameraViewStopped | testapp/app/src/main/java/com/example/testapp/CvCameraViewListener.kt:24-40 | one Stopped step |

## Left out

- OpenCV is not modelled. Feature detection, FLANN knn matching, RANSAC, `warpPerspective`'s pixels, chessboard detection and sub-pixel refinement, `calibrateCamera`, colour conversion and corner drawing are oracles or are omitted. Two library behaviours are modelled because the stitcher depends on them: `knnMatch` returns no matches for an empty query, and `findHomography` gives no usable matrix from fewer than four correspondences.
- CustomStitcher.FindHomography: from four or more correspondences RANSAC always yields a matrix; a degenerate point set for which OpenCV finds no homography is not modelled.
- Pixels are not modelled. An image is its size and the way it was made; `cv::resize` to the same size is treated as a copy.
- File I/O is not modelled: `imread` becomes the input images, and `imwrite` of the panorama (including of an empty panorama) is left out.
- The stitch geometry takes `get_homography` as a parameter. Its steps are modelled by `CustomStitcher.GetHomography` and `CustomStitcher.HomographyEstimate`, and `main` builds the parameter from them in `StitcherMain.MainHomography`.
- CustomStitcher.PanoramaSize, CustomStitcher.EqualHeightsStitch and StitcherMain.MainPanorama: assume every homography is estimated (`Estimates`). Without that, `CustomStitcher.FirstHomographyNeeded` and `StitcherMain.RunMain` say what fails.
- Floating point: coordinates, distances and matrices are reals. `cols*0.9` converted to int is modelled as `cols*9/10`, which may differ from the double computation by one column.
- CustomStitcher.GetHomography: requires (`Matchable`) every knn entry to hold two neighbours and every kept match to index existing keypoints. The source reads those without checking, which is undefined behaviour otherwise.
- CameraCalibration.CameraCalibration.Calibrate and CameraCalibrationStatic.CameraCalibration.Calibrate: require a board at least 1 by 1. Otherwise the source writes to element width-1 of an empty or short vector.
- SnapshotListener.CvCameraViewListener.CalibrateCamera: requires that a frame has set the sizes, for the same reason.
- CameraCalibration.CameraCalibration.constructor: the declared constructor has no definition and leaves `square_size` uninitialised. The model starts it at 0.
- CameraCalibrationStatic.CameraCalibration: the static members are modelled as the fields of one object. `newObjPoints`, which is assigned but never read, is omitted.
- LegacyListener.Stopped: the uninitialised 3 by 3 `Mat` is modelled as zeros.
- CameraCalibration.CameraCalibration.Calibrate, CameraCalibrationStatic.CameraCalibration.Calibrate, SnapshotListener.CvCameraViewListener.CalibrateCamera and LegacyListener.Stopped: `calibrateCamera` is assumed to return, even with zero recorded views. OpenCV raises in that case, so the program would throw and leave `cameraInfo` (or the returned matrices) unset; the model instead stores the oracle's result. In the legacy listener this is the ordinary case of stopping the camera before any board is found.
- LegacyListener.CameraInfo: the fields are strings built with `toString()`. The model keeps the matrices themselves, not their text. The same goes for `dump()` in the screencamera listener's info.
- LiveData posting is modelled as the last posted value. Threads, the camera lifecycle and the UI are not modelled.
- `detect_aruco_marker`, `undistortImage`, the JNI glue in `native_lib.cpp` / `native-lib.cpp` (including `adaptiveThreshold`), and the fragments and activity are not part of this model.

## Findings

| source | as written | input that shows it | evidently intended | confidence | as-written member | corrected member |
|---|---|---|---|---|---|---|
| stitcherapp/stitcherapp/main.cpp:29 | the stitcher is built with detector 0, which neither case of `get_homography`'s switch handles, so no features are detected, no correspondences formed, and the first stitch has no homography | any three images | a detector that finds features (1 for SURF or 2 for SIFT), so that every homography is estimated and the panorama is 800 rows by c1 + c2 + 2 c3 columns | high; not executed | StitcherMain.RunMain | StitcherMain.MainPanorama |
| testapp/app/src/main/java/com/example/testapp/CvCameraViewListener.kt:78 | point j is `Point3(j / boardWidth, j % boardHeight, 0.0)` on Doubles | j = 1 gives (0.1, 1, 0), which is no corner of the board | point j is the corner in column j mod 10 and row j div 10, the row-major lattice the native classes build | medium; not executed | LegacyListener.ObjPointsMissLattice | LegacyListener.LatticeObjPoints |
