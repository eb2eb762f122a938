// stitcherapp/stitcherapp/custom_stitcher.cpp: ThreeImagesStitcher. Feature
// detection, knn matching, RANSAC homography estimation and warping are
// OpenCV's and appear as oracles; what is modelled is the repository's own
// logic around them: the detector switch, Lowe's ratio test, the
// correspondence lists, the translation that moves a warp into frame, the
// output sizes and paste offsets of the two-image stitches, and the order in
// which each mode composes them.
module CustomStitcher {
  import opened Vision

  // ---------------------------------------------------------------------------
  // Matching (get_homography)
  // ---------------------------------------------------------------------------

  datatype KeyPoint = KeyPoint(pt: Point2)
  datatype DMatch = DMatch(queryIdx: int, trainIdx: int, distance: real)
  type Descriptor = seq<real>
  datatype Features = Features(keypoints: seq<KeyPoint>, descriptors: seq<Descriptor>)

  datatype Detector = Surf(minHessian: int) | Sift

  /** The detector switch: 1 is SURF with a Hessian threshold of 400, 2 is SIFT, anything else neither. */
  function DetectorFor(detectorType: int): (d: Option<Detector>)
    ensures d.Some? <==> detectorType == 1 || detectorType == 2
    ensures detectorType == 1 ==> d == Some(Surf(400))
    ensures detectorType == 2 ==> d == Some(Sift)
  {
    match detectorType
    case 1 => Some(Surf(400))
    case 2 => Some(Sift)
    case _ => None
  }

  /** detectAndCompute of the chosen detector, as an oracle. */
  type DetectAndComputeFn = (Detector, Image) -> Features

  /** The keypoints and descriptors of one image; with no matching detector both stay empty. */
  function Detect(detectorType: int, image: Image, detectAndCompute: DetectAndComputeFn): (f: Features)
    ensures DetectorFor(detectorType).None? ==> f.keypoints == [] && f.descriptors == []
    ensures DetectorFor(detectorType).Some? ==> f == detectAndCompute(DetectorFor(detectorType).value, image)
  {
    match DetectorFor(detectorType)
    case Some(d) => detectAndCompute(d, image)
    case None => Features([], [])
  }

  /** Lowe's ratio threshold, 0.7f. */
  const RatioThresh: real := 0.7

  /** Every knn entry has the two neighbours the ratio test reads. */
  predicate TwoNeighbours(knn: seq<seq<DMatch>>) {
    forall i :: 0 <= i < |knn| ==> |knn[i]| >= 2
  }

  /** The nearest neighbour is clearly closer than the second nearest. */
  predicate PassesRatioTest(entry: seq<DMatch>)
    requires |entry| >= 2
  {
    entry[0].distance < RatioThresh * entry[1].distance
  }

  /** The nearest-neighbour matches of the entries that pass, in entry order. */
  function GoodMatches(knn: seq<seq<DMatch>>): seq<DMatch>
    requires TwoNeighbours(knn)
    decreases |knn|
  {
    if knn == [] then []
    else
      var last := knn[|knn| - 1];
      GoodMatches(knn[..|knn| - 1]) + (if PassesRatioTest(last) then [last[0]] else [])
  }

  /** The indices of the entries that pass, in ascending order. */
  function PassingIndices(knn: seq<seq<DMatch>>): seq<nat>
    requires TwoNeighbours(knn)
    decreases |knn|
  {
    if knn == [] then []
    else
      PassingIndices(knn[..|knn| - 1]) + (if PassesRatioTest(knn[|knn| - 1]) then [|knn| - 1] else [])
  }

  /** The kept indices are indices of entries, in strictly ascending order. */
  lemma {:induction false} PassingIndicesAscending(knn: seq<seq<DMatch>>)
    requires TwoNeighbours(knn)
    ensures var idx := PassingIndices(knn);
      && |idx| <= |knn|
      && (forall k :: 0 <= k < |idx| ==> idx[k] < |knn|)
      && (forall k, l :: 0 <= k < l < |idx| ==> idx[k] < idx[l])
    decreases |knn|
  {
    if knn != [] {
      var prev := knn[..|knn| - 1];
      PassingIndicesAscending(prev);
      var idx := PassingIndices(prev);
      if PassesRatioTest(knn[|knn| - 1]) {
        var idx' := idx + [|knn| - 1];
        assert PassingIndices(knn) == idx';
        forall k, l | 0 <= k < l < |idx'|
          ensures idx'[k] < idx'[l]
        {
          assert idx'[k] == idx[k];
        }
      }
    }
  }

  /** One kept match per kept index. */
  lemma {:induction false} GoodMatchesLength(knn: seq<seq<DMatch>>)
    requires TwoNeighbours(knn)
    ensures |GoodMatches(knn)| == |PassingIndices(knn)|
    decreases |knn|
  {
    if knn != [] {
      GoodMatchesLength(knn[..|knn| - 1]);
    }
  }

  /** Kept match k is the nearest neighbour of the entry at kept index k. */
  lemma {:induction false} GoodMatchAt(knn: seq<seq<DMatch>>, k: nat)
    requires TwoNeighbours(knn)
    requires k < |PassingIndices(knn)|
    ensures PassingIndices(knn)[k] < |knn| && k < |GoodMatches(knn)|
    ensures GoodMatches(knn)[k] == knn[PassingIndices(knn)[k]][0]
    decreases |knn|
  {
    var prev := knn[..|knn| - 1];
    GoodMatchesLength(prev);
    GoodMatchesLength(knn);
    var idx := PassingIndices(prev);
    if k < |idx| {
      GoodMatchAt(prev, k);
      assert PassingIndices(knn)[k] == idx[k];
      assert GoodMatches(knn)[k] == GoodMatches(prev)[k];
      assert knn[idx[k]] == prev[idx[k]];
    }
  }

  /** Kept matches and kept indices line up. */
  lemma GoodMatchesAtPassingIndices(knn: seq<seq<DMatch>>)
    requires TwoNeighbours(knn)
    ensures var idx := PassingIndices(knn);
      && |GoodMatches(knn)| == |idx|
      && (forall k :: 0 <= k < |idx| ==> idx[k] < |knn| && GoodMatches(knn)[k] == knn[idx[k]][0])
  {
    GoodMatchesLength(knn);
    forall k | 0 <= k < |PassingIndices(knn)|
      ensures PassingIndices(knn)[k] < |knn| && GoodMatches(knn)[k] == knn[PassingIndices(knn)[k]][0]
    {
      GoodMatchAt(knn, k);
    }
  }

  /** An entry's index is kept exactly when the entry passes the ratio test. */
  lemma {:induction false} PassingIndicesExact(knn: seq<seq<DMatch>>)
    requires TwoNeighbours(knn)
    ensures forall k :: 0 <= k < |PassingIndices(knn)| ==> PassingIndices(knn)[k] < |knn|
    ensures forall i :: 0 <= i < |knn| ==> (i in PassingIndices(knn) <==> PassesRatioTest(knn[i]))
    decreases |knn|
  {
    if knn != [] {
      var prev := knn[..|knn| - 1];
      PassingIndicesExact(prev);
      assert forall i :: 0 <= i < |prev| ==> prev[i] == knn[i];
    }
  }

  /**
   * The ratio test keeps entry i's nearest neighbour exactly when entry i
   * passes, keeps nothing else, and keeps the kept matches in entry order.
   */
  lemma GoodMatchesAreThePassingEntries(knn: seq<seq<DMatch>>)
    requires TwoNeighbours(knn)
    ensures var idx := PassingIndices(knn);
      && |GoodMatches(knn)| == |idx| <= |knn|
      && (forall k :: 0 <= k < |idx| ==> idx[k] < |knn| && GoodMatches(knn)[k] == knn[idx[k]][0])
      && (forall k, l :: 0 <= k < l < |idx| ==> idx[k] < idx[l])
      && (forall i :: 0 <= i < |knn| ==> (i in idx <==> PassesRatioTest(knn[i])))
  {
    PassingIndicesAscending(knn);
    GoodMatchesAtPassingIndices(knn);
    PassingIndicesExact(knn);
  }

  /** The ratio-test loop of get_homography. */
  method RatioTest(knn: seq<seq<DMatch>>) returns (good: seq<DMatch>)
    requires TwoNeighbours(knn)
    ensures good == GoodMatches(knn)
  {
    good := [];
    for i := 0 to |knn|
      invariant good == GoodMatches(knn[..i])
    {
      assert knn[..i + 1][..i] == knn[..i];
      if knn[i][0].distance < RatioThresh * knn[i][1].distance {
        good := good + [knn[i][0]];
      }
    }
    assert knn[..|knn|] == knn;
  }

  /** Every kept match refers to a keypoint of each image. */
  predicate IndicesInRange(good: seq<DMatch>, keypoints1: seq<KeyPoint>, keypoints2: seq<KeyPoint>) {
    forall k :: 0 <= k < |good| ==>
      0 <= good[k].queryIdx < |keypoints1| && 0 <= good[k].trainIdx < |keypoints2|
  }

  /** The correspondence loop of get_homography. */
  method ExtractCorrespondences(good: seq<DMatch>, keypoints1: seq<KeyPoint>, keypoints2: seq<KeyPoint>)
    returns (points1: seq<Point2>, points2: seq<Point2>)
    requires IndicesInRange(good, keypoints1, keypoints2)
    ensures |points1| == |good| && |points2| == |good|
    ensures forall k :: 0 <= k < |good| ==>
      points1[k] == keypoints1[good[k].queryIdx].pt && points2[k] == keypoints2[good[k].trainIdx].pt
  {
    points1, points2 := [], [];
    for i := 0 to |good|
      invariant |points1| == i && |points2| == i
      invariant forall k :: 0 <= k < i ==>
        points1[k] == keypoints1[good[k].queryIdx].pt && points2[k] == keypoints2[good[k].trainIdx].pt
    {
      points1 := points1 + [keypoints1[good[i].queryIdx].pt];
      points2 := points2 + [keypoints2[good[i].trainIdx].pt];
    }
  }

  /** The first image's point of each correspondence. */
  function QueryPoints(good: seq<DMatch>, keypoints1: seq<KeyPoint>): seq<Point2>
    requires forall k :: 0 <= k < |good| ==> 0 <= good[k].queryIdx < |keypoints1|
  {
    seq(|good|, k requires 0 <= k < |good| => keypoints1[good[k].queryIdx].pt)
  }

  /** The second image's point of each correspondence. */
  function TrainPoints(good: seq<DMatch>, keypoints2: seq<KeyPoint>): seq<Point2>
    requires forall k :: 0 <= k < |good| ==> 0 <= good[k].trainIdx < |keypoints2|
  {
    seq(|good|, k requires 0 <= k < |good| => keypoints2[good[k].trainIdx].pt)
  }

  /** knnMatch with k = 2, and RANSAC's estimate from four or more correspondences, as oracles. */
  type KnnMatchFn = (seq<Descriptor>, seq<Descriptor>) -> seq<seq<DMatch>>
  type FindHomographyFn = (seq<Point2>, seq<Point2>) -> Mat3

  /** DescriptorMatcher::knnMatch returns no matches at all for an empty query. */
  function KnnMatch(query: seq<Descriptor>, train: seq<Descriptor>, knnMatch: KnnMatchFn): seq<seq<DMatch>> {
    if query == [] then [] else knnMatch(query, train)
  }

  /** The matches the pipeline feeds to the ratio test. */
  function KnnMatches(detectorType: int, first: Image, second: Image,
                      detectAndCompute: DetectAndComputeFn, knnMatch: KnnMatchFn): seq<seq<DMatch>>
  {
    KnnMatch(Detect(detectorType, first, detectAndCompute).descriptors,
             Detect(detectorType, second, detectAndCompute).descriptors, knnMatch)
  }

  /** The fewest correspondences a homography can be estimated from. */
  const MinCorrespondences: nat := 4

  /**
   * cv::findHomography. From fewer than four correspondences there is no 3x3
   * matrix: none at all raises, one to three give an empty Mat, which the
   * caller's matrix product or warp then rejects; both end in CvException.
   */
  function FindHomography(points1: seq<Point2>, points2: seq<Point2>, ransac: FindHomographyFn): Result<Mat3> {
    if |points1| < MinCorrespondences then CvException else Ok(ransac(points1, points2))
  }

  /** What get_homography's loops need of the matcher to stay within their vectors. */
  predicate Matchable(detectorType: int, first: Image, second: Image,
                      detectAndCompute: DetectAndComputeFn, knnMatch: KnnMatchFn)
  {
    var knn := KnnMatches(detectorType, first, second, detectAndCompute, knnMatch);
    && TwoNeighbours(knn)
    && IndicesInRange(GoodMatches(knn), Detect(detectorType, first, detectAndCompute).keypoints,
                      Detect(detectorType, second, detectAndCompute).keypoints)
  }

  /** get_homography as a value: findHomography of the kept matches' query and train points. */
  function HomographyEstimate(detectorType: int, first: Image, second: Image,
                              detectAndCompute: DetectAndComputeFn, knnMatch: KnnMatchFn,
                              findHomography: FindHomographyFn): (r: Result<Mat3>)
    requires Matchable(detectorType, first, second, detectAndCompute, knnMatch)
    ensures r.Ok? <==> |GoodMatches(KnnMatches(detectorType, first, second, detectAndCompute, knnMatch))| >= MinCorrespondences
  {
    var good := GoodMatches(KnnMatches(detectorType, first, second, detectAndCompute, knnMatch));
    FindHomography(QueryPoints(good, Detect(detectorType, first, detectAndCompute).keypoints),
                   TrainPoints(good, Detect(detectorType, second, detectAndCompute).keypoints), findHomography)
  }

  /**
   * get_homography: detect, match, filter by the ratio test, and estimate the
   * homography from the kept correspondences, first image to second. There is
   * a matrix exactly when at least four matches pass the ratio test.
   */
  method GetHomography(detectorType: int, first: Image, second: Image,
                       detectAndCompute: DetectAndComputeFn, knnMatch: KnnMatchFn,
                       findHomography: FindHomographyFn) returns (h: Result<Mat3>)
    requires Matchable(detectorType, first, second, detectAndCompute, knnMatch)
    ensures h == HomographyEstimate(detectorType, first, second, detectAndCompute, knnMatch, findHomography)
    ensures var good := GoodMatches(KnnMatches(detectorType, first, second, detectAndCompute, knnMatch));
      && (h.Ok? <==> |good| >= MinCorrespondences)
      && (h.Ok? ==> h.value == findHomography(QueryPoints(good, Detect(detectorType, first, detectAndCompute).keypoints),
                                              TrainPoints(good, Detect(detectorType, second, detectAndCompute).keypoints)))
  {
    var features1 := Detect(detectorType, first, detectAndCompute);
    var features2 := Detect(detectorType, second, detectAndCompute);
    var knnMatches := KnnMatch(features1.descriptors, features2.descriptors, knnMatch);
    var good := RatioTest(knnMatches);
    var points1, points2 := ExtractCorrespondences(good, features1.keypoints, features2.keypoints);
    assert points1 == QueryPoints(good, features1.keypoints);
    assert points2 == TrainPoints(good, features2.keypoints);
    if |points1| < MinCorrespondences {
      h := CvException;
    } else {
      h := Ok(findHomography(points1, points2));
    }
  }

  /**
   * Without a detector (any type but 1 and 2) nothing is detected, so nothing
   * is matched, no correspondence is formed and there is no homography.
   */
  lemma NoDetectorNoHomography(detectorType: int, first: Image, second: Image,
                               detectAndCompute: DetectAndComputeFn, knnMatch: KnnMatchFn,
                               findHomography: FindHomographyFn)
    requires detectorType != 1 && detectorType != 2
    ensures KnnMatches(detectorType, first, second, detectAndCompute, knnMatch) == []
    ensures Matchable(detectorType, first, second, detectAndCompute, knnMatch)
    ensures HomographyEstimate(detectorType, first, second, detectAndCompute, knnMatch, findHomography) == CvException
  {
  }

  // ---------------------------------------------------------------------------
  // 3x3 matrices
  // ---------------------------------------------------------------------------

  type Mat3 = m: Matrix | IsShape(m, 3, 3)
    witness [[1.0, 0.0, 0.0], [0.0, 1.0, 0.0], [0.0, 0.0, 1.0]]

  /** The matrix product a * b. */
  function Mul(a: Mat3, b: Mat3): Mat3 {
    seq(3, i requires 0 <= i < 3 =>
      seq(3, j requires 0 <= j < 3 => a[i][0] * b[0][j] + a[i][1] * b[1][j] + a[i][2] * b[2][j]))
  }

  /** move_into_frame: the 3x3 identity with entry (0, 2) increased by dx. */
  function Translation(dx: int): (t: Mat3)
    ensures forall i, j :: 0 <= i < 3 && 0 <= j < 3 ==>
      t[i][j] == Eye(3)[i][j] + (if i == 0 && j == 2 then dx as real else 0.0)
  {
    [[1.0, 0.0, dx as real], [0.0, 1.0, 0.0], [0.0, 0.0, 1.0]]
  }

  /** One row of a homography applied to the point (x, y, 1). */
  function Affine(row: seq<real>, p: Point2): real
    requires |row| == 3
  {
    row[0] * p.x + row[1] * p.y + row[2]
  }

  /** Where a homography maps a point, unless the point goes to infinity. */
  function Project(m: Mat3, p: Point2): Option<Point2> {
    var w := Affine(m[2], p);
    if w == 0.0 then None else Some(Point2(Affine(m[0], p) / w, Affine(m[1], p) / w))
  }

  /** Left-multiplying the translation adds dx times the bottom row to the top row, and nothing else. */
  lemma TranslationAddsToTopRow(dx: int, h: Mat3)
    ensures var th := Mul(Translation(dx), h);
      && (forall j :: 0 <= j < 3 ==> th[0][j] == h[0][j] + (dx as real) * h[2][j])
      && th[1] == h[1] && th[2] == h[2]
  {
  }

  /** Adding d times row c to row a adds d times c's value at p to a's. */
  lemma ShiftedRow(a: seq<real>, c: seq<real>, d: real, p: Point2)
    requires |a| == 3 && |c| == 3
    ensures Affine([a[0] + d * c[0], a[1] + d * c[1], a[2] + d * c[2]], p) == Affine(a, p) + d * Affine(c, p)
  {
  }

  lemma ShiftedQuotient(top: real, d: real, w: real)
    requires w != 0.0
    ensures (top + d * w) / w == top / w + d
  {
    assert (top / w + d) * w == top + d * w;
  }

  /**
   * Hence the composed warp of stitch_left sends every point dx columns to the
   * right of where h sends it, at the same row, and to infinity exactly when h does.
   */
  lemma TranslationShiftsRight(dx: int, h: Mat3, p: Point2)
    ensures Project(Mul(Translation(dx), h), p) ==
      match Project(h, p)
      case None => None
      case Some(q) => Some(Point2(q.x + dx as real, q.y))
  {
    TranslationAddsToTopRow(dx, h);
    var th := Mul(Translation(dx), h);
    var d := dx as real;
    assert th[2] == h[2] && th[1] == h[1] && |th[0]| == 3;
    assert th[0][0] == h[0][0] + d * h[2][0];
    assert th[0][1] == h[0][1] + d * h[2][1];
    assert th[0][2] == h[0][2] + d * h[2][2];
    assert th[0] == [h[0][0] + d * h[2][0], h[0][1] + d * h[2][1], h[0][2] + d * h[2][2]];
    ShiftedRow(h[0], h[2], d, p);
    var w := Affine(h[2], p);
    assert Affine(th[0], p) == Affine(h[0], p) + d * w;
    assert Affine(th[1], p) == Affine(h[1], p) && Affine(th[2], p) == w;
    if w != 0.0 {
      ShiftedQuotient(Affine(h[0], p), d, w);
      var q := Point2(Affine(h[0], p) / w, Affine(h[1], p) / w);
      assert Project(h, p) == Some(q);
      assert Project(th, p) == Some(Point2(Affine(th[0], p) / w, Affine(th[1], p) / w));
    }
  }

  // ---------------------------------------------------------------------------
  // Images and two-image stitches
  // ---------------------------------------------------------------------------

  /**
   * An image, described by how it was made; pixels are not modelled, only the
   * geometry: its size, what was warped, with which matrix, and what was pasted
   * where.
   */
  datatype Image =
    | Loaded(name: string, width: nat, height: nat)
      // cv::imread
    | Blank(width: nat, height: nat)
      // cv::Mat::zeros
    | Warped(src: Image, transform: Mat3, width: nat, height: nat)
      // warpPerspective(src, ·, transform, Size(width, height))
    | Pasted(base: Image, patch: Image, x: nat, y: nat)
      // patch copied over base's region at (x, y) of the patch's size
    | Cropped(src: Image, width: nat, height: nat)
      // src(Rect(0, 0, width, height))
  {
    /** Mat::cols. */
    function Cols(): nat {
      match this
      case Loaded(_, w, _) => w
      case Blank(w, _) => w
      case Warped(_, _, w, _) => w
      case Pasted(base, _, _, _) => base.Cols()
      case Cropped(_, w, _) => w
    }

    /** Mat::rows. */
    function Rows(): nat {
      match this
      case Loaded(_, _, h) => h
      case Blank(_, h) => h
      case Warped(_, _, _, h) => h
      case Pasted(base, _, _, _) => base.Rows()
      case Cropped(_, _, h) => h
    }
  }

  /** An OpenCV call either returns or raises cv::Exception (a failed assertion). */
  datatype Result<T> = Ok(value: T) | CvException

  /** An image with at least one pixel; warpPerspective refuses any other source. */
  predicate NonEmpty(img: Image) {
    0 < img.Cols() && 0 < img.Rows()
  }

  /** OpenCV's check on Mat::operator()(Rect): the rectangle lies inside the image. */
  predicate RoiInside(img: Image, x: int, y: int, w: int, h: int) {
    0 <= x && 0 <= w && x + w <= img.Cols() && 0 <= y && 0 <= h && y + h <= img.Rows()
  }

  /** `patch.copyTo(base(Rect(x, y, patch.cols, patch.rows)))`. */
  function CopyInto(base: Image, patch: Image, x: int, y: int): (r: Result<Image>)
    ensures r.Ok? <==> RoiInside(base, x, y, patch.Cols(), patch.Rows())
    ensures r.Ok? ==> r.value.Cols() == base.Cols() && r.value.Rows() == base.Rows()
  {
    if RoiInside(base, x, y, patch.Cols(), patch.Rows()) then Ok(Pasted(base, patch, x, y)) else CvException
  }

  /** `src(Rect(0, 0, w, h))`. */
  function Crop(src: Image, w: int, h: int): (r: Result<Image>)
    ensures r.Ok? <==> RoiInside(src, 0, 0, w, h)
    ensures r.Ok? ==> r.value.Cols() == w && r.value.Rows() == h
  {
    if RoiInside(src, 0, 0, w, h) then Ok(Cropped(src, w, h)) else CvException
  }

  /** get_homography(first, second) of the configured detector: a 3x3 matrix or a failure. */
  type HomographyFn = (Image, Image) -> Result<Mat3>

  /** The homography is estimated for every pair of images. */
  ghost predicate Estimates(homography: HomographyFn) {
    forall a: Image, b: Image :: homography(a, b).Ok?
  }

  /**
   * stitch_left: warp `left` by the homography left -> right, moved left.cols
   * to the right, onto a canvas left.cols + right.cols wide and left.rows tall,
   * then paste `right` at column left.cols, row 0. Without a homography the
   * matrix product raises, and warping an empty `left` raises.
   */
  function StitchLeft(left: Image, right: Image, homography: HomographyFn): (r: Result<Image>)
    ensures r.Ok? <==> homography(left, right).Ok? && NonEmpty(left) && right.Rows() <= left.Rows()
    ensures r.Ok? ==> r.value.Cols() == left.Cols() + right.Cols() && r.value.Rows() == left.Rows()
    ensures r.Ok? ==> (r.value ==
      Pasted(Warped(left, Mul(Translation(left.Cols()), homography(left, right).value), left.Cols() + right.Cols(), left.Rows()),
             right, left.Cols(), 0))
  {
    var moveIntoFrame := Translation(left.Cols());
    match homography(left, right)
    case CvException => CvException
    case Ok(homographyMatrix) =>
      var translationMatrix := Mul(moveIntoFrame, homographyMatrix);
      if !NonEmpty(left) then CvException else
      var imageStitch := Warped(left, translationMatrix, left.Cols() + right.Cols(), left.Rows());
      CopyInto(imageStitch, right, imageStitch.Cols() - right.Cols(), 0)
  }

  /**
   * stitch_right: warp `right` by the homography right -> left onto a canvas
   * left.cols + right.cols wide (twice right.cols for a side image) and
   * right.rows tall, then paste `left` at the origin. Without a homography,
   * or with an empty `right`, the warp raises.
   */
  function StitchRight(left: Image, right: Image, sideImage: bool, homography: HomographyFn): (r: Result<Image>)
    ensures r.Ok? <==> homography(right, left).Ok? && NonEmpty(right) && left.Rows() <= right.Rows()
    ensures r.Ok? ==> (r.value.Rows() == right.Rows() &&
      r.value.Cols() == left.Cols() + (if sideImage then 2 * right.Cols() else right.Cols()))
    ensures r.Ok? ==> (r.value.Pasted? && r.value.patch == left && r.value.x == 0 && r.value.y == 0 &&
      r.value.base.Warped? && r.value.base.src == right && r.value.base.transform == homography(right, left).value)
  {
    match homography(right, left)
    case CvException => CvException
    case Ok(homographyMatrix) =>
      if !NonEmpty(right) then CvException else
      var width := if sideImage then right.Cols() * 2 else right.Cols();
      var imageStitch := Warped(right, homographyMatrix, width + left.Cols(), right.Rows());
      CopyInto(imageStitch, left, 0, 0)
  }

  // ---------------------------------------------------------------------------
  // Three-image stitch (stitch)
  // ---------------------------------------------------------------------------

  /** Mode 2 keeps the first 90% of the columns of the first stitch, truncated. */
  function CleanCutCols(cols: nat): (c: nat)
    ensures 10 * c <= 9 * cols < 10 * c + 10
  {
    cols * 9 / 10
  }

  /**
   * stitch: compose two two-image stitches as the mode says. The panorama is
   * None (an empty Mat) for a mode other than 0, 1 and 2.
   */
  function Stitch(left: Image, middle: Image, right: Image, mode: int, homography: HomographyFn): (r: Result<Option<Image>>)
    ensures mode != 0 && mode != 1 && mode != 2 ==> r == Ok(None)
    ensures (mode == 0 || mode == 1 || mode == 2) && r.Ok? ==> r.value.Some?
  {
    if mode == 0 then
      match StitchLeft(middle, right, homography)
      case CvException => CvException
      case Ok(firstStitch) => Panorama(StitchLeft(left, firstStitch, homography))
    else if mode == 1 then
      match StitchLeft(left, middle, homography)
      case CvException => CvException
      case Ok(firstStitch) => Panorama(StitchRight(firstStitch, right, true, homography))
    else if mode == 2 then
      match StitchRight(left, middle, false, homography)
      case CvException => CvException
      case Ok(firstStitch) =>
        (match Crop(firstStitch, CleanCutCols(firstStitch.Cols()), firstStitch.Rows())
         case CvException => CvException
         case Ok(cleanCut) => Panorama(StitchRight(cleanCut, right, true, homography)))
    else
      Ok(None)
  }

  /** The second stitch becomes the panorama. */
  function Panorama(secondStitch: Result<Image>): Result<Option<Image>> {
    match secondStitch
    case CvException => CvException
    case Ok(p) => Ok(Some(p))
  }

  /**
   * The image in which the pastes of a composite place `img` unwarped with its
   * top-left corner at (x, y); a crop from the origin keeps the coordinates.
   */
  predicate PlacedAt(p: Image, img: Image, x: int, y: int)
    decreases p
  {
    match p
    case Pasted(base, patch, px, py) =>
      || (patch == img && px == x && py == y)
      || PlacedAt(patch, img, x - px, y - py)
      || PlacedAt(base, img, x, y)
    case Cropped(src, _, _) => PlacedAt(src, img, x, y)
    case _ => false
  }

  /**
   * Each mode keeps one input unwarped as the reference the others are warped
   * onto: the right image at column l + m in mode 0, the middle image at
   * column l in mode 1, the left image at the origin in mode 2. The panorama's
   * bottom layer is the warped left image in mode 0 and the warped right
   * image in modes 1 and 2.
   */
  lemma ReferenceImage(left: Image, middle: Image, right: Image, homography: HomographyFn)
    ensures var r := Stitch(left, middle, right, 0, homography);
      r.Ok? ==> && PlacedAt(r.value.value, right, left.Cols() + middle.Cols(), 0)
                && r.value.value.Pasted? && r.value.value.base.Warped? && r.value.value.base.src == left
    ensures var r := Stitch(left, middle, right, 1, homography);
      r.Ok? ==> && PlacedAt(r.value.value, middle, left.Cols(), 0)
                && r.value.value.Pasted? && r.value.value.base.Warped? && r.value.value.base.src == right
    ensures var r := Stitch(left, middle, right, 2, homography);
      r.Ok? ==> && PlacedAt(r.value.value, left, 0, 0)
                && r.value.value.Pasted? && r.value.value.base.Warped? && r.value.value.base.src == right
  {
    ReferenceImageMode0(left, middle, right, homography);
    ReferenceImageMode1(left, middle, right, homography);
    ReferenceImageMode2(left, middle, right, homography);
  }

  lemma ReferenceImageMode0(left: Image, middle: Image, right: Image, homography: HomographyFn)
    ensures var r := Stitch(left, middle, right, 0, homography);
      r.Ok? ==> && PlacedAt(r.value.value, right, left.Cols() + middle.Cols(), 0)
                && r.value.value.Pasted? && r.value.value.base.Warped? && r.value.value.base.src == left
  {
    var r := Stitch(left, middle, right, 0, homography);
    if r.Ok? {
      var first := StitchLeft(middle, right, homography).value;
      assert PlacedAt(first, right, middle.Cols(), 0);
      assert r.value.value == StitchLeft(left, first, homography).value;
    }
  }

  lemma ReferenceImageMode1(left: Image, middle: Image, right: Image, homography: HomographyFn)
    ensures var r := Stitch(left, middle, right, 1, homography);
      r.Ok? ==> && PlacedAt(r.value.value, middle, left.Cols(), 0)
                && r.value.value.Pasted? && r.value.value.base.Warped? && r.value.value.base.src == right
  {
    var r := Stitch(left, middle, right, 1, homography);
    if r.Ok? {
      var first := StitchLeft(left, middle, homography).value;
      assert PlacedAt(first, middle, left.Cols(), 0);
      assert r.value.value == StitchRight(first, right, true, homography).value;
    }
  }

  lemma ReferenceImageMode2(left: Image, middle: Image, right: Image, homography: HomographyFn)
    ensures var r := Stitch(left, middle, right, 2, homography);
      r.Ok? ==> && PlacedAt(r.value.value, left, 0, 0)
                && r.value.value.Pasted? && r.value.value.base.Warped? && r.value.value.base.src == right
  {
    var r := Stitch(left, middle, right, 2, homography);
    if r.Ok? {
      var first := StitchRight(left, middle, false, homography).value;
      assert PlacedAt(first, left, 0, 0);
      var cut := Crop(first, CleanCutCols(first.Cols()), first.Rows()).value;
      assert PlacedAt(cut, left, 0, 0);
      assert r.value.value == StitchRight(cut, right, true, homography).value;
    }
  }

  /**
   * A mode fails when the homography of its first pair cannot be estimated:
   * middle onto right in mode 0, left onto middle in mode 1, middle onto left
   * in mode 2.
   */
  lemma FirstHomographyNeeded(left: Image, middle: Image, right: Image, homography: HomographyFn)
    ensures homography(middle, right).CvException? ==> Stitch(left, middle, right, 0, homography) == CvException
    ensures homography(left, middle).CvException? ==> Stitch(left, middle, right, 1, homography) == CvException
    ensures homography(middle, left).CvException? ==> Stitch(left, middle, right, 2, homography) == CvException
  {
  }

  /**
   * With every homography estimated, each mode succeeds exactly when every
   * image it warps is non-empty (middle and left in mode 0, left and right in
   * mode 1, middle and right in mode 2) and the heights allow every paste,
   * and then the panorama is l+m+r columns wide in mode 0, l+m+2r in mode 1 and
   * 9/10 (l+m) + 2r in mode 2.
   */
  lemma PanoramaSize(left: Image, middle: Image, right: Image, homography: HomographyFn)
    requires Estimates(homography)
    ensures var r := Stitch(left, middle, right, 0, homography);
      && (r.Ok? <==> NonEmpty(middle) && NonEmpty(left) && right.Rows() <= middle.Rows() <= left.Rows())
      && (r.Ok? ==> r.value.value.Cols() == left.Cols() + middle.Cols() + right.Cols()
                    && r.value.value.Rows() == left.Rows())
    ensures var r := Stitch(left, middle, right, 1, homography);
      && (r.Ok? <==> NonEmpty(left) && NonEmpty(right) && middle.Rows() <= left.Rows() <= right.Rows())
      && (r.Ok? ==> r.value.value.Cols() == left.Cols() + middle.Cols() + 2 * right.Cols()
                    && r.value.value.Rows() == right.Rows())
    ensures var r := Stitch(left, middle, right, 2, homography);
      && (r.Ok? <==> NonEmpty(middle) && NonEmpty(right) && left.Rows() <= middle.Rows() <= right.Rows())
      && (r.Ok? ==> r.value.value.Cols() == CleanCutCols(left.Cols() + middle.Cols()) + 2 * right.Cols()
                    && r.value.value.Rows() == right.Rows())
  {
    PanoramaSizeMode0(left, middle, right, homography);
    PanoramaSizeMode1(left, middle, right, homography);
    PanoramaSizeMode2(left, middle, right, homography);
  }

  lemma PanoramaSizeMode0(left: Image, middle: Image, right: Image, homography: HomographyFn)
    requires Estimates(homography)
    ensures var r := Stitch(left, middle, right, 0, homography);
      && (r.Ok? <==> NonEmpty(middle) && NonEmpty(left) && right.Rows() <= middle.Rows() <= left.Rows())
      && (r.Ok? ==> r.value.value.Cols() == left.Cols() + middle.Cols() + right.Cols()
                    && r.value.value.Rows() == left.Rows())
  {
    var first := StitchLeft(middle, right, homography);
    assert homography(middle, right).Ok?;
    if first.Ok? {
      assert homography(left, first.value).Ok?;
    }
  }

  lemma PanoramaSizeMode1(left: Image, middle: Image, right: Image, homography: HomographyFn)
    requires Estimates(homography)
    ensures var r := Stitch(left, middle, right, 1, homography);
      && (r.Ok? <==> NonEmpty(left) && NonEmpty(right) && middle.Rows() <= left.Rows() <= right.Rows())
      && (r.Ok? ==> r.value.value.Cols() == left.Cols() + middle.Cols() + 2 * right.Cols()
                    && r.value.value.Rows() == right.Rows())
  {
    var first := StitchLeft(left, middle, homography);
    assert homography(left, middle).Ok?;
    if first.Ok? {
      assert homography(right, first.value).Ok?;
    }
  }

  lemma PanoramaSizeMode2(left: Image, middle: Image, right: Image, homography: HomographyFn)
    requires Estimates(homography)
    ensures var r := Stitch(left, middle, right, 2, homography);
      && (r.Ok? <==> NonEmpty(middle) && NonEmpty(right) && left.Rows() <= middle.Rows() <= right.Rows())
      && (r.Ok? ==> r.value.value.Cols() == CleanCutCols(left.Cols() + middle.Cols()) + 2 * right.Cols()
                    && r.value.value.Rows() == right.Rows())
  {
    var first := StitchRight(left, middle, false, homography);
    assert homography(middle, left).Ok?;
    if first.Ok? {
      var cut := Crop(first.value, CleanCutCols(first.value.Cols()), first.value.Rows());
      assert cut.Ok?;
      assert homography(right, cut.value).Ok?;
    }
  }

  /** With every homography estimated, three non-empty images of one height always stitch, into a panorama of that height. */
  lemma EqualHeightsStitch(left: Image, middle: Image, right: Image, mode: int, homography: HomographyFn)
    requires left.Rows() == middle.Rows() == right.Rows()
    requires mode == 0 || mode == 1 || mode == 2
    requires Estimates(homography)
    requires NonEmpty(left) && NonEmpty(middle) && NonEmpty(right)
    ensures var r := Stitch(left, middle, right, mode, homography);
      r.Ok? && r.value.Some? && r.value.value.Rows() == left.Rows()
  {
    PanoramaSize(left, middle, right, homography);
  }
}
