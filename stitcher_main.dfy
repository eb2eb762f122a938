// stitcherapp/stitcherapp/main.cpp: centre each input image vertically on a
// taller black canvas, then stitch the three canvases with a fixed mode and
// detector.
module StitcherMain {
  import opened Vision
  import opened CustomStitcher

  /** The fixed configuration of main. */
  const TargetHeight: int := 800
  const StitchingMode: int := 1
  const DetectorType: int := 0

  /** C++ integer division, which truncates toward zero (Dafny's `/` is Euclidean). */
  function TruncDiv(a: int, b: int): (q: int)
    requires b > 0
    ensures a >= 0 ==> 0 <= a - q * b < b
    ensures a < 0 ==> -b < a - q * b <= 0
  {
    if a >= 0 then a / b else -((-a) / b)
  }

  /**
   * The row at which put_on_canvas places the image: half the spare height,
   * rounded toward zero, so twice the margin falls short of the spare height by
   * at most one row.
   */
  function TopMargin(height: int, targetHeight: int): (m: int)
    ensures var spare := targetHeight - height;
      && (spare >= 0 ==> 0 <= spare - 2 * m <= 1)
      && (spare < 0 ==> -1 <= spare - 2 * m <= 0)
  {
    TruncDiv(targetHeight - height, 2)
  }

  /**
   * put_on_canvas: a black canvas targetHeight rows by img.cols columns, with the
   * image resized into the region at column 0, row TopMargin, of the image's own
   * size (a resize to the same size, so a copy). The call succeeds exactly when
   * the image is not empty (cv::resize refuses an empty source, which is what
   * imread returns for a missing file) and no taller than the canvas, so that
   * the region fits; then the margins above and below differ by at most one
   * row, the lower one being the larger.
   */
  function PutOnCanvas(img: Image, targetHeight: int): (r: Result<Image>)
    ensures r.Ok? <==> 0 < img.Cols() && 0 < img.Rows() <= targetHeight
    ensures r.Ok? ==> r.value.Cols() == img.Cols() && r.value.Rows() == targetHeight
    ensures r.Ok? ==> (
      && r.value.Pasted? && r.value.patch == img && r.value.x == 0
      && r.value.base == Blank(img.Cols(), targetHeight)
      && var top := r.value.y; var bottom := targetHeight - img.Rows() - top;
         0 <= top <= bottom <= top + 1)
  {
    var width := img.Cols();
    var height := img.Rows();
    if targetHeight < 0 then
      CvException  // Mat::zeros with a negative row count
    else if width == 0 || height == 0 then
      CvException  // cv::resize of an empty image
    else
      var canvas := Blank(width, targetHeight);
      CopyInto(canvas, img, 0, TopMargin(height, targetHeight))
  }

  /** get_homography of main's stitcher, which is built with DetectorType. */
  function MainHomography(detectAndCompute: DetectAndComputeFn, knnMatch: KnnMatchFn,
                          findHomography: FindHomographyFn): (h: HomographyFn)
    ensures forall first: Image, second: Image :: h(first, second) == CvException
  {
    (first: Image, second: Image) =>
      NoDetectorNoHomography(DetectorType, first, second, detectAndCompute, knnMatch, findHomography);
      HomographyEstimate(DetectorType, first, second, detectAndCompute, knnMatch, findHomography)
  }

  /**
   * The body of main with the images already read, for a stitcher whose
   * get_homography is `homography`: each image goes onto an 800-row canvas,
   * and the canvases are stitched left, middle, right in mode 1.
   */
  function StitchCanvases(image1: Image, image2: Image, image3: Image, homography: HomographyFn): (r: Result<Option<Image>>)
    ensures r.Ok? ==> && 0 < image1.Cols() && 0 < image1.Rows() <= TargetHeight
                      && 0 < image2.Cols() && 0 < image2.Rows() <= TargetHeight
                      && 0 < image3.Cols() && 0 < image3.Rows() <= TargetHeight
                      && r.value.Some?
  {
    match PutOnCanvas(image1, TargetHeight)
    case CvException => CvException
    case Ok(left) =>
      match PutOnCanvas(image2, TargetHeight)
      case CvException => CvException
      case Ok(middle) =>
        match PutOnCanvas(image3, TargetHeight)
        case CvException => CvException
        case Ok(right) => Stitch(left, middle, right, StitchingMode, homography)
  }

  /** main's detector (0) matches no case of the detector switch: no keypoints, no descriptors. */
  lemma MainDetectsNothing(image: Image, detectAndCompute: DetectAndComputeFn)
    ensures Detect(DetectorType, image, detectAndCompute) == Features([], [])
  {
  }

  /**
   * Hence the canvases are never stitched with main's detector: the first
   * stitch has no homography, so the run ends in a cv::Exception.
   */
  lemma MainNeverStitches(image1: Image, image2: Image, image3: Image, detectAndCompute: DetectAndComputeFn,
                          knnMatch: KnnMatchFn, findHomography: FindHomographyFn)
    ensures StitchCanvases(image1, image2, image3, MainHomography(detectAndCompute, knnMatch, findHomography))
      == CvException
  {
    var homography := MainHomography(detectAndCompute, knnMatch, findHomography);
    var r1 := PutOnCanvas(image1, TargetHeight);
    var r2 := PutOnCanvas(image2, TargetHeight);
    var r3 := PutOnCanvas(image3, TargetHeight);
    if r1.Ok? && r2.Ok? && r3.Ok? {
      NoDetectorNoHomography(DetectorType, r1.value, r2.value, detectAndCompute, knnMatch, findHomography);
      assert homography(r1.value, r2.value) == CvException;
      FirstHomographyNeeded(r1.value, r2.value, r3.value, homography);
    }
  }

  /**
   * main as written, with the images already read: whatever the images and
   * whatever OpenCV's matcher and estimator do, it never writes a panorama.
   */
  function RunMain(image1: Image, image2: Image, image3: Image, detectAndCompute: DetectAndComputeFn,
                   knnMatch: KnnMatchFn, findHomography: FindHomographyFn): (r: Result<Option<Image>>)
    ensures r == CvException
  {
    MainNeverStitches(image1, image2, image3, detectAndCompute, knnMatch, findHomography);
    StitchCanvases(image1, image2, image3, MainHomography(detectAndCompute, knnMatch, findHomography))
  }

  /**
   * main as intended, with a detector that finds features and every homography
   * estimated: with all inputs non-empty and at most 800 rows tall, the
   * panorama is 800 rows and c1 + c2 + 2 c3 columns; otherwise main fails.
   */
  lemma MainPanorama(image1: Image, image2: Image, image3: Image, homography: HomographyFn)
    requires Estimates(homography)
    ensures var r := StitchCanvases(image1, image2, image3, homography);
      && (r.Ok? <==> && 0 < image1.Cols() && 0 < image1.Rows() <= TargetHeight
                     && 0 < image2.Cols() && 0 < image2.Rows() <= TargetHeight
                     && 0 < image3.Cols() && 0 < image3.Rows() <= TargetHeight)
      && (r.Ok? ==> r.value.Some? && r.value.value.Rows() == TargetHeight
                    && r.value.value.Cols() == image1.Cols() + image2.Cols() + 2 * image3.Cols())
  {
    var r1 := PutOnCanvas(image1, TargetHeight);
    var r2 := PutOnCanvas(image2, TargetHeight);
    var r3 := PutOnCanvas(image3, TargetHeight);
    if r1.Ok? && r2.Ok? && r3.Ok? {
      PanoramaSize(r1.value, r2.value, r3.value, homography);
    }
  }
}
