/** The image-preprocessing pipeline of test_ocr_for_doc1/lib/preprocess.py,
    restricted to what is not OpenCV: the luminance-threshold search of
    `DefaultLuminanceThreshold`, the binarisation it feeds (`THRESH_BINARY` with
    maximum 255), the grey-scale shape dispatch and the `None` checks. An image
    is its shape and its pixel values in row-major order. */
module Preprocessing {
  import opened Common

  datatype Image = Image(shape: seq<nat>, pixels: seq<int>)

  /** A value, or the message of the `ValueError` raised instead. */
  datatype Outcome<T> = Ok(value: T) | Failure(message: string)

  /** `ThresholdResult`. */
  datatype ThresholdResult = ThresholdResult(threshold: int, binarized: Image)

  // ---------------------------------------------------------------------------
  // The threshold search
  // ---------------------------------------------------------------------------

  /** `np.count_nonzero(flat > th)`. */
  function CountAbove(flat: seq<int>, th: int): (c: nat)
    ensures c <= |flat|
  {
    if flat == [] then 0 else CountAbove(flat[..|flat| - 1], th) + (if flat[|flat| - 1] > th then 1 else 0)
  }

  /** Raising the threshold never lets more pixels above it. */
  lemma {:induction false} CountAboveMonotone(flat: seq<int>, lo: int, hi: int)
    requires lo <= hi
    ensures CountAbove(flat, hi) <= CountAbove(flat, lo)
  {
    if flat != [] {
      CountAboveMonotone(flat[..|flat| - 1], lo, hi);
    }
  }

  /** At least `percentage` of the pixels lie above `th`. */
  predicate Bright(flat: seq<int>, th: int, percentage: real) {
    CountAbove(flat, th) as real >= (|flat| as real) * percentage
  }

  /** The search from `maxTh - diff` downwards, as a specification: the first
      threshold that is bright enough, or `minTh` when none is. */
  function SearchFrom(flat: seq<int>, percentage: real, minTh: int, maxTh: int, diff: nat): int
    decreases if maxTh - minTh + 1 > diff then maxTh - minTh + 1 - diff else 0
  {
    if diff >= maxTh - minTh + 1 then minTh
    else if Bright(flat, maxTh - diff, percentage) then maxTh - diff
    else SearchFrom(flat, percentage, minTh, maxTh, diff + 1)
  }

  function Threshold(flat: seq<int>, percentage: real, minTh: int, maxTh: int): int {
    SearchFrom(flat, percentage, minTh, maxTh, 0)
  }

  /** From `maxTh - diff` down: the result is `minTh` or a bright threshold no
      lower than `minTh` and no higher than `maxTh - diff`, and nothing tried
      before it was bright. */
  lemma {:induction false} SearchFromSpec(flat: seq<int>, percentage: real, minTh: int, maxTh: int, diff: nat)
    ensures var r := SearchFrom(flat, percentage, minTh, maxTh, diff);
            && (diff <= maxTh - minTh ==> minTh <= r <= maxTh - diff)
            && (diff > maxTh - minTh ==> r == minTh)
            && (r == minTh || Bright(flat, r, percentage))
            && (forall th :: r < th <= maxTh - diff && minTh <= th ==> !Bright(flat, th, percentage))
    decreases if maxTh - minTh + 1 > diff then maxTh - minTh + 1 - diff else 0
  {
    if diff < maxTh - minTh + 1 && !Bright(flat, maxTh - diff, percentage) {
      SearchFromSpec(flat, percentage, minTh, maxTh, diff + 1);
    }
  }

  /** The threshold lies in `[minTh, maxTh]` (and is `minTh` when that range is
      empty); it is the largest bright threshold in range, or `minTh` when none
      is bright; and every threshold in range below a bright result is bright
      too, since brightness only falls as the threshold rises. */
  lemma ThresholdSpec(flat: seq<int>, percentage: real, minTh: int, maxTh: int)
    ensures var r := Threshold(flat, percentage, minTh, maxTh);
            && (minTh <= maxTh ==> minTh <= r <= maxTh)
            && (minTh > maxTh ==> r == minTh)
            && (forall th :: r < th <= maxTh ==> !Bright(flat, th, percentage))
            && ((exists th :: minTh <= th <= maxTh && Bright(flat, th, percentage)) ==> Bright(flat, r, percentage))
            && ((forall th :: minTh <= th <= maxTh ==> !Bright(flat, th, percentage)) ==> r == minTh)
            && (Bright(flat, r, percentage) ==> forall th :: th <= r ==> Bright(flat, th, percentage))
  {
    var r := Threshold(flat, percentage, minTh, maxTh);
    SearchFromSpec(flat, percentage, minTh, maxTh, 0);
    if exists th :: minTh <= th <= maxTh && Bright(flat, th, percentage) {
      var th :| minTh <= th <= maxTh && Bright(flat, th, percentage);
    }
    if Bright(flat, r, percentage) {
      forall th | th <= r ensures Bright(flat, th, percentage) {
        CountAboveMonotone(flat, th, r);
      }
    }
  }

  /** `cv2.threshold(gray, th, 255, THRESH_BINARY)`: 255 above the threshold, 0 elsewhere. */
  function Binarize(gray: Image, th: int): (b: Image)
    ensures b.shape == gray.shape && |b.pixels| == |gray.pixels|
    ensures forall i :: 0 <= i < |gray.pixels| ==> b.pixels[i] == if gray.pixels[i] > th then 255 else 0
  {
    Image(gray.shape, seq(|gray.pixels|, i requires 0 <= i < |gray.pixels| => if gray.pixels[i] > th then 255 else 0))
  }

  /** The white pixels of the binarised image are exactly those above the
      threshold. */
  lemma {:induction false} BinarizeCount(pixels: seq<int>, th: int)
    ensures CountAbove(seq(|pixels|, i requires 0 <= i < |pixels| => if pixels[i] > th then 255 else 0), 254) == CountAbove(pixels, th)
  {
    if pixels != [] {
      var n := |pixels| - 1;
      BinarizeCount(pixels[..n], th);
      var b := seq(|pixels|, i requires 0 <= i < |pixels| => if pixels[i] > th then 255 else 0);
      assert b[..n] == seq(n, i requires 0 <= i < n => if pixels[..n][i] > th then 255 else 0);
    }
  }

  /** `DefaultLuminanceThreshold`. */
  class DefaultLuminanceThreshold {
    const luminancePercentage: real
    const minTh: int
    const maxTh: int

    /** The constructor asserts `0 < luminance_percentage <= 1`. */
    constructor (luminancePercentage: real, minTh: int, maxTh: int)
      requires 0.0 < luminancePercentage <= 1.0
      ensures this.luminancePercentage == luminancePercentage && this.minTh == minTh && this.maxTh == maxTh
    {
      this.luminancePercentage := luminancePercentage;
      this.minTh := minTh;
      this.maxTh := maxTh;
    }

    /** `compute`: a missing image is an error; otherwise the descending search
        and the binarisation at the threshold found. */
    method Compute(gray: Option<Image>) returns (r: Outcome<ThresholdResult>)
      ensures gray.None? ==> r == Failure("gray image is None")
      ensures gray.Some? ==> r.Ok? && r.value.threshold == Threshold(gray.value.pixels, luminancePercentage, minTh, maxTh)
                             && r.value.binarized == Binarize(gray.value, r.value.threshold)
    {
      if gray.None? {
        return Failure("gray image is None");
      }
      var flat := gray.value.pixels;
      var numberThreshold := (|flat| as real) * luminancePercentage;
      var found := minTh;
      var diff := 0;
      while diff < maxTh - minTh + 1
        invariant diff == 0 || diff <= maxTh - minTh + 1
        invariant Threshold(flat, luminancePercentage, minTh, maxTh) == SearchFrom(flat, luminancePercentage, minTh, maxTh, diff)
        invariant found == minTh
        decreases maxTh - minTh + 1 - diff
      {
        var th := maxTh - diff;
        if CountAbove(flat, th) as real >= numberThreshold {
          assert Bright(flat, th, luminancePercentage);
          found := th;
          break;
        }
        assert !Bright(flat, th, luminancePercentage);
        diff := diff + 1;
      }
      return Ok(ThresholdResult(found, Binarize(gray.value, found)));
    }
  }

  /** What `compute` returns, as a specification. */
  function ComputeSpec(t: DefaultLuminanceThreshold, gray: Image): ThresholdResult {
    var th := Threshold(gray.pixels, t.luminancePercentage, t.minTh, t.maxTh);
    ThresholdResult(th, Binarize(gray, th))
  }

  // ---------------------------------------------------------------------------
  // `Preprocessor`
  // ---------------------------------------------------------------------------

  /** `_to_gray`: a 2-D image unchanged, a 3-channel 3-D image converted by
      `cvtColor` (a parameter), anything else an error. */
  function ToGray(bgr: Image, cvtColor: Image -> Image): (r: Outcome<Image>)
    ensures r.Failure? <==> !(|bgr.shape| == 2 || (|bgr.shape| == 3 && bgr.shape[2] == 3))
    ensures r.Failure? ==> r.message == "invalid image shape"
    ensures |bgr.shape| == 2 ==> r == Ok(bgr)
  {
    if |bgr.shape| == 3 && bgr.shape[2] == 3 then Ok(cvtColor(bgr))
    else if |bgr.shape| == 2 then Ok(bgr)
    else Failure("invalid image shape")
  }

  /** `Preprocessor` with its threshold strategy; the contour and
      perspective-transform strategies are OpenCV code and enter `ProcessOne`
      as one function of the binarised image and the input. */
  class Preprocessor {
    var thresholdStrategy: DefaultLuminanceThreshold

    /** `threshold_strategy or DefaultLuminanceThreshold()`. */
    constructor (thresholdStrategy: Option<DefaultLuminanceThreshold>)
      ensures thresholdStrategy.Some? ==> this.thresholdStrategy == thresholdStrategy.value
      ensures thresholdStrategy.None? ==> this.thresholdStrategy.luminancePercentage == 0.2
                                          && this.thresholdStrategy.minTh == 100 && this.thresholdStrategy.maxTh == 200
    {
      if thresholdStrategy.Some? {
        this.thresholdStrategy := thresholdStrategy.value;
      } else {
        this.thresholdStrategy := new DefaultLuminanceThreshold(0.2, 100, 200);
      }
    }

    /** `compute_threshold`: grey-scale, then the threshold strategy. */
    method ComputeThreshold(bgr: Image, cvtColor: Image -> Image) returns (r: Outcome<ThresholdResult>)
      ensures ToGray(bgr, cvtColor).Failure? ==> r == Failure("invalid image shape")
      ensures ToGray(bgr, cvtColor).Ok? ==> r == Ok(ComputeSpec(thresholdStrategy, ToGray(bgr, cvtColor).value))
    {
      var gray := ToGray(bgr, cvtColor);
      if gray.Failure? {
        return Failure(gray.message);
      }
      r := thresholdStrategy.Compute(Some(gray.value));
    }

    /** `process_one`: a missing image is an error; otherwise grey-scale,
        threshold, then the contour and transform steps. */
    method ProcessOne<T>(bgr: Option<Image>, cvtColor: Image -> Image, contourAndTransform: (Image, Image) -> T)
      returns (r: Outcome<T>)
      ensures bgr.None? ==> r == Failure("input image is None")
      ensures bgr.Some? && ToGray(bgr.value, cvtColor).Failure? ==> r == Failure("invalid image shape")
      ensures bgr.Some? && ToGray(bgr.value, cvtColor).Ok? ==>
                r == Ok(contourAndTransform(ComputeSpec(thresholdStrategy, ToGray(bgr.value, cvtColor).value).binarized, bgr.value))
    {
      if bgr.None? {
        return Failure("input image is None");
      }
      var thr := ComputeThreshold(bgr.value, cvtColor);
      if thr.Failure? {
        return Failure(thr.message);
      }
      return Ok(contourAndTransform(thr.value.binarized, bgr.value));
    }
  }

}
