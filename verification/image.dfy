/**
 * The image wrapper of core/image.py: a source array, never reassigned or
 * mutated by the code, with two lazily computed, memoised views (grayscale
 * and RGB).
 *
 * OpenCV's colour conversions are foreign calls; they enter the model as the
 * function parameters `toGray` and `toRgb`, which may raise `cv2.error` (for
 * instance on an array without the channels the conversion expects). Every
 * property read returns its outcome together with the (possibly updated)
 * image, which makes the cache state explicit.
 */
module ImageCache {
  import opened Wrappers

  /** A numpy array: its shape and its flattened contents. */
  datatype NdArray = NdArray(shape: seq<nat>, data: seq<int>)

  /** Whatever the caller hands to the constructor: an array, or any other Python value. */
  datatype PyValue = ArrayValue(arr: NdArray) | OtherValue

  datatype ImageError = AssertionError(message: string)

  const NotAnArrayMessage := "Data must be a numpy compatible array"

  /** The image object: `src`, and the two memo slots (`None` = not computed yet). */
  datatype Image = Image(src: NdArray, grayCache: Option<NdArray>, rgbCache: Option<NdArray>)

  /** `cv2.error`, raised by a conversion that cannot handle its input. */
  datatype CvError = CvError

  /** A colour conversion: the converted array, or the error it raised. */
  type Conversion = NdArray -> Result<NdArray, CvError>

  /** The result of reading a memoised property: its outcome and the image afterwards. */
  datatype View = View(value: Result<NdArray, CvError>, image: Image)

  /** The grayscale slot is empty or holds the grayscale conversion of `src`. */
  predicate GrayAgrees(img: Image, toGray: Conversion) {
    img.grayCache.Some? ==> toGray(img.src) == Success(img.grayCache.value)
  }

  /** The RGB slot is empty or holds the RGB conversion of `src`. */
  predicate RgbAgrees(img: Image, toRgb: Conversion) {
    img.rgbCache.Some? ==> toRgb(img.src) == Success(img.rgbCache.value)
  }

  /** The cache invariant: each slot is empty or consistent with `src`. */
  predicate CachesAgree(img: Image, toGray: Conversion, toRgb: Conversion) {
    GrayAgrees(img, toGray) && RgbAgrees(img, toRgb)
  }

  /** `Image(data)`: only an array is accepted; both caches start empty. */
  function New(data: PyValue): (r: Result<Image, ImageError>)
    ensures r.Success? <==> data.ArrayValue?
    ensures r.Failure? ==> r.error == AssertionError(NotAnArrayMessage)
    ensures r.Success? ==> r.value.src == data.arr
    ensures r.Success? ==> r.value.grayCache.None? && r.value.rgbCache.None?
    ensures r.Success? ==> forall toGray, toRgb :: CachesAgree(r.value, toGray, toRgb)
  {
    match data
    case ArrayValue(a) => Success(Image(a, None, None))
    case OtherValue => Failure(AssertionError(NotAnArrayMessage))
  }

  /**
   * `Image.from_file(path)`: `decoded` is what `cv2.imread` returned, which is
   * `None` for an unreadable file; `None` is not an array, so the constructor's
   * assertion fails.
   */
  function FromFile(decoded: Option<NdArray>): (r: Result<Image, ImageError>)
    ensures r.Success? <==> decoded.Some?
    ensures r.Success? ==> r.value.src == decoded.value
    ensures r.Failure? ==> r.error == AssertionError(NotAnArrayMessage)
  {
    match decoded
    case Some(a) => New(ArrayValue(a))
    case None => New(OtherValue)
  }

  /** `dimensions`: the shape of the source array. */
  function Dimensions(img: Image): (d: seq<nat>)
    ensures d == img.src.shape
  {
    img.src.shape
  }

  /** The dimensions of a constructed image are the shape of the array it was given, and reads keep them. */
  lemma DimensionsOfNew(a: NdArray, accesses: seq<Access>, toGray: Conversion, toRgb: Conversion)
    ensures New(ArrayValue(a)).Success?
    ensures Dimensions(New(ArrayValue(a)).value) == a.shape
    ensures Dimensions(Run(New(ArrayValue(a)).value, accesses, toGray, toRgb).image) == a.shape
  {
    MemoisationTransparent(New(ArrayValue(a)).value, accesses, toGray, toRgb);
  }

  /**
   * `grayscale`: converts on the first read, then returns the memoised value.
   * A conversion that raises propagates and leaves the slot empty, so the
   * next read converts again.
   */
  function Grayscale(img: Image, toGray: Conversion): (r: View)
    ensures r.image.src == img.src && r.image.rgbCache == img.rgbCache
    ensures r.value.Success? ==> r.image.grayCache == Some(r.value.value)
    ensures r.value.Failure? ==> img.grayCache.None? && r.image == img
    ensures img.grayCache.Some? ==> r == View(Success(img.grayCache.value), img)
    ensures GrayAgrees(img, toGray) ==> r.value == toGray(img.src) && GrayAgrees(r.image, toGray)
  {
    match img.grayCache
    case Some(g) => View(Success(g), img)
    case None =>
      match toGray(img.src)
      case Success(g) => View(Success(g), img.(grayCache := Some(g)))
      case Failure(err) => View(Failure(err), img)
  }

  /** `rgb`: the same memoisation as `grayscale`, for the RGB slot. */
  function Rgb(img: Image, toRgb: Conversion): (r: View)
    ensures r.image.src == img.src && r.image.grayCache == img.grayCache
    ensures r.value.Success? ==> r.image.rgbCache == Some(r.value.value)
    ensures r.value.Failure? ==> img.rgbCache.None? && r.image == img
    ensures img.rgbCache.Some? ==> r == View(Success(img.rgbCache.value), img)
    ensures RgbAgrees(img, toRgb) ==> r.value == toRgb(img.src) && RgbAgrees(r.image, toRgb)
  {
    match img.rgbCache
    case Some(c) => View(Success(c), img)
    case None =>
      match toRgb(img.src)
      case Success(c) => View(Success(c), img.(rgbCache := Some(c)))
      case Failure(err) => View(Failure(err), img)
  }

  /** A property read on an image. */
  datatype Access = ReadGray | ReadRgb

  /** One property read. */
  function Read(img: Image, a: Access, toGray: Conversion, toRgb: Conversion): View {
    match a
    case ReadGray => Grayscale(img, toGray)
    case ReadRgb => Rgb(img, toRgb)
  }

  /** The outcomes of a sequence of reads, and the image after them. */
  datatype Trace = Trace(values: seq<Result<NdArray, CvError>>, image: Image)

  /** Performs the reads in order through the memoised properties. */
  function Run(img: Image, accesses: seq<Access>, toGray: Conversion, toRgb: Conversion): Trace
    decreases |accesses|
  {
    if |accesses| == 0 then Trace([], img)
    else
      var step := Read(img, accesses[0], toGray, toRgb);
      var rest := Run(step.image, accesses[1..], toGray, toRgb);
      Trace([step.value] + rest.values, rest.image)
  }

  /** What an image without memo slots would return: every read converts `src` afresh. */
  function Uncached(src: NdArray, accesses: seq<Access>, toGray: Conversion, toRgb: Conversion): (vs: seq<Result<NdArray, CvError>>)
    ensures |vs| == |accesses|
  {
    seq(|accesses|, k requires 0 <= k < |accesses| =>
      match accesses[k]
      case ReadGray => toGray(src)
      case ReadRgb => toRgb(src))
  }

  /**
   * Memoisation is invisible: from any image whose caches agree with `src`,
   * any sequence of reads returns exactly what recomputing each view would,
   * keeps `src`, and leaves the caches consistent.
   */
  lemma {:induction false} MemoisationTransparent(img: Image, accesses: seq<Access>, toGray: Conversion, toRgb: Conversion)
    requires CachesAgree(img, toGray, toRgb)
    ensures Run(img, accesses, toGray, toRgb).values == Uncached(img.src, accesses, toGray, toRgb)
    ensures Run(img, accesses, toGray, toRgb).image.src == img.src
    ensures CachesAgree(Run(img, accesses, toGray, toRgb).image, toGray, toRgb)
    decreases |accesses|
  {
    if |accesses| > 0 {
      var step := Read(img, accesses[0], toGray, toRgb);
      assert step.image.src == img.src;
      assert CachesAgree(step.image, toGray, toRgb);
      MemoisationTransparent(step.image, accesses[1..], toGray, toRgb);
      var tail := Uncached(img.src, accesses[1..], toGray, toRgb);
      var all := Uncached(img.src, accesses, toGray, toRgb);
      assert all == [all[0]] + tail;
    }
  }

  /** A second read of the same view returns the same value and changes nothing. */
  lemma RereadIsCached(img: Image, toGray: Conversion, toRgb: Conversion)
    ensures Grayscale(Grayscale(img, toGray).image, toGray) == Grayscale(img, toGray)
    ensures Rgb(Rgb(img, toRgb).image, toRgb) == Rgb(img, toRgb)
  {
  }

  /** Reading one view leaves the other view's slot alone: the two reads commute. */
  lemma ViewsIndependent(img: Image, toGray: Conversion, toRgb: Conversion)
    ensures Rgb(Grayscale(img, toGray).image, toRgb).image == Grayscale(Rgb(img, toRgb).image, toGray).image
    ensures Rgb(Grayscale(img, toGray).image, toRgb).value == Rgb(img, toRgb).value
    ensures Dimensions(Grayscale(img, toGray).image) == Dimensions(img)
    ensures Dimensions(Rgb(img, toRgb).image) == Dimensions(img)
  {
  }
}
