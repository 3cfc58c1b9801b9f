/**
 * One parsed CT slice, standing for the pydicom dataset the loader reads, and
 * the per-pixel conversion of its stored samples to Hounsfield units.
 *
 * An optional tag is an Option: the source tests its presence with
 * `'Tag' in dcm`.  A tag that may carry several values (WindowCenter,
 * WindowWidth) holds the sequence of its values; a single value is a sequence
 * of length one.
 */
module Records {
  import opened Wrappers

  /** Rows and Columns of a frame. */
  type Extent = n: int | 1 <= n witness 1

  /** A 2-D image, indexed [row][column]. */
  type Image = seq<seq<int>>

  datatype SliceRecord = SliceRecord(
    modality: Option<string>,
    instanceNumber: Option<real>,
    sliceLocation: Option<real>,
    pixelSpacing: (real, real),
    sliceThickness: Option<real>,
    windowCenter: Option<seq<real>>,
    windowWidth: Option<seq<real>>,
    rescaleSlope: Option<real>,
    rescaleIntercept: Option<real>,
    rows: Extent,
    columns: Extent,
    pixels: Image)

  /** The modality test of the loader: the tag is present and equals "CT". */
  predicate IsCT(r: SliceRecord)
  {
    r.modality == Some("CT")
  }

  /** The image has `rows` rows of `columns` samples each. */
  predicate Shaped(img: Image, rows: int, columns: int)
  {
    |img| == rows && forall r :: 0 <= r < |img| ==> |img[r]| == columns
  }

  /** numpy's astype(int16) on an integer sample: two's-complement wrap-around. */
  function Wrap16(p: int): (r: int)
    ensures -32768 <= r < 32768
    ensures (p - r) % 65536 == 0
    ensures -32768 <= p < 32768 ==> r == p
  {
    (p + 32768) % 65536 - 32768
  }

  /** numpy's float to integer cast: truncation toward zero. */
  function Trunc(x: real): int
  {
    if x >= 0.0 then x.Floor else -((-x).Floor)
  }

  /** Trunc drops the fractional part: it moves x toward zero by less than one. */
  lemma TruncTowardZero(x: real)
    ensures x >= 0.0 ==> Trunc(x) as real <= x < Trunc(x) as real + 1.0
    ensures x < 0.0 ==> Trunc(x) as real - 1.0 < x <= Trunc(x) as real
  {
  }

  /**
   * One voxel of the volume: the sample cast to int16, times slope, plus
   * intercept, stored back into an int16 array (range overflow of that store
   * is not modelled).
   */
  function HuValue(p: int, slope: real, intercept: real): (hu: int)
    ensures slope == 1.0 && intercept == intercept.Floor as real ==> hu == Wrap16(p) + intercept.Floor
  {
    Trunc(Wrap16(p) as real * slope + intercept)
  }

  /** `pixel_array.astype(np.int16) * slope + intercept` on a whole frame. */
  function HuImage(pix: Image, slope: real, intercept: real): (hu: Image)
    ensures |hu| == |pix|
    ensures forall r :: 0 <= r < |pix| ==> |hu[r]| == |pix[r]|
    ensures forall r, c :: 0 <= r < |pix| && 0 <= c < |pix[r]| ==>
      hu[r][c] == HuValue(pix[r][c], slope, intercept)
  {
    seq(|pix|, r requires 0 <= r < |pix| =>
      seq(|pix[r]|, c requires 0 <= c < |pix[r]| => HuValue(pix[r][c], slope, intercept)))
  }

  /** A stored zero with slope 1 and intercept -1024 is air, -1024 HU. */
  lemma ZeroSampleIsAir()
    ensures HuValue(0, 1.0, -1024.0) == -1024
  {
  }
}
