/**
 * The non-I/O middle of `load_dicom_folder`: keep the CT records, fail when
 * none is left, sort them by instance number, take geometry, default window
 * and rescale parameters from the first sorted record, and fill the
 * depth x rows x columns Hounsfield volume.
 *
 * Directory listing and DICOM parsing are not modelled: the loader receives
 * the records that parsed, in listing order.
 */
module Assembly {
  import opened Wrappers
  import opened Records
  import opened StableSort

  /** Why a load fails, in the order the source can reach each failure. */
  datatype LoadError =
    | NoCTImages            // the ValueError of an empty CT list
    | MissingInstanceNumber // float(x.InstanceNumber) on a record without the tag
    | MissingSliceLocation  // the thickness estimate needs SliceLocation on the first two records
    | MalformedWindowTag    // WindowCenter and WindowWidth of different multiplicity, or empty
    | ShapeMismatch         // a frame that does not fit the Rows x Columns of the first record
    | ZeroSpacing           // the MPR aspect divides by a zero pixel spacing

  /** Geometry, default window and volume of a successful assembly. */
  datatype Assembly = Assembly(
    files: seq<SliceRecord>,
    spacing: (real, real),
    thickness: real,
    window: Option<(int, int)>,
    rows: Extent,
    columns: Extent,
    volume: seq<Image>)

  /** The CT records of rs, in their order in rs. */
  function CTRecords(rs: seq<SliceRecord>): (cts: seq<SliceRecord>)
    ensures |cts| <= |rs|
    ensures forall x :: x in cts <==> x in rs && IsCT(x)
  {
    if |rs| == 0 then []
    else
      var last := rs[|rs| - 1];
      assert forall x :: x in rs <==> x in rs[..|rs| - 1] || x == last;
      CTRecords(rs[..|rs| - 1]) + if IsCT(last) then [last] else []
  }

  /** The filtering loop: every record whose modality is CT is appended to files. */
  method FilterCT(rs: seq<SliceRecord>) returns (files: seq<SliceRecord>)
    ensures files == CTRecords(rs)
  {
    files := [];
    for i := 0 to |rs|
      invariant files == CTRecords(rs[..i])
    {
      assert rs[..i + 1][..i] == rs[..i];
      if IsCT(rs[i]) {
        files := files + [rs[i]];
      }
    }
    assert rs[..|rs|] == rs;
  }

  /** The CT list keeps every CT record as often as it occurs in rs, and nothing else. */
  lemma {:induction false} CTRecordsCount(rs: seq<SliceRecord>)
    ensures forall x :: multiset(CTRecords(rs))[x] == if IsCT(x) then multiset(rs)[x] else 0
  {
    if |rs| > 0 {
      var init, last := rs[..|rs| - 1], rs[|rs| - 1];
      CTRecordsCount(init);
      assert rs == init + [last];
      assert multiset(rs) == multiset(init) + multiset{last};
      assert CTRecords(rs) == CTRecords(init) + if IsCT(last) then [last] else [];
    }
  }

  /** There is a CT record exactly when the CT list is non-empty. */
  lemma CTRecordsEmpty(rs: seq<SliceRecord>)
    ensures |CTRecords(rs)| == 0 <==> forall i :: 0 <= i < |rs| ==> !IsCT(rs[i])
  {
    var cts := CTRecords(rs);
    if |cts| > 0 {
      assert cts[0] in rs;
    } else {
      forall i | 0 <= i < |rs| ensures !IsCT(rs[i]) {
        assert rs[i] in rs && rs[i] !in cts;
      }
    }
  }

  predicate AllNumbered(files: seq<SliceRecord>)
  {
    forall i :: 0 <= i < |files| ==> files[i].instanceNumber.Some?
  }

  /** The sort key `float(x.InstanceNumber)`; consulted only once AllNumbered holds. */
  function InstanceKey(r: SliceRecord): real
  {
    match r.instanceNumber
    case Some(k) => k
    case None => 0.0
  }

  function SortByInstance(files: seq<SliceRecord>): seq<SliceRecord>
  {
    Sort(files, InstanceKey)
  }

  function Abs(x: real): real { if x < 0.0 then -x else x }

  /**
   * The slice thickness of the sorted records: the first record's tag, else the
   * distance between the slice locations of the first two records, else the
   * first pixel spacing.
   */
  function ThicknessOf(files: seq<SliceRecord>, spacing: (real, real)): (t: Result<real, LoadError>)
    requires |files| >= 1
    ensures files[0].sliceThickness.Some? ==> t == Success(files[0].sliceThickness.value)
    ensures files[0].sliceThickness.None? && |files| == 1 ==> t == Success(spacing.0)
    ensures files[0].sliceThickness.None? && |files| >= 2 ==>
      (t.Success? <==> files[0].sliceLocation.Some? && files[1].sliceLocation.Some?)
    ensures files[0].sliceThickness.None? && |files| >= 2 && t.Success? ==>
      t.value >= 0.0 &&
      (t.value == files[1].sliceLocation.value - files[0].sliceLocation.value ||
       t.value == files[0].sliceLocation.value - files[1].sliceLocation.value)
    ensures t.Failure? ==> t.error == MissingSliceLocation
  {
    match files[0].sliceThickness
    case Some(th) => Success(th)
    case None =>
      if |files| > 1 then
        match (files[0].sliceLocation, files[1].sliceLocation)
        case (Some(l0), Some(l1)) => Success(Abs(l1 - l0))
        case _ => Failure(MissingSliceLocation)
      else Success(spacing.0)
  }

  /**
   * The default window of the first record, or None when it lacks either tag.
   * A multi-valued center takes the first value of both tags, which then both
   * must be multi-valued; a single center needs a single width.  The values are
   * truncated to integers as the slider variables hold them.
   */
  function DefaultWindow(t: SliceRecord): (w: Result<Option<(int, int)>, LoadError>)
    ensures t.windowCenter.None? || t.windowWidth.None? ==> w == Success(None)
    ensures t.windowCenter.Some? && t.windowWidth.Some? ==>
      var c, ww := t.windowCenter.value, t.windowWidth.value;
      (w.Success? <==> (|c| >= 2 && |ww| >= 2) || (|c| == 1 && |ww| == 1)) &&
      (w.Success? ==> w.value == Some((Trunc(c[0]), Trunc(ww[0]))))
    ensures w.Failure? ==> w.error == MalformedWindowTag
  {
    match (t.windowCenter, t.windowWidth)
    case (Some(c), Some(ww)) =>
      if |c| > 1 then
        if |ww| > 1 then Success(Some((Trunc(c[0]), Trunc(ww[0])))) else Failure(MalformedWindowTag)
      else if |c| == 1 && |ww| == 1 then Success(Some((Trunc(c[0]), Trunc(ww[0]))))
      else Failure(MalformedWindowTag)
    case _ => Success(None)
  }

  /** Rescale slope and intercept of a record, 1.0 and 0.0 when absent. */
  function RescaleOf(t: SliceRecord): (si: (real, real))
    ensures si.0 == (if t.rescaleSlope.Some? then t.rescaleSlope.value else 1.0)
    ensures si.1 == (if t.rescaleIntercept.Some? then t.rescaleIntercept.value else 0.0)
  {
    (match t.rescaleSlope case Some(m) => m case None => 1.0,
     match t.rescaleIntercept case Some(b) => b case None => 0.0)
  }

  /** Every record's frame converted with the one slope and intercept given. */
  function HuVolume(files: seq<SliceRecord>, slope: real, intercept: real): (vol: seq<Image>)
    ensures |vol| == |files|
    ensures forall i :: 0 <= i < |files| ==> vol[i] == HuImage(files[i].pixels, slope, intercept)
  {
    seq(|files|, i requires 0 <= i < |files| => HuImage(files[i].pixels, slope, intercept))
  }

  predicate FramesFit(files: seq<SliceRecord>, rows: int, columns: int)
  {
    forall i :: 0 <= i < |files| ==> Shaped(files[i].pixels, rows, columns)
  }

  /**
   * The first stage of the loader: the CT records, which must exist and all
   * carry an instance number, sorted by it.
   */
  function SortedSlices(records: seq<SliceRecord>): (r: Result<seq<SliceRecord>, LoadError>)
    ensures r == Failure(NoCTImages) <==> |CTRecords(records)| == 0
    ensures r == Failure(MissingInstanceNumber) <==>
      |CTRecords(records)| > 0 && !AllNumbered(CTRecords(records))
    ensures r.Failure? ==> r.error == NoCTImages || r.error == MissingInstanceNumber
    ensures r.Success? ==> |r.value| == |CTRecords(records)| >= 1
    ensures r.Success? ==> r.value == SortByInstance(CTRecords(records))
  {
    var cts := CTRecords(records);
    if |cts| == 0 then Failure(NoCTImages)
    else if !AllNumbered(cts) then Failure(MissingInstanceNumber)
    else
      var files := SortByInstance(cts);
      assert |files| == |cts| by { assert |multiset(files)| == |multiset(cts)|; }
      Success(files)
  }

  /** The rest of the loader on the sorted slices, up to and including the filled volume. */
  function AssembleSorted(files: seq<SliceRecord>): (r: Result<Assembly, LoadError>)
    requires |files| >= 1
    ensures r.Failure? ==>
      r.error == MissingSliceLocation || r.error == MalformedWindowTag || r.error == ShapeMismatch
    ensures r == Failure(ShapeMismatch) <==>
      && ThicknessOf(files, files[0].pixelSpacing).Success? && DefaultWindow(files[0]).Success?
      && !FramesFit(files, files[0].rows, files[0].columns)
    ensures r.Success? <==>
      && ThicknessOf(files, files[0].pixelSpacing).Success? && DefaultWindow(files[0]).Success?
      && FramesFit(files, files[0].rows, files[0].columns)
    ensures r.Success? ==>
      && r.value.files == files
      && r.value.spacing == files[0].pixelSpacing
      && Success(r.value.thickness) == ThicknessOf(files, files[0].pixelSpacing)
      && Success(r.value.window) == DefaultWindow(files[0])
      && r.value.rows == files[0].rows && r.value.columns == files[0].columns
      && r.value.volume == HuVolume(files, RescaleOf(files[0]).0, RescaleOf(files[0]).1)
  {
    var first := files[0];
    match ThicknessOf(files, first.pixelSpacing)
    case Failure(e) => Failure(e)
    case Success(thickness) =>
      match DefaultWindow(first)
      case Failure(e) => Failure(e)
      case Success(window) =>
        var (slope, intercept) := RescaleOf(first);
        if !FramesFit(files, first.rows, first.columns) then Failure(ShapeMismatch)
        else Success(Assembly(files, first.pixelSpacing, thickness, window,
                              first.rows, first.columns, HuVolume(files, slope, intercept)))
  }

  /** The loader, stage by stage, up to and including the filled volume. */
  function Assemble(records: seq<SliceRecord>): (r: Result<Assembly, LoadError>)
    ensures r.Failure? ==> r.error != ZeroSpacing
    ensures SortedSlices(records).Failure? ==> r == Failure(SortedSlices(records).error)
    ensures r.Success? ==> r.value.files == SortByInstance(CTRecords(records)) && |r.value.files| >= 1
  {
    match SortedSlices(records)
    case Failure(e) => Failure(e)
    case Success(files) => AssembleSorted(files)
  }

  /** Loading fails with NoCTImages exactly when no record is a CT image. */
  lemma AssembleNoCT(records: seq<SliceRecord>)
    ensures Assemble(records) == Failure(NoCTImages) <==>
      forall i :: 0 <= i < |records| ==> !IsCT(records[i])
  {
    CTRecordsEmpty(records);
  }

  /**
   * The slices a load keeps once its first stage succeeds (and so the slices
   * of a successful load) are the CT records, in ascending instance
   * number, with records of equal instance number in their original order.
   */
  lemma AssembleOrder(records: seq<SliceRecord>)
    requires SortedSlices(records).Success?
    ensures var files := SortedSlices(records).value;
      && Sorted(files, InstanceKey)
      && multiset(files) == multiset(CTRecords(records))
      && (forall k :: WithKey(files, InstanceKey, k) == WithKey(CTRecords(records), InstanceKey, k))
      && (Assemble(records).Success? ==> Assemble(records).value.files == files)
  {
    var cts := CTRecords(records);
    SortSorted(cts, InstanceKey);
    forall k ensures WithKey(Sort(cts, InstanceKey), InstanceKey, k) == WithKey(cts, InstanceKey, k) {
      SortStable(cts, InstanceKey, k);
    }
  }

  /**
   * The volume of a successful load has one Rows x Columns slice per CT record,
   * and every voxel is that record's sample converted with the FIRST record's
   * slope and intercept (1.0 and 0.0 when absent).
   */
  lemma AssembleVolume(records: seq<SliceRecord>)
    requires Assemble(records).Success?
    ensures var a := Assemble(records).value;
      |a.volume| == |a.files| == |CTRecords(records)| >= 1 &&
      a.rows == a.files[0].rows && a.columns == a.files[0].columns &&
      a.spacing == a.files[0].pixelSpacing &&
      forall i, r, c :: 0 <= i < |a.volume| && 0 <= r < a.rows && 0 <= c < a.columns ==>
        |a.volume[i]| == a.rows && |a.volume[i][r]| == a.columns &&
        a.volume[i][r][c] == HuValue(a.files[i].pixels[r][c],
                                     RescaleOf(a.files[0]).0, RescaleOf(a.files[0]).1)
  {
    var cts := CTRecords(records);
    assert |multiset(SortByInstance(cts))| == |multiset(cts)|;
  }
}
