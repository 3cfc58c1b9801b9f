/**
 * The session state of DicomViewerApp that the core reads and writes: the
 * loaded volume and its geometry, the window and slice slider variables, the
 * slider ranges and the MPR mode.  Widgets, dialogs and drawing are not part
 * of it; a slider's value is its field here, and a redraw is UpdateImages,
 * which returns what update_images would draw.
 */
module Viewer {
  import opened Wrappers
  import opened Records
  import opened Assembly
  import opened Planes

  /** How far a load got before failing; stage k means the k-th group of field updates was made. */
  function FailureStage(e: LoadError): nat
  {
    match e
    case NoCTImages => 0
    case MissingInstanceNumber => 0
    case MissingSliceLocation => 1
    case MalformedWindowTag => 2
    case ShapeMismatch => 3
    case ZeroSpacing => 4
  }

  /** The load succeeded or failed only after making the stage-th group of updates. */
  predicate Reached(outcome: Result<(), LoadError>, stage: nat)
  {
    outcome.Success? || FailureStage(outcome.error) >= stage
  }

  /** The outcome of a load: the assembly, then the aspect of the current mode. */
  function LoadOutcome(records: seq<SliceRecord>, mode: Mode): (r: Result<(), LoadError>)
    ensures Assemble(records).Failure? ==> r == Failure(Assemble(records).error)
    ensures Assemble(records).Success? ==>
      r == if MprAspect(mode, Assemble(records).value.thickness, Assemble(records).value.spacing).Some?
           then Success(()) else Failure(ZeroSpacing)
  {
    match SortedSlices(records)
    case Failure(e) => Failure(e)
    case Success(files) => SlicesOutcome(files, mode)
  }

  /** The outcome of a load once the slices are sorted. */
  function SlicesOutcome(files: seq<SliceRecord>, mode: Mode): (r: Result<(), LoadError>)
    requires |files| >= 1
    ensures r.Success? ==> AssembleSorted(files).Success?
    ensures r == Failure(ZeroSpacing) <==>
      AssembleSorted(files).Success? &&
      MprAspect(mode, AssembleSorted(files).value.thickness, files[0].pixelSpacing).None?
    ensures AssembleSorted(files).Failure? ==> r == Failure(AssembleSorted(files).error)
    ensures AssembleSorted(files).Success? ==>
      r == if MprAspect(mode, AssembleSorted(files).value.thickness, files[0].pixelSpacing).Some?
           then Success(()) else Failure(ZeroSpacing)
  {
    match AssembleSorted(files)
    case Failure(e) => Failure(e)
    case Success(a) =>
      if MprAspect(mode, a.thickness, a.spacing).None? then Failure(ZeroSpacing) else Success(())
  }

  /** The CT records, checked and sorted by instance number: the first stage of a load. */
  method CollectSlices(records: seq<SliceRecord>) returns (r: Result<seq<SliceRecord>, LoadError>)
    ensures r == SortedSlices(records)
  {
    var files := FilterCT(records);
    if |files| == 0 {
      return Failure(NoCTImages);
    }
    if !AllNumbered(files) {
      return Failure(MissingInstanceNumber);
    }
    r := Success(SortByInstance(files));
  }

  /** How the thickness and window stages of a load end. */
  function TagsOutcome(files: seq<SliceRecord>): (r: Result<(), LoadError>)
    requires |files| >= 1
    ensures r.Failure? ==> FailureStage(r.error) <= 2
    ensures r.Success? <==>
      ThicknessOf(files, files[0].pixelSpacing).Success? && DefaultWindow(files[0]).Success?
    ensures ThicknessOf(files, files[0].pixelSpacing).Failure? ==>
      r == Failure(ThicknessOf(files, files[0].pixelSpacing).error)
    ensures ThicknessOf(files, files[0].pixelSpacing).Success? && DefaultWindow(files[0]).Failure? ==>
      r == Failure(DefaultWindow(files[0]).error)
  {
    match ThicknessOf(files, files[0].pixelSpacing)
    case Failure(e) => Failure(e)
    case Success(_) =>
      match DefaultWindow(files[0])
      case Failure(e) => Failure(e)
      case Success(_) => Success(())
  }

  /** How the volume and view-mode stages of a load end. */
  function VolumeOutcome(files: seq<SliceRecord>, mode: Mode, thickness: real, spacing: (real, real)): (r: Result<(), LoadError>)
    requires |files| >= 1
    ensures Reached(r, 3)
    ensures r == Failure(ShapeMismatch) <==> !FramesFit(files, files[0].rows, files[0].columns)
    ensures r == Failure(ZeroSpacing) <==>
      FramesFit(files, files[0].rows, files[0].columns) && MprAspect(mode, thickness, spacing).None?
    ensures r.Success? <==>
      FramesFit(files, files[0].rows, files[0].columns) && MprAspect(mode, thickness, spacing).Some?
  {
    if !FramesFit(files, files[0].rows, files[0].columns) then Failure(ShapeMismatch)
    else if MprAspect(mode, thickness, spacing).None? then Failure(ZeroSpacing)
    else Success(())
  }

  /**
   * The allocation of the zero volume and the loop that fills it slice by
   * slice; it stops at the first frame that does not have the given shape.
   */
  method FillVolume(files: seq<SliceRecord>, rows: Extent, columns: Extent, slope: real, intercept: real)
    returns (vol: array<Image>, fits: bool)
    ensures fresh(vol) && vol.Length == |files|
    ensures fits <==> FramesFit(files, rows, columns)
    ensures fits ==> vol[..] == HuVolume(files, slope, intercept) && WellFormed(vol[..], rows, columns)
  {
    vol := new Image[|files|](_ => Zeros(rows, columns));
    var i := 0;
    while i < |files|
      invariant 0 <= i <= |files|
      invariant forall j :: 0 <= j < i ==> Shaped(files[j].pixels, rows, columns)
      invariant forall j :: 0 <= j < i ==> vol[j] == HuImage(files[j].pixels, slope, intercept)
    {
      if !Shaped(files[i].pixels, rows, columns) {
        return vol, false;
      }
      vol[i] := HuImage(files[i].pixels, slope, intercept);
      i := i + 1;
    }
    fits := true;
    forall d | 0 <= d < vol.Length ensures Shaped(vol[..][d], rows, columns) {
      assert Shaped(files[d].pixels, rows, columns);
    }
  }

  /** The rows x columns frame of zeros np.zeros allocates. */
  function Zeros(rows: Extent, columns: Extent): (img: Image)
    ensures Shaped(img, rows, columns)
  {
    seq(rows, _ => seq(columns, _ => 0))
  }

  class DicomViewer {
    var volumeData: array?<Image>   // None until a load succeeds
    var rows: Extent                // volume_data.shape[1]
    var columns: Extent             // volume_data.shape[2]
    var dicomFiles: seq<SliceRecord>
    var pixelSpacing: (real, real)
    var sliceThickness: real
    var wl: int                     // wl_var
    var ww: int                     // ww_var
    var axialIndex: int             // axial_slice_var
    var mprIndex: int               // mpr_slice_var
    var axialMax: int               // the axial slider's `to`
    var mprMax: int                 // the MPR slider's `to`
    var mode: Mode                  // mpr_mode_var

    /** The slider positions stay on their sliders, and a loaded volume fits its shape. */
    ghost predicate Valid()
      reads this, volumeData
    {
      && 0 <= axialIndex && 0 <= mprIndex
      && (volumeData != null ==>
            && volumeData.Length >= 1
            && WellFormed(volumeData[..], rows, columns)
            && axialMax == volumeData.Length - 1 && axialIndex <= axialMax
            && mprIndex <= mprMax)
    }

    /** The state __init__ sets up before its first load. */
    constructor ()
      ensures Valid() && volumeData == null && dicomFiles == []
      ensures pixelSpacing == (1.0, 1.0) && sliceThickness == 1.0
      ensures wl == 40 && ww == 400
      ensures axialIndex == 0 && mprIndex == 0 && axialMax == 100 && mprMax == 100
      ensures mode == Sagittal
    {
      volumeData := null;
      rows, columns := 1, 1;
      dicomFiles := [];
      pixelSpacing := (1.0, 1.0);
      sliceThickness := 1.0;
      wl, ww := 40, 400;
      axialIndex, mprIndex := 0, 0;
      axialMax, mprMax := 100, 100;
      mode := Sagittal;
    }

    /**
     * update_view_mode: on a loaded volume, the MPR slider's range becomes the
     * extent of the mode's axis and its position that range's midpoint, whatever
     * it was.  A zero divisor in the aspect raises before either is changed.
     */
    method UpdateViewMode() returns (ok: bool)
      modifies this`mprMax, this`mprIndex
      ensures ok <==> volumeData == null || MprAspect(mode, sliceThickness, pixelSpacing).Some?
      ensures ok && volumeData != null ==>
        mprMax == MprExtent(mode, rows, columns) - 1 && mprIndex == mprMax / 2
      ensures !ok || volumeData == null ==> mprMax == old(mprMax) && mprIndex == old(mprIndex)
    {
      if volumeData == null {
        return true;
      }
      var current := mprIndex;
      var maxIndex: int;
      if mode == Sagittal {
        maxIndex := columns - 1;
      } else {
        maxIndex := rows - 1;
      }
      var aspect := MprAspect(mode, sliceThickness, pixelSpacing);
      if aspect.None? {
        return false;
      }
      mprMax := maxIndex;
      if current > maxIndex {
        mprIndex := maxIndex / 2;
      } else if current < 0 {
        mprIndex := maxIndex / 2;
      } else {
        mprIndex := maxIndex / 2;
      }
      ok := true;
    }

    /** A click on the Sagittal or Coronal radio button: the mode is set, then update_view_mode runs. */
    method SelectMode(m: Mode) returns (ok: bool)
      requires Valid()
      modifies this`mode, this`mprMax, this`mprIndex
      ensures Valid() && mode == m
      ensures ok <==> volumeData == null || MprAspect(m, sliceThickness, pixelSpacing).Some?
      ensures ok && volumeData != null ==>
        mprMax == MprExtent(m, rows, columns) - 1 && mprIndex == mprMax / 2
      ensures !ok || volumeData == null ==> mprMax == old(mprMax) && mprIndex == old(mprIndex)
    {
      mode := m;
      ok := UpdateViewMode();
    }

    /**
     * load_dicom_folder on the records that parsed.  A failure leaves no volume,
     * and the fields the source had already assigned keep their new values.
     */
    method Load(records: seq<SliceRecord>) returns (outcome: Result<(), LoadError>)
      requires Valid()
      modifies this
      ensures Valid()
      ensures outcome == LoadOutcome(records, mode)
      ensures mode == old(mode)
      ensures outcome.Success? <==> volumeData != null
      ensures outcome.Success? ==> fresh(volumeData)
      ensures Reached(outcome, 1) ==>
        && SortedSlices(records).Success?
        && dicomFiles == SortedSlices(records).value && |dicomFiles| >= 1
        && pixelSpacing == dicomFiles[0].pixelSpacing
      ensures !Reached(outcome, 1) ==> dicomFiles == old(dicomFiles) && pixelSpacing == old(pixelSpacing)
      ensures Reached(outcome, 2) ==> ThicknessOf(dicomFiles, pixelSpacing) == Success(sliceThickness)
      ensures !Reached(outcome, 2) ==> sliceThickness == old(sliceThickness)
      ensures Reached(outcome, 3) ==>
        && DefaultWindow(dicomFiles[0]).Success?
        && (wl, ww) == DefaultWindow(dicomFiles[0]).value.GetOr((old(wl), old(ww)))
      ensures !Reached(outcome, 3) ==> wl == old(wl) && ww == old(ww)
      ensures Reached(outcome, 4) ==>
        && rows == dicomFiles[0].rows && columns == dicomFiles[0].columns
        && axialMax == |dicomFiles| - 1 && axialIndex == |dicomFiles| / 2
      ensures !Reached(outcome, 4) ==>
        && rows == old(rows) && columns == old(columns)
        && axialMax == old(axialMax) && axialIndex == old(axialIndex)
      ensures outcome.Success? ==>
        && Assemble(records).Success?
        && volumeData[..] == Assemble(records).value.volume
        && mprMax == MprExtent(mode, rows, columns) - 1 && mprIndex == mprMax / 2
      ensures outcome.Failure? ==> mprMax == old(mprMax) && mprIndex == old(mprIndex)
    {
      var sorted := CollectSlices(records);
      if sorted.Failure? {
        volumeData := null;
        return Failure(sorted.error);
      }
      outcome := LoadSlices(sorted.value);
    }

    /** A load from the point where the slices are sorted. */
    method LoadSlices(files: seq<SliceRecord>) returns (outcome: Result<(), LoadError>)
      requires Valid() && |files| >= 1
      modifies this
      ensures Valid()
      ensures outcome == SlicesOutcome(files, mode)
      ensures mode == old(mode)
      ensures outcome.Success? <==> volumeData != null
      ensures outcome.Success? ==> fresh(volumeData)
      ensures dicomFiles == files && pixelSpacing == files[0].pixelSpacing
      ensures Reached(outcome, 2) ==> ThicknessOf(files, pixelSpacing) == Success(sliceThickness)
      ensures !Reached(outcome, 2) ==> sliceThickness == old(sliceThickness)
      ensures Reached(outcome, 3) ==>
        && DefaultWindow(files[0]).Success?
        && (wl, ww) == DefaultWindow(files[0]).value.GetOr((old(wl), old(ww)))
      ensures !Reached(outcome, 3) ==> wl == old(wl) && ww == old(ww)
      ensures Reached(outcome, 4) ==>
        && rows == files[0].rows && columns == files[0].columns
        && axialMax == |files| - 1 && axialIndex == |files| / 2
      ensures !Reached(outcome, 4) ==>
        && rows == old(rows) && columns == old(columns)
        && axialMax == old(axialMax) && axialIndex == old(axialIndex)
      ensures outcome.Success? ==>
        && AssembleSorted(files).Success?
        && volumeData[..] == AssembleSorted(files).value.volume
        && mprMax == MprExtent(mode, rows, columns) - 1 && mprIndex == mprMax / 2
      ensures outcome.Failure? ==> mprMax == old(mprMax) && mprIndex == old(mprIndex)
    {
      dicomFiles := files;
      pixelSpacing := files[0].pixelSpacing;
      outcome := ReadTags(files);
      if outcome.Failure? {
        volumeData := null;
        return;
      }
      outcome := ReadVolume(files);
    }

    /**
     * The slice thickness and the default window of the sorted slices, the
     * stages of a load between the sort and the volume.
     */
    method ReadTags(files: seq<SliceRecord>) returns (r: Result<(), LoadError>)
      requires |files| >= 1
      modifies this`sliceThickness, this`wl, this`ww
      ensures r == TagsOutcome(files)
      ensures Reached(r, 2) ==> ThicknessOf(files, files[0].pixelSpacing) == Success(sliceThickness)
      ensures !Reached(r, 2) ==> sliceThickness == old(sliceThickness)
      ensures Reached(r, 3) ==>
        && DefaultWindow(files[0]).Success?
        && (wl, ww) == DefaultWindow(files[0]).value.GetOr((old(wl), old(ww)))
      ensures !Reached(r, 3) ==> wl == old(wl) && ww == old(ww)
    {
      var thickness := ThicknessOf(files, files[0].pixelSpacing);
      if thickness.Failure? {
        return Failure(thickness.error);
      }
      sliceThickness := thickness.value;
      var window := DefaultWindow(files[0]);
      if window.Failure? {
        return Failure(window.error);
      }
      if window.value.Some? {
        wl, ww := window.value.value.0, window.value.value.1;
      }
      r := Success(());
    }

    /**
     * The volume of the sorted slices, the axial slider's range and position,
     * and update_view_mode: the last stages of a load.
     */
    method ReadVolume(files: seq<SliceRecord>) returns (r: Result<(), LoadError>)
      requires Valid() && |files| >= 1
      modifies this`volumeData, this`rows, this`columns, this`axialMax, this`axialIndex, this`mprMax, this`mprIndex
      ensures Valid()
      ensures r.Success? <==> volumeData != null
      ensures r.Success? ==> fresh(volumeData)
      ensures r == VolumeOutcome(files, mode, sliceThickness, pixelSpacing)
      ensures Reached(r, 4) ==>
        && rows == files[0].rows && columns == files[0].columns
        && axialMax == |files| - 1 && axialIndex == |files| / 2
      ensures !Reached(r, 4) ==>
        && rows == old(rows) && columns == old(columns)
        && axialMax == old(axialMax) && axialIndex == old(axialIndex)
      ensures r.Success? ==>
        && volumeData[..] == HuVolume(files, RescaleOf(files[0]).0, RescaleOf(files[0]).1)
        && mprMax == MprExtent(mode, rows, columns) - 1 && mprIndex == mprMax / 2
      ensures r.Failure? ==> mprMax == old(mprMax) && mprIndex == old(mprIndex)
    {
      var first := files[0];
      var (slope, intercept) := RescaleOf(first);
      var vol, fits := FillVolume(files, first.rows, first.columns, slope, intercept);
      if !fits {
        volumeData := null;
        return Failure(ShapeMismatch);
      }
      volumeData := vol;
      rows, columns := first.rows, first.columns;
      axialMax := |files| - 1;
      axialIndex := |files| / 2;
      var ok := UpdateViewMode();
      if !ok {
        volumeData := null;
        return Failure(ZeroSpacing);
      }
      r := Success(());
    }

    /** update_images: the frame the current slider values show, or why there is none. */
    method UpdateImages() returns (f: Result<Frame, RenderError>)
      requires Valid()
      ensures volumeData == null ==> f == Failure(NoVolume)
      ensures volumeData != null ==>
        f == Render(volumeData[..], rows, columns, pixelSpacing, sliceThickness, mode, axialIndex, mprIndex, wl, ww)
      ensures (volumeData != null && mprMax == MprExtent(mode, rows, columns) - 1 &&
               MprAspect(mode, sliceThickness, pixelSpacing).Some? && ww != 0) ==> f.Success?
    {
      if volumeData == null {
        return Failure(NoVolume);
      }
      f := Render(volumeData[..], rows, columns, pixelSpacing, sliceThickness, mode, axialIndex, mprIndex, wl, ww);
    }
  }
}
