# DICOM 2D/MPR viewer — verified model of its core

`dicom_viewer.py` is a Tk application. It loads a folder of CT slices into a
Hounsfield-unit volume and shows two views: an axial slice and one
multi-planar reconstruction (MPR) plane, either sagittal or coronal. Both are
windowed to grey levels by a window level (WL) and a window width (WW). A
dashed crosshair on the axial view marks where the MPR plane cuts it.

This project models the computing core of that application in Dafny and proves
what it does:

* `Windowing`: `apply_window`. It clips a value to `[wl - ww/2, wl + ww/2]`,
  normalises by `ww`, scales by 255 and truncates to a byte. The model covers
  one pixel and a whole image.
* `Records`: a parsed slice as a `SliceRecord` value, which stands for the
  pydicom dataset, and the Hounsfield conversion of its samples.
* `StableSort`: `list.sort(key=...)`, a stable sort by a real key.
* `Assembly`: the pure middle of `load_dicom_folder`, stage by stage:
  1. keep the CT records;
  2. fail when none is left;
  3. sort by instance number;
  4. take the pixel spacing, slice thickness, default window and rescale
     parameters from the first sorted record;
  5. fill the depth × rows × columns volume.
* `Planes`: the plane extraction, aspect and crosshair of `update_images` and
  `update_view_mode`, as pure functions.
* `Viewer`: the session state of `DicomViewerApp` as a class, with these
  methods:
  * `Load`: `load_dicom_folder` on the records that parsed. Its filter loop
    and fill loop are methods with loop invariants.
  * `UpdateViewMode`: the MPR range, the aspect check and the reset.
  * `SelectMode`: a radio-button click.
  * `UpdateImages`: the frame a redraw shows.

Every failure the model covers is a `Result` value rather than a
precondition:

* no CT record;
* a missing InstanceNumber or SliceLocation;
* WindowCenter and WindowWidth tags of different multiplicity;
* a frame of the wrong shape;
* a zero pixel spacing in the aspect;
* an index out of range;
* a zero window width. The source does not fail there: it divides by zero
  and casts the NaN. The model reports the case so that it is visible.

The failures the model does not cover are listed under "## Left out".

Behaviours of `dicom_viewer.py` that the model keeps and a reader might not
expect:

* A failed load sets `volume_data` to None (line 224). Every field assigned
  before the exception keeps its new value: the file list, the pixel spacing,
  the thickness, the window and the axial slider. The MPR slider keeps its old
  range. The contract of `Viewer.DicomViewer.Load` states this stage by stage.
* `update_view_mode` sets the MPR index to `mpr_max // 2` in all three
  branches (lines 258-264), with `mpr_max` being the extent minus one. The
  index is therefore `(extent - 1) // 2`, whatever it was before.
* Windowing is centred on the level: a value equal to `wl` maps to the middle
  grey. For example, -1024 HU at level -1024 and width 400 gives 127, which is
  127.5 truncated (`Windowing.AirAtItsOwnLevel`).
* The sagittal aspect divides by `pixel_spacing[1]` and the coronal one by
  `pixel_spacing[0]` (lines 242 and 252), exactly as the code does. The code
  reads PixelSpacing as (X, Y) (its comment at line 170). DICOM stores the row
  spacing, the vertical one, first. So for non-square pixels the pairing of
  divisor and plane is swapped relative to DICOM's row-first order.
* The width slider starts at 1, but a WindowWidth tag can set `ww` to any
  integer. The model therefore covers every `ww != 0`. A negative width makes
  the clip bounds cross, so every pixel is 255. A zero width is reported by
  `Render` as `UndefinedWindow`.

## Model

| member | source | states |
|---|---|---|
| Windowing.Clip | dicom_viewer.py:131 | numpy.clip on one value: inside the bounds when they are ordered; unchanged exactly when already inside; pinned to each bound beyond it; the upper bound when the bounds cross |
| Windowing.ApplyWindow | dicom_viewer.py:125-134 | one windowed pixel: always a byte; 0 at or below the lower bound; 255 exactly at or above the upper bound; 255 everywhere for a negative width |
| Windowing.ApplyWindowMonotone | dicom_viewer.py:127-133 | a larger Hounsfield value never gives a darker pixel |
| Windowing.ApplyWindowIntegerForm | dicom_viewer.py:127-133 | for a positive width the pixel equals an integer-only reference: 255 · clamp(2h - 2wl + ww, 0, 2ww) div 2ww |
| Windowing.WindowImage | dicom_viewer.py:125-134 | apply_window on an image keeps its shape and transforms every pixel independently |
| Windowing.AirAtItsOwnLevel | dicom_viewer.py:127-133 | level -1024, width 400 maps -1024 HU to 127, which is 127.5 truncated |
| Records.Wrap16 | dicom_viewer.py:206 | astype(int16): the result is in the int16 range, congruent to the input modulo 2^16, and equal to it when it already fits |
| Records.TruncTowardZero | dicom_viewer.py:208-209 | storing a float into the int16 volume truncates toward zero, by less than one |
| Records.HuImage | dicom_viewer.py:206-208 | a frame's Hounsfield image has the frame's shape, and each value is the wrapped sample times slope plus intercept, truncated |
| Records.HuValue | dicom_viewer.py:206-209 | one voxel; with slope 1 and an integer intercept it is exactly the int16-wrapped sample plus the intercept |
| Records.ZeroSampleIsAir | dicom_viewer.py:206-209 | a zero sample with slope 1 and intercept -1024 becomes -1024 HU |
| StableSort.Insert | dicom_viewer.py:163 | inserting adds exactly the one element to the multiset |
| StableSort.Sort | dicom_viewer.py:163 | the sort is a permutation of its input |
| StableSort.InsertSorted | dicom_viewer.py:163 | insertion into a sorted sequence keeps it sorted |
| StableSort.InsertKeepsOrderOfKey | dicom_viewer.py:163 | insertion puts the new element after all earlier elements of its key |
| StableSort.SortSorted | dicom_viewer.py:163 | the sorted sequence ascends by key |
| StableSort.SortStable | dicom_viewer.py:163 | for every key, the elements carrying it keep their original relative order |
| Assembly.CTRecords | dicom_viewer.py:154-155 | the CT list holds exactly the records whose Modality tag is present and equals "CT", and no more than the input |
| Assembly.CTRecordsCount | dicom_viewer.py:154-155 | the CT list keeps each CT record exactly as often as the input holds it, and no other record |
| Assembly.FilterCT | dicom_viewer.py:147-157 | the append loop builds exactly the CT list, in listing order |
| Assembly.CTRecordsEmpty | dicom_viewer.py:159-160 | the CT list is empty exactly when no record is a CT image |
| Assembly.ThicknessOf | dicom_viewer.py:174-181 | the SliceThickness tag when present; else, with two or more records, the non-negative distance between the first two slice locations, failing exactly when one is missing; else the first pixel spacing |
| Assembly.DefaultWindow | dicom_viewer.py:184-194 | no default without both tags; otherwise the truncated first values, with success exactly when both tags are multi-valued or both single; otherwise MalformedWindowTag |
| Assembly.HuVolume | dicom_viewer.py:205-209 | one converted slice per record, all with the one slope and intercept given |
| Assembly.SortedSlices | dicom_viewer.py:154-163 | the first stage fails with NoCTImages exactly when the CT list is empty, with MissingInstanceNumber exactly when it is non-empty and some record lacks the tag, and otherwise yields the CT list sorted by instance number, of the same length |
| Assembly.RescaleOf | dicom_viewer.py:197-198 | the first record's RescaleSlope and RescaleIntercept, 1.0 and 0.0 when the tag is absent |
| Assembly.AssembleSorted | dicom_viewer.py:165-209 | on sorted slices: success exactly when thickness and window succeed and every frame fits; ShapeMismatch exactly when only the frames fail; on success the files, the first record's spacing, Rows and Columns, the thickness, the window and the volume converted with the first record's rescale |
| Assembly.Assemble | dicom_viewer.py:145-209 | the whole pure loader: a failure of the first stage is the load's failure; it never fails with ZeroSpacing; a success holds the CT list sorted by instance number, never empty |
| Assembly.AssembleNoCT | dicom_viewer.py:159-160 | a load fails with NoCTImages exactly when no record has modality CT |
| Assembly.AssembleOrder | dicom_viewer.py:163-165 | once the first stage succeeds (line 165 assigns them before any later stage can fail), the slices are the CT records: a permutation of them, ascending by instance number, stable on ties; a successful load holds exactly these slices |
| Assembly.AssembleVolume | dicom_viewer.py:197-209 | the volume is one Rows × Columns slice per CT record, for the first record's Rows, Columns and spacing; each voxel is that record's sample converted with the first record's slope and intercept, defaulting to 1.0 and 0.0 |
| Planes.SagittalPlane | dicom_viewer.py:290 | volume_data[:, :, c] is depth × rows, with mpr[d][r] = vol[d][r][c] |
| Planes.CoronalPlane | dicom_viewer.py:296 | volume_data[:, r, :] is depth × columns, with mpr[d][c] = vol[d][r][c] |
| Planes.PlanesMeet | dicom_viewer.py:283-296 | the sagittal and coronal planes through a voxel agree with the volume on it |
| Planes.MprExtent | dicom_viewer.py:235-248 | the MPR axis has Columns positions for Sagittal and Rows for Coronal |
| Planes.MprAspect | dicom_viewer.py:242-252 | the aspect is defined exactly when the mode's divisor is nonzero: pixel_spacing[1] for Sagittal, pixel_spacing[0] for Coronal; aspect times divisor is the slice thickness |
| Planes.Render | dicom_viewer.py:269-326 | each failure exactly when its condition holds, in the order the source meets them (index, aspect, zero width); on success the axial image is vol[z] windowed pixel by pixel, the MPR image is the mode's plane windowed pixel by pixel, the aspect is MprAspect, and the crosshair is a vertical line at x = k for Sagittal or a horizontal line at y = k for Coronal |
| Planes.CrosshairMarksPlane | dicom_viewer.py:321-326 | the crosshair lies inside the axial image, and the MPR row at the current depth equals the axial pixels along that line |
| Viewer.CollectSlices | dicom_viewer.py:147-163 | filtering, empty and instance-number checks and the sort give exactly the first stage of the assembly |
| Viewer.LoadOutcome | dicom_viewer.py:145-224 | the outcome of a load is the assembly's failure, or, after a successful assembly, ZeroSpacing exactly when the current mode's aspect is undefined |
| Viewer.SlicesOutcome | dicom_viewer.py:165-224 | the same from the sorted slices on: success exactly when the assembly succeeded and the aspect is defined, ZeroSpacing exactly when the assembly succeeded and the aspect is undefined, and otherwise the assembly's failure |
| Viewer.TagsOutcome | dicom_viewer.py:174-194 | the thickness and window stages succeed exactly when both ThicknessOf and DefaultWindow do; otherwise the first failing one's error, which is at stage 1 or 2 |
| Viewer.VolumeOutcome | dicom_viewer.py:202-220 | the volume and view-mode stages: ShapeMismatch exactly when a frame does not fit, ZeroSpacing exactly when all fit and the aspect is undefined, success exactly when all fit and it is defined |
| Viewer.FillVolume | dicom_viewer.py:202-209 | a fresh array of one slice per record; it reports a fit exactly when every frame has the first record's shape, and then holds exactly the converted volume, every slice Rows × Columns |
| Viewer.Zeros | dicom_viewer.py:203 | np.zeros of a frame has the frame's shape |
| Viewer.DicomViewer.constructor | dicom_viewer.py:24-106 | the initial state: no volume, no files, spacing (1.0, 1.0), thickness 1.0, WL 40, WW 400, both indices 0, both slider maxima 100, Sagittal |
| Viewer.DicomViewer.UpdateViewMode | dicom_viewer.py:227-264 | without a volume nothing changes; otherwise it succeeds exactly when the aspect is defined, and then sets the MPR maximum to the mode's extent minus one and the index to maximum // 2, whatever the index was; on failure both stay |
| Viewer.DicomViewer.SelectMode | dicom_viewer.py:106-110 | a mode click sets the mode, then behaves as update_view_mode for the new mode, keeping the state valid |
| Viewer.DicomViewer.Load | dicom_viewer.py:145-224 | outcome equals the staged pure loader followed by the aspect check; a volume exists exactly on success, and it is the assembled volume; each stage's fields (files and spacing, thickness, window, shape and axial slider at n - 1 and n // 2) are updated exactly when that stage was reached and unchanged otherwise; on success the MPR slider is reset as in update_view_mode; the state stays valid |
| Viewer.DicomViewer.LoadSlices | dicom_viewer.py:165-224 | the same, from the point where the slices are sorted, against the stages on sorted slices |
| Viewer.DicomViewer.ReadTags | dicom_viewer.py:174-194 | sets the thickness when its stage succeeds and the window slider values only when both tags are usable, each left alone otherwise |
| Viewer.DicomViewer.ReadVolume | dicom_viewer.py:196-224 | the volume is kept exactly on success and is then the converted volume; shape and axial slider are set once every frame fits; a zero-spacing aspect then clears the volume |
| Viewer.DicomViewer.UpdateImages | dicom_viewer.py:269-297 | nothing to draw without a volume; otherwise the frame Render gives for the current fields, which succeeds whenever the MPR slider's range is the mode's, the aspect is defined and the width is nonzero |

## Left out

- Directory listing, file tests and `pydicom.dcmread`: the loader receives the records that parsed, in listing order, and files that fail to parse are simply absent. The pixel decoding of `pixel_array` is also left out: a record carries its samples as integers.
- Assembly.ThicknessOf and Assembly.RescaleOf: a SliceThickness, RescaleSlope or RescaleIntercept tag that is present with an empty value (legal for a Type 2 attribute) is the same as an absent tag here. `float()` of the empty value raises in the source (lines 175, 197, 198) and fails the load. The model instead estimates the thickness or uses the 1.0 / 0.0 defaults. An empty WindowCenter or WindowWidth, by contrast, is a sequence of no values and fails with MalformedWindowTag.
- A record always has PixelSpacing, Rows and Columns. The error of a missing tag is not modelled, and neither is a Rows or Columns of zero (`Extent` is at least 1).
- `Viewer.FillVolume` reports a frame of the wrong shape as ShapeMismatch. numpy would broadcast a frame of shape 1 × Columns or Rows × 1 into the slice instead.
- The model does not cover overflow of the float-to-int16 store at line 209. The truncation toward zero is modelled, and so is the int16 wrap-around of the sample.
- Slope, intercept, thicknesses and the division in `apply_window` are exact reals, not IEEE doubles.
- `Planes.Render` treats a negative slider index as out of range. numpy would count it from the end. The sliders never go below 0, and `Valid()` keeps both indices at 0 or above.
- The model does not cover matplotlib's `set_aspect` rejecting a zero or negative aspect (lines 243 and 253), which raises ValueError in the source. Only Python's ZeroDivisionError is modelled. For example, two slices without a SliceThickness tag at one SliceLocation give thickness 0.0. That load succeeds in the model and fails in the source.
- `Planes.Render` reports a zero window width as UndefinedWindow. The source produces NaN there and casts it to some byte.
- Tk widgets, sliders, labels, message boxes, the `Exit` menu and `root.quit`: a slider's value and its `to` are fields of `Viewer.DicomViewer`.
- matplotlib drawing, titles, `imshow`, the dashed line and `canvas.draw`: `Planes.Render` returns what would be drawn, and `Planes.Frame` carries it.
- The redraw that ends `update_view_mode` is not modelled. The caller runs `Viewer.DicomViewer.UpdateImages` next.
- The `print` logging at lines 211-214.
- The initial `load_dicom_folder` run from `__init__` (line 123) and the dialog-cancel branch (lines 138-143): a session starts from the constructor, and `Load` is called with the chosen records.
- The in-place mechanics of `files.sort`: the model computes the sorted sequence as a value, with all of its properties proved.
- The Windows DPI call (lines 340-345).
