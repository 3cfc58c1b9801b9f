/**
 * The view side of `update_view_mode` and `update_images`: which MPR plane a
 * mode cuts, how far its index may go, the aspect it is drawn with, the two
 * windowed planes and the crosshair drawn on the axial view.
 */
module Planes {
  import opened Wrappers
  import opened Records
  import opened Windowing

  /** A volume indexed [depth][row][column]. */
  type Volume = seq<Image>

  datatype Mode = Sagittal | Coronal

  predicate WellFormed(vol: Volume, rows: int, columns: int)
  {
    forall d :: 0 <= d < |vol| ==> Shaped(vol[d], rows, columns)
  }

  /** `volume_data[:, :, c]`: depth x rows. */
  function SagittalPlane(vol: Volume, rows: Extent, columns: Extent, c: int): (p: Image)
    requires WellFormed(vol, rows, columns) && 0 <= c < columns
    ensures Shaped(p, |vol|, rows)
    ensures forall d, r :: 0 <= d < |vol| && 0 <= r < rows ==> p[d][r] == vol[d][r][c]
  {
    seq(|vol|, d requires 0 <= d < |vol| => seq(rows, r requires 0 <= r < rows => vol[d][r][c]))
  }

  /** `volume_data[:, r0, :]`: depth x columns. */
  function CoronalPlane(vol: Volume, rows: Extent, columns: Extent, r0: int): (p: Image)
    requires WellFormed(vol, rows, columns) && 0 <= r0 < rows
    ensures Shaped(p, |vol|, columns)
    ensures forall d, c :: 0 <= d < |vol| && 0 <= c < columns ==> p[d][c] == vol[d][r0][c]
  {
    seq(|vol|, d requires 0 <= d < |vol| => vol[d][r0])
  }

  /** The three planes through voxel (d, r, c) agree on it. */
  lemma PlanesMeet(vol: Volume, rows: Extent, columns: Extent, d: int, r: int, c: int)
    requires WellFormed(vol, rows, columns)
    requires 0 <= d < |vol| && 0 <= r < rows && 0 <= c < columns
    ensures SagittalPlane(vol, rows, columns, c)[d][r] == CoronalPlane(vol, rows, columns, r)[d][c]
    ensures CoronalPlane(vol, rows, columns, r)[d][c] == vol[d][r][c]
  {
  }

  /** Number of positions of the MPR slider: Columns for Sagittal, Rows for Coronal. */
  function MprExtent(mode: Mode, rows: Extent, columns: Extent): (n: Extent)
    ensures mode == Sagittal ==> n == columns
    ensures mode == Coronal ==> n == rows
  {
    match mode
    case Sagittal => columns
    case Coronal => rows
  }

  /**
   * The MPR display aspect: slice thickness over the second pixel spacing for
   * Sagittal, over the first for Coronal; None where Python's float division
   * raises ZeroDivisionError.
   */
  function MprAspect(mode: Mode, thickness: real, spacing: (real, real)): (a: Option<real>)
    ensures mode == Sagittal ==> (a.Some? <==> spacing.1 != 0.0)
    ensures mode == Coronal ==> (a.Some? <==> spacing.0 != 0.0)
    ensures mode == Sagittal && a.Some? ==> a.value * spacing.1 == thickness
    ensures mode == Coronal && a.Some? ==> a.value * spacing.0 == thickness
  {
    var divisor := if mode == Sagittal then spacing.1 else spacing.0;
    if divisor == 0.0 then None else Some(thickness / divisor)
  }

  /** The dashed line on the axial view: a column for Sagittal, a row for Coronal. */
  datatype Crosshair = VerticalLine(x: int) | HorizontalLine(y: int)

  /** What one redraw shows: both windowed planes, the MPR aspect and the crosshair. */
  datatype Frame = Frame(axial: Image, mpr: Image, aspect: real, crosshair: Crosshair)

  datatype RenderError =
    | NoVolume          // nothing loaded: update_images returns at once
    | IndexOutOfRange   // numpy IndexError on the axial or MPR index
    | ZeroSpacingAspect // ZeroDivisionError in the aspect
    | UndefinedWindow   // ww == 0: the source divides by zero and casts NaN

  /**
   * One call of update_images on a loaded volume, for slider values wl, ww, the
   * axial index z and the MPR index k.
   */
  function Render(vol: Volume, rows: Extent, columns: Extent, spacing: (real, real), thickness: real,
                  mode: Mode, z: int, k: int, wl: int, ww: int): (f: Result<Frame, RenderError>)
    requires WellFormed(vol, rows, columns)
    ensures f == Failure(IndexOutOfRange) <==> !(0 <= z < |vol|) || !(0 <= k < MprExtent(mode, rows, columns))
    ensures f == Failure(ZeroSpacingAspect) <==>
      0 <= z < |vol| && 0 <= k < MprExtent(mode, rows, columns) && MprAspect(mode, thickness, spacing).None?
    ensures f == Failure(UndefinedWindow) <==>
      0 <= z < |vol| && 0 <= k < MprExtent(mode, rows, columns) && MprAspect(mode, thickness, spacing).Some? && ww == 0
    ensures f != Failure(NoVolume)
    ensures f.Success? ==>
      && ww != 0 && 0 <= z < |vol|
      && Shaped(f.value.axial, rows, columns)
      && (forall r, c :: 0 <= r < rows && 0 <= c < columns ==> f.value.axial[r][c] == ApplyWindow(vol[z][r][c], wl, ww))
      && Some(f.value.aspect) == MprAspect(mode, thickness, spacing)
    ensures f.Success? && mode == Sagittal ==>
      Shaped(f.value.mpr, |vol|, rows) && f.value.crosshair == VerticalLine(k) &&
      forall d, r :: 0 <= d < |vol| && 0 <= r < rows ==> f.value.mpr[d][r] == ApplyWindow(vol[d][r][k], wl, ww)
    ensures f.Success? && mode == Coronal ==>
      Shaped(f.value.mpr, |vol|, columns) && f.value.crosshair == HorizontalLine(k) &&
      forall d, c :: 0 <= d < |vol| && 0 <= c < columns ==> f.value.mpr[d][c] == ApplyWindow(vol[d][k][c], wl, ww)
  {
    if !(0 <= z < |vol|) || !(0 <= k < MprExtent(mode, rows, columns)) then Failure(IndexOutOfRange)
    else
      match MprAspect(mode, thickness, spacing)
      case None => Failure(ZeroSpacingAspect)
      case Some(aspect) =>
        if ww == 0 then Failure(UndefinedWindow)
        else
          var axial := WindowImage(vol[z], wl, ww);
          match mode
          case Sagittal =>
            Success(Frame(axial, WindowImage(SagittalPlane(vol, rows, columns, k), wl, ww), aspect, VerticalLine(k)))
          case Coronal =>
            Success(Frame(axial, WindowImage(CoronalPlane(vol, rows, columns, k), wl, ww), aspect, HorizontalLine(k)))
  }

  /**
   * The crosshair marks where the MPR plane cuts the axial view: the MPR row at
   * the current depth is the axial image along the crosshair line.
   */
  lemma CrosshairMarksPlane(vol: Volume, rows: Extent, columns: Extent, spacing: (real, real), thickness: real,
                            mode: Mode, z: int, k: int, wl: int, ww: int)
    requires WellFormed(vol, rows, columns)
    requires Render(vol, rows, columns, spacing, thickness, mode, z, k, wl, ww).Success?
    ensures var f := Render(vol, rows, columns, spacing, thickness, mode, z, k, wl, ww).value;
      match f.crosshair
      case VerticalLine(x) => 0 <= x < columns && forall r :: 0 <= r < rows ==> f.mpr[z][r] == f.axial[r][x]
      case HorizontalLine(y) => 0 <= y < rows && forall c :: 0 <= c < columns ==> f.mpr[z][c] == f.axial[y][c]
  {
  }
}
