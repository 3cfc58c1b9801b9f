/**
 * The window-level / window-width transform of `apply_window`: a Hounsfield
 * value is clipped to [wl - ww/2, wl + ww/2], shifted to start at 0, divided by
 * ww, scaled by 255 and truncated to an unsigned byte.
 *
 * wl and ww are the integer slider variables; ww/2 is Python's true division,
 * so the bounds are reals.  numpy.clip(x, lo, hi) is minimum(maximum(x, lo), hi),
 * which is what Clip says even when lo > hi (a negative width).
 */
module Windowing {

  function Min(a: real, b: real): real { if a <= b then a else b }

  function Max(a: real, b: real): real { if a >= b then a else b }

  /** numpy.clip on one element. */
  function Clip(x: real, lo: real, hi: real): (r: real)
    ensures lo <= hi ==> lo <= r <= hi
    ensures lo <= hi ==> (r == x <==> lo <= x <= hi)
    ensures lo <= hi && x <= lo ==> r == lo
    ensures x >= hi ==> r == hi
    ensures lo > hi ==> r == hi
  {
    Min(Max(x, lo), hi)
  }

  /** min_val of apply_window. */
  function Low(wl: int, ww: int): real { wl as real - ww as real / 2.0 }

  /** max_val of apply_window. */
  function High(wl: int, ww: int): real { wl as real + ww as real / 2.0 }

  /**
   * For 0 <= n <= d the truncated scaled ratio n/d*255 is a byte, 0 when n is 0,
   * and 255 exactly when n == d.
   */
  lemma ScaledRatioFloor(n: real, d: real)
    requires 0.0 <= n <= d && d > 0.0
    ensures 0 <= (n / d * 255.0).Floor <= 255
    ensures n == 0.0 ==> (n / d * 255.0).Floor == 0
    ensures (n / d * 255.0).Floor == 255 <==> n == d
  {
    var q := n / d;
    assert q * d == n;
    assert (1.0 - q) * d == d - n;
    assert 0.0 <= q <= 1.0;
    assert q == 1.0 <==> n == d;
  }

  /** A nonzero real divided by itself and scaled is 255. */
  lemma SelfRatio(d: real)
    requires d != 0.0
    ensures (d / d * 255.0).Floor == 255
  {
    assert d / d == 1.0;
  }

  /**
   * One pixel of apply_window.  The result is the uint8 the source stores, the
   * truncation of a non-negative float being its floor.
   */
  function ApplyWindow(h: int, wl: int, ww: int): (v: int)
    requires ww != 0
    ensures 0 <= v <= 255
    ensures ww > 0 && h as real <= Low(wl, ww) ==> v == 0
    ensures ww > 0 ==> (v == 255 <==> h as real >= High(wl, ww))
    ensures ww < 0 ==> v == 255
  {
    var lo, hi := Low(wl, ww), High(wl, ww);
    var c := Clip(h as real, lo, hi);
    var w := ww as real;
    assert hi - lo == w;
    if ww > 0 then
      ScaledRatioFloor(c - lo, w);
      ((c - lo) / w * 255.0).Floor
    else
      SelfRatio(w);
      ((c - lo) / w * 255.0).Floor
  }

  /** Dividing by a positive real keeps order. */
  lemma DivideMonotone(a: real, b: real, d: real)
    requires a <= b && d > 0.0
    ensures a / d <= b / d
  {
    assert (b / d - a / d) * d == b - a;
  }

  /** A larger Hounsfield value never maps to a darker pixel. */
  lemma ApplyWindowMonotone(h1: int, h2: int, wl: int, ww: int)
    requires ww != 0 && h1 <= h2
    ensures ApplyWindow(h1, wl, ww) <= ApplyWindow(h2, wl, ww)
  {
    if ww > 0 {
      var lo, hi := Low(wl, ww), High(wl, ww);
      var c1, c2 := Clip(h1 as real, lo, hi), Clip(h2 as real, lo, hi);
      assert c1 <= c2;
      DivideMonotone(c1 - lo, c2 - lo, ww as real);
      assert (c1 - lo) / ww as real * 255.0 <= (c2 - lo) / ww as real * 255.0;
    }
  }

  function Clamp(x: int, lo: int, hi: int): int
  {
    if x < lo then lo else if x > hi then hi else x
  }

  /** For a positive divisor, the floor of the real quotient is Dafny's integer division. */
  lemma FloorOfQuotient(n: int, d: int)
    requires d > 0
    ensures (n as real / d as real).Floor == n / d
  {
    var q, m := n / d, n % d;
    assert n == d * q + m && 0 <= m < d;
    var x := n as real / d as real;
    var f := m as real / d as real;
    assert x == q as real + f;
    assert 0.0 <= f < 1.0;
  }

  /** The scaled ratio of a half-integer over a positive width, as one quotient. */
  lemma HalfRatio(a: real, t: real, w: real)
    requires w > 0.0 && a == t / 2.0
    ensures a / w * 255.0 == (255.0 * t) / (2.0 * w)
  {
    var q := a / w;
    assert q * w == a;
    assert (q * 255.0) * (2.0 * w) == 255.0 * t;
  }

  /**
   * An integer-only reference formula for a positive width: the doubled distance
   * of h above the lower bound, clamped to [0, 2ww], scaled by 255 and divided
   * by 2ww.
   */
  lemma ApplyWindowIntegerForm(h: int, wl: int, ww: int)
    requires ww > 0
    ensures ApplyWindow(h, wl, ww) == 255 * Clamp(2 * h - 2 * wl + ww, 0, 2 * ww) / (2 * ww)
  {
    var lo, hi := Low(wl, ww), High(wl, ww);
    var t := Clamp(2 * h - 2 * wl + ww, 0, 2 * ww);
    var c := Clip(h as real, lo, hi);
    var w := ww as real;
    assert c - lo == t as real / 2.0;
    HalfRatio(c - lo, t as real, w);
    assert (255 * t) as real == 255.0 * t as real && (2 * ww) as real == 2.0 * w;
    FloorOfQuotient(255 * t, 2 * ww);
  }

  /** apply_window on a 2-D image: the same transform on every pixel, the shape kept. */
  function WindowImage(img: seq<seq<int>>, wl: int, ww: int): (out: seq<seq<int>>)
    requires ww != 0
    ensures |out| == |img|
    ensures forall i :: 0 <= i < |img| ==> |out[i]| == |img[i]|
    ensures forall i, j :: 0 <= i < |img| && 0 <= j < |img[i]| ==>
      out[i][j] == ApplyWindow(img[i][j], wl, ww)
  {
    seq(|img|, i requires 0 <= i < |img| =>
      seq(|img[i]|, j requires 0 <= j < |img[i]| => ApplyWindow(img[i][j], wl, ww)))
  }

  /**
   * The value at the window level itself, for level -1024 and width 400: the
   * midpoint of the byte range, 127 (127.5 truncated).
   */
  lemma AirAtItsOwnLevel()
    ensures ApplyWindow(-1024, -1024, 400) == 127
  {
  }
}
