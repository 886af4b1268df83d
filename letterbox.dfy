/**
 * The letterbox arithmetic of WindowProxy.on_resize: a fixed virtual
 * resolution (vw, vh) is fitted, aspect ratio kept, into a physical window
 * (pw, ph), giving the usable size (uw, uh) and the offset (ox, oy) that
 * centres it.
 *
 * The source computes through the float ratio vw / vh; this model is its
 * rational idealisation: uw = min(pw, floor(ph * vw / vh)) and
 * uh = min(ph, floor(pw * vh / vw)), over naturals.
 */
module Letterbox {
  import opened Wrappers

  datatype Viewport = Viewport(usableWidth: nat, usableHeight: nat, offsetX: nat, offsetY: nat)

  /** Python's ZeroDivisionError. */
  datatype ResizeError = ZeroDivision

  function Min(a: nat, b: nat): (r: nat)
    ensures r <= a && r <= b && (r == a || r == b)
  {
    if a <= b then a else b
  }

  /**
   * on_resize's arithmetic. A zero virtual height fails at vw / float(vh);
   * a zero virtual width makes the ratio 0.0 and fails at pw / ratio.
   */
  function Fit(pw: nat, ph: nat, vw: nat, vh: nat): (r: Result<Viewport, ResizeError>)
    ensures r.Failure? <==> vw == 0 || vh == 0
  {
    if vh == 0 || vw == 0 then Failure(ZeroDivision)
    else
      var uw := Min(pw, ph * vw / vh);
      var uh := Min(ph, pw * vh / vw);
      Success(Viewport(uw, uh, (pw - uw) / 2, (ph - uh) / 2))
  }

  /** n fits under x / d exactly when n copies of d fit under x. */
  lemma FloorDivBound(x: nat, d: nat, n: nat)
    requires d > 0
    ensures n <= x / d <==> n * d <= x
  {
    var q, m := x / d, x % d;
    assert x == q * d + m && 0 <= m < d;
    if n <= q {
      assert n * d <= q * d by { MulMonotone(n, q, d); }
    } else {
      assert q + 1 <= n;
      assert (q + 1) * d <= n * d by { MulMonotone(q + 1, n, d); }
      assert q * d + d <= n * d;
    }
  }

  lemma MulMonotone(a: nat, b: nat, d: nat)
    requires a <= b
    ensures a * d <= b * d
  {
    assert b * d == a * d + (b - a) * d;
  }

  /** The floor quotient q of x by d satisfies q * d <= x < (q + 1) * d. */
  lemma FloorDivBetween(x: nat, d: nat)
    requires d > 0
    ensures (x / d) * d <= x < (x / d + 1) * d
  {
    FloorDivBound(x, d, x / d);
    FloorDivBound(x, d, x / d + 1);
  }

  /**
   * The letterbox fits inside the window, is centred in it, fills it along
   * one axis, and along the other axis is the largest whole number of
   * pixels that keeps the virtual aspect ratio vw : vh.
   */
  lemma FitIsCentredLetterbox(pw: nat, ph: nat, vw: nat, vh: nat)
    requires vw > 0 && vh > 0
    ensures Fit(pw, ph, vw, vh).Success?
    ensures var v := Fit(pw, ph, vw, vh).value;
      && v.usableWidth <= pw && v.usableHeight <= ph
      && (2 * v.offsetX + v.usableWidth == pw || 2 * v.offsetX + v.usableWidth + 1 == pw)
      && (2 * v.offsetY + v.usableHeight == ph || 2 * v.offsetY + v.usableHeight + 1 == ph)
      && (v.usableWidth == pw || v.usableHeight == ph)
      && (v.usableWidth == pw ==>
            v.usableHeight * vw <= pw * vh < (v.usableHeight + 1) * vw)
      && (v.usableHeight == ph ==>
            v.usableWidth * vh <= ph * vw < (v.usableWidth + 1) * vh)
  {
    var v := Fit(pw, ph, vw, vh).value;
    FloorDivBetween(ph * vw, vh);
    FloorDivBetween(pw * vh, vw);
    if pw * vh <= ph * vw {
      FloorDivBound(ph * vw, vh, pw);
      FloorDivBound(pw * vh, vw, ph + 1);
      assert v.usableWidth == pw;
      assert v.usableHeight == pw * vh / vw;
      if v.usableHeight == ph {
        assert ph * vw <= pw * vh;
        assert ph * vw == pw * vh;
        FloorDivBound(ph * vw, vh, pw + 1);
      }
    } else {
      FloorDivBound(pw * vh, vw, ph);
      FloorDivBound(ph * vw, vh, pw);
      assert v.usableHeight == ph;
      assert v.usableWidth == ph * vw / vh;
    }
  }

  /** A virtual 800x600 window resized to 1600x900 uses 1200x900 at (200, 0). */
  lemma WidescreenExample()
    ensures Fit(1600, 900, 800, 600) == Success(Viewport(1200, 900, 200, 0))
  {
  }
}
