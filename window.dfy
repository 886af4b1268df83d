/**
 * WindowProxy: the window state the engine keeps beside the host window,
 * namely the virtual resolution, the letterbox fields written by on_resize
 * and the normalised background colour.
 */
module Window {
  import opened Wrappers
  import opened Letterbox

  /** A background colour with every channel divided by 255. */
  datatype Rgba = Rgba(red: real, green: real, blue: real, alpha: real)

  /** Python's IndexError, raised by the first of value[0], value[1], value[2] that is missing. */
  datatype ColorError = TooFewChannels

  /**
   * set_background_color's conversion: channels 0..2 divided by 255, and
   * channel 3 likewise when present, an omitted alpha counting as 255.
   * Extra channels past the fourth are ignored.
   */
  function Normalised(value: seq<int>): (c: Result<Rgba, ColorError>)
    ensures c.Success? <==> |value| >= 3
    ensures c.Success? ==>
      && c.value.red * 255.0 == value[0] as real
      && c.value.green * 255.0 == value[1] as real
      && c.value.blue * 255.0 == value[2] as real
      && c.value.alpha * 255.0 == (if |value| > 3 then value[3] else 255) as real
  {
    if |value| < 3 then Failure(TooFewChannels)
    else
      var alpha := if |value| > 3 then value[3] else 255;
      Success(Rgba(value[0] as real / 255.0, value[1] as real / 255.0,
                   value[2] as real / 255.0, alpha as real / 255.0))
  }

  /** Giving three channels is giving the same three with an opaque alpha. */
  lemma OmittedAlphaIsOpaque(r: int, g: int, b: int)
    ensures Normalised([r, g, b]) == Normalised([r, g, b, 255])
    ensures Normalised([r, g, b]).value.alpha == 1.0
  {
  }

  class WindowProxy {
    /** The physical size, as the host window reports it. */
    var width: nat
    var height: nat
    var virtualWidth: nat
    var virtualHeight: nat
    var offsetX: nat
    var offsetY: nat
    var usableWidth: nat
    var usableHeight: nat
    var backgroundColor: Rgba

    /** The virtual size starts as the window's own size, with no letterbox. */
    constructor (width: nat, height: nat)
      ensures this.width == width && this.height == height
      ensures virtualWidth == width && virtualHeight == height
      ensures offsetX == 0 && offsetY == 0
      ensures usableWidth == width && usableHeight == height
      ensures backgroundColor == Rgba(0.0, 0.0, 0.0, 0.0)
    {
      this.width, this.height := width, height;
      virtualWidth, virtualHeight := width, height;
      offsetX, offsetY := 0, 0;
      usableWidth, usableHeight := width, height;
      backgroundColor := Rgba(0.0, 0.0, 0.0, 0.0);
    }

    ghost function Letterboxed(): Viewport
      reads this
    {
      Viewport(usableWidth, usableHeight, offsetX, offsetY)
    }

    /**
     * on_resize: computes the letterbox for the new physical size, writes
     * it to the offset and usable fields, then sets the projection. A zero
     * virtual dimension fails before anything is written; a zero usable
     * height fails in set_projection (usable width / usable height) after
     * the fields were written.
     */
    method OnResize(pw: nat, ph: nat) returns (r: Outcome<ResizeError>)
      modifies this
      ensures width == old(width) && height == old(height)
      ensures virtualWidth == old(virtualWidth) && virtualHeight == old(virtualHeight)
      ensures backgroundColor == old(backgroundColor)
      ensures var fit := Fit(pw, ph, virtualWidth, virtualHeight);
        && (fit.Failure? ==> r == Fail(ZeroDivision) && Letterboxed() == old(Letterboxed()))
        && (fit.Success? ==> Letterboxed() == fit.value
                             && (r.Fail? <==> usableHeight == 0))
    {
      var fit := Fit(pw, ph, virtualWidth, virtualHeight);
      if fit.Failure? {
        return Fail(fit.error);
      }
      offsetX := fit.value.offsetX;
      offsetY := fit.value.offsetY;
      usableWidth := fit.value.usableWidth;
      usableHeight := fit.value.usableHeight;
      r := SetProjection();
    }

    /** set_projection's one failure: the aspect ratio of an empty viewport. */
    method SetProjection() returns (r: Outcome<ResizeError>)
      ensures r.Fail? <==> usableHeight == 0
    {
      if usableHeight == 0 {
        return Fail(ZeroDivision);
      }
      return Pass;
    }

    /** set_background_color: stores the normalised colour; too few channels raise. */
    method SetBackgroundColor(value: seq<int>) returns (r: Outcome<ColorError>)
      modifies this
      ensures r.Fail? <==> |value| < 3
      ensures r.Pass? ==> backgroundColor == Normalised(value).value
      ensures r.Fail? ==> backgroundColor == old(backgroundColor)
      ensures width == old(width) && height == old(height)
      ensures virtualWidth == old(virtualWidth) && virtualHeight == old(virtualHeight)
      ensures Letterboxed() == old(Letterboxed())
    {
      var c := Normalised(value);
      if c.Failure? {
        return Fail(c.error);
      }
      backgroundColor := c.value;
      return Pass;
    }
  }
}
