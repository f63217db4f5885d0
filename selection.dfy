/**
 * The rectangle selection overlay: pointer positions as fractions of the
 * canvas, the constrained second corner, the two corners and the
 * rectangle drawn for them.
 */
module Selection {
  import opened Wrappers
  import ImageData

  datatype MouseEvent = MouseEvent(clientX: real, clientY: real)

  /** The canvas's bounding client rectangle. */
  datatype ClientRect = ClientRect(left: real, top: real, width: real, height: real)

  /** A pixel of the image. */
  type Pixel = (int, int)

  /** A rectangle drawn on the canvas, in canvas coordinates. */
  datatype Rect = Rect(x: real, y: real, width: real, height: real)

  /** The payload of `selectionChanged`. */
  datatype SelectionChanged = SelectionChanged(p0: Pixel, p1: Pixel)

  function MinReal(a: real, b: real): real { if a <= b then a else b }
  function MaxReal(a: real, b: real): real { if a >= b then a else b }
  function MinInt(a: int, b: int): int { if a <= b then a else b }
  function MaxInt(a: int, b: int): int { if a >= b then a else b }
  function Abs(a: int): nat { if a < 0 then -a else a }

  /** `Math.min(1, Math.max(0, v))` */
  function Clamp01(v: real): (r: real)
    ensures 0.0 <= r <= 1.0
    ensures 0.0 <= v <= 1.0 ==> r == v
    ensures v < 0.0 ==> r == 0.0
    ensures v > 1.0 ==> r == 1.0
  {
    MinReal(1.0, MaxReal(0.0, v))
  }

  /** The pointer as a fraction of the canvas in each direction, clamped into `[0, 1]`. */
  function MousePositionToImagePosition(ev: MouseEvent, rect: ClientRect): (p: (real, real))
    requires rect.width != 0.0 && rect.height != 0.0
    ensures 0.0 <= p.0 <= 1.0 && 0.0 <= p.1 <= 1.0
    ensures p.0 == Clamp01((ev.clientX - rect.left) / rect.width)
    ensures p.1 == Clamp01((ev.clientY - rect.top) / rect.height)
  {
    var x := (ev.clientX - rect.left) / rect.width;
    var y := (ev.clientY - rect.top) / rect.height;
    (Clamp01(x), Clamp01(y))
  }

  /** The pixel under a fractional image position. */
  function ToPixel(imagePosition: (real, real), size: ImageData.ImageSize): Pixel {
    ((imagePosition.0 * size.width as real).Floor, (imagePosition.1 * size.height as real).Floor)
  }

  /** `m >= n ? 1 : -1` */
  function Sign(m: int, n: int): int {
    if m >= n then 1 else -1
  }

  lemma SignTimes(m: int, n: int, k: int)
    ensures Sign(m, n) * k == if m >= n then k else -k
  {
  }

  /**
   * One axis of the second corner: an offset from the anchor shorter than
   * `min` is lengthened to `min`, then one longer than `max` is shortened to
   * `max`, each time in the offset's own direction (a zero offset counts as
   * positive).
   */
  function ClampAxis(raw: int, anchor: int, min: int, max: int): int {
    var lengthened := if Abs(raw - anchor) < min then anchor + Sign(raw, anchor) * min else raw;
    if Abs(lengthened - anchor) > max then anchor + Sign(lengthened, anchor) * max else lengthened
  }

  /** For `0 < min <= max`: the clamped offset lies in `[min, max]`, keeps its direction, and is untouched when already in range. */
  lemma ClampAxisProperties(raw: int, anchor: int, min: int, max: int)
    ensures min <= Abs(raw - anchor) <= max ==> ClampAxis(raw, anchor, min, max) == raw
    ensures 0 < min <= max ==> min <= Abs(ClampAxis(raw, anchor, min, max) - anchor) <= max
    ensures 0 < min <= max ==> (raw >= anchor <==> ClampAxis(raw, anchor, min, max) > anchor)
    ensures 0 < min <= max && raw == anchor ==> ClampAxis(raw, anchor, min, max) == anchor + min
    ensures 0 < min <= max && Abs(raw - anchor) < min ==>
              ClampAxis(raw, anchor, min, max) == anchor + Sign(raw, anchor) * min
    ensures 0 < min <= max && Abs(raw - anchor) > max ==>
              ClampAxis(raw, anchor, min, max) == anchor + Sign(raw, anchor) * max
  {
    SignTimes(raw, anchor, min);
    var lengthened := if Abs(raw - anchor) < min then anchor + Sign(raw, anchor) * min else raw;
    SignTimes(lengthened, anchor, max);
  }

  /**
   * The second corner for a pointer at `imagePosition`: the pixel under it,
   * with each axis's offset from `p0` clamped on its own.
   */
  method CalculateP1(imagePosition: (real, real), size: ImageData.ImageSize, p0: Pixel, min: int, max: int)
    returns (p1: Pixel)
    ensures p1.0 == ClampAxis(ToPixel(imagePosition, size).0, p0.0, min, max)
    ensures p1.1 == ClampAxis(ToPixel(imagePosition, size).1, p0.1, min, max)
  {
    var raw := ToPixel(imagePosition, size);
    var x, y := raw.0, raw.1;
    SignTimes(x, p0.0, min);
    SignTimes(y, p0.1, min);
    if Abs(x - p0.0) < min {
      x := p0.0 + Sign(x, p0.0) * min;
    }
    if Abs(y - p0.1) < min {
      y := p0.1 + Sign(y, p0.1) * min;
    }
    SignTimes(x, p0.0, max);
    SignTimes(y, p0.1, max);
    if Abs(x - p0.0) > max {
      x := p0.0 + Sign(x, p0.0) * max;
    }
    if Abs(y - p0.1) > max {
      y := p0.1 + Sign(y, p0.1) * max;
    }
    p1 := (x, y);
  }

  /** The rectangle `draw` fills and strokes for corners `p0` and `p1`. */
  function SelectionRect(p0: Pixel, p1: Pixel, xScale: real -> real, yScale: real -> real): Rect {
    var x := xScale(MinInt(p0.0, p1.0) as real);
    var y := yScale(MinInt(p0.1, p1.1) as real);
    Rect(x, y, xScale(MaxInt(p0.0, p1.0) as real) - x, yScale(MaxInt(p0.1, p1.1) as real) - y)
  }

  ghost predicate Monotone(f: real -> real) {
    forall a, b :: a <= b ==> f(a) <= f(b)
  }

  /**
   * The rectangle depends only on the corners' box: swapping the corners, or
   * swapping their coordinates along one axis, draws the same rectangle, and
   * with monotone scales its extent is never negative.
   */
  lemma SelectionRectOrderFree(p0: Pixel, p1: Pixel, xScale: real -> real, yScale: real -> real)
    ensures SelectionRect(p0, p1, xScale, yScale) == SelectionRect(p1, p0, xScale, yScale)
    ensures SelectionRect(p0, p1, xScale, yScale) == SelectionRect((p1.0, p0.1), (p0.0, p1.1), xScale, yScale)
    ensures Monotone(xScale) && Monotone(yScale) ==>
              SelectionRect(p0, p1, xScale, yScale).width >= 0.0 &&
              SelectionRect(p0, p1, xScale, yScale).height >= 0.0
  {
    if Monotone(xScale) && Monotone(yScale) {
      assert xScale(MinInt(p0.0, p1.0) as real) <= xScale(MaxInt(p0.0, p1.0) as real);
      assert yScale(MinInt(p0.1, p1.1) as real) <= yScale(MaxInt(p0.1, p1.1) as real);
    }
  }

  class SquareSelection<H(==)> {
    const source: ImageData.StreamImageDataSource<H>
    var p0: Pixel
    var p1: Pixel
    /** The image-to-canvas scales, built by the colormap library from the image and container sizes. */
    var xScale: real -> real
    var yScale: real -> real
    /** The rectangle on the canvas. */
    var drawn: Rect
    /** Whether the window's move and up listeners are attached. */
    var dragging: bool
    /** The corners the pressed pointer fixed, as the listeners captured them. */
    var downP0: Pixel
    var downP1: Pixel

    constructor (source: ImageData.StreamImageDataSource<H>, xScale: real -> real, yScale: real -> real)
      ensures this.source == source && p0 == (0, 0) && p1 == (10, 20)
      ensures this.xScale == xScale && this.yScale == yScale && !dragging
      ensures drawn == SelectionRect(p0, p1, xScale, yScale)
    {
      this.source := source;
      p0, p1 := (0, 0), (10, 20);
      this.xScale, this.yScale := xScale, yScale;
      drawn := SelectionRect((0, 0), (10, 20), xScale, yScale);
      dragging := false;
      downP0, downP1 := (0, 0), (0, 0);
    }

    method Draw()
      modifies this`drawn
      ensures drawn == SelectionRect(p0, p1, xScale, yScale)
    {
      drawn := SelectionRect(p0, p1, xScale, yScale);
    }

    /** New scales after the container or the image changed size, then a redraw. */
    method Resize(xScale: real -> real, yScale: real -> real)
      modifies this`xScale, this`yScale, this`drawn
      ensures this.xScale == xScale && this.yScale == yScale
      ensures drawn == SelectionRect(p0, p1, xScale, yScale)
    {
      this.xScale, this.yScale := xScale, yScale;
      Draw();
    }

    method SetSelection(p0: Pixel, p1: Pixel)
      modifies this`p0, this`p1, this`drawn
      ensures this.p0 == p0 && this.p1 == p1
      ensures drawn == SelectionRect(p0, p1, xScale, yScale)
    {
      this.p0, this.p1 := p0, p1;
      Draw();
    }

    /** Pressing the pointer puts both corners on the pixel under it and starts a drag. */
    method MouseDown(ev: MouseEvent, rect: ClientRect)
      requires rect.width != 0.0 && rect.height != 0.0
      modifies this
      ensures p0 == ToPixel(MousePositionToImagePosition(ev, rect), source.size) && p1 == p0
      ensures drawn == SelectionRect(p0, p1, xScale, yScale)
      ensures dragging && downP0 == p0 && downP1 == p0
      ensures xScale == old(xScale) && yScale == old(yScale)
    {
      var imagePosition := MousePositionToImagePosition(ev, rect);
      var size := source.size;
      var q0 := ToPixel(imagePosition, size);
      var q1 := (q0.0, q0.1);
      downP0, downP1 := q0, q1;
      SetSelection(q0, q1);
      dragging := true;
    }

    /**
     * While dragging, the second corner follows the pointer under the 1..9
     * constraint; the rectangle is redrawn when that corner differs from the
     * one the press fixed.
     */
    method MouseMove(ev: MouseEvent, rect: ClientRect) returns (redrawn: bool)
      requires rect.width != 0.0 && rect.height != 0.0
      modifies this`p0, this`p1, this`drawn
      ensures !old(dragging) ==> !redrawn && p0 == old(p0) && p1 == old(p1) && drawn == old(drawn)
      ensures old(dragging) ==>
                var q := ToPixel(MousePositionToImagePosition(ev, rect), source.size);
                var newP1 := (ClampAxis(q.0, downP0.0, 1, 9), ClampAxis(q.1, downP0.1, 1, 9));
                redrawn == (newP1 != downP1) &&
                (redrawn ==> p0 == downP0 && p1 == newP1 && drawn == SelectionRect(p0, p1, xScale, yScale)) &&
                (!redrawn ==> p0 == old(p0) && p1 == old(p1) && drawn == old(drawn))
    {
      redrawn := false;
      if !dragging {
        return;
      }
      var imagePosition := MousePositionToImagePosition(ev, rect);
      var newP1 := CalculateP1(imagePosition, source.size, downP0, 1, 9);
      if newP1.0 != downP1.0 || newP1.1 != downP1.1 {
        SetSelection(downP0, newP1);
        redrawn := true;
      }
    }

    /**
     * Releasing the pointer fixes the second corner under the 1..9
     * constraint, stores both corners, ends the drag and emits
     * `selectionChanged`.
     */
    method MouseUp(ev: MouseEvent, rect: ClientRect) returns (event: Option<SelectionChanged>)
      requires rect.width != 0.0 && rect.height != 0.0
      modifies this`p0, this`p1, this`drawn, this`dragging
      ensures !old(dragging) ==> event == None && p0 == old(p0) && p1 == old(p1) && drawn == old(drawn) && !dragging
      ensures old(dragging) ==>
                var q := ToPixel(MousePositionToImagePosition(ev, rect), source.size);
                p0 == downP0 &&
                p1 == (ClampAxis(q.0, downP0.0, 1, 9), ClampAxis(q.1, downP0.1, 1, 9)) &&
                drawn == SelectionRect(p0, p1, xScale, yScale) &&
                event == Some(SelectionChanged(p0, p1)) && !dragging
    {
      event := None;
      if !dragging {
        return;
      }
      var imagePosition := MousePositionToImagePosition(ev, rect);
      var newP1 := CalculateP1(imagePosition, source.size, downP0, 1, 9);
      SetSelection(downP0, newP1);
      event := Some(SelectionChanged(downP0, newP1));
      dragging := false;
    }
  }

  /** After a release, each corner offset is between 1 and 9 pixels in each direction. */
  lemma ReleasedSelectionWithinLimits(q: Pixel, anchor: Pixel)
    ensures 1 <= Abs(ClampAxis(q.0, anchor.0, 1, 9) - anchor.0) <= 9
    ensures 1 <= Abs(ClampAxis(q.1, anchor.1, 1, 9) - anchor.1) <= 9
  {
    ClampAxisProperties(q.0, anchor.0, 1, 9);
    ClampAxisProperties(q.1, anchor.1, 1, 9);
  }
}
