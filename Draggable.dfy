/**
 * A draggable element constrained to its parent's bounding rectangle.
 *
 * Coordinates are integers; DOM reads (the pointer's client position, the
 * element's offsets and size) are parameters, and the `style.left`/`style.top`
 * write is returned.
 */
module Draggable {
  import opened Wrappers

  /** The parent's bounding client rectangle, read once at construction. */
  datatype Rect = Rect(left: int, top: int, right: int, bottom: int)

  function Max(a: int, b: int): int { if a >= b then a else b }

  function Min(a: int, b: int): int { if a <= b then a else b }

  /**
   * `Math.max(lo, Math.min(v, hi))`: the lower bound is always met; the upper
   * bound is met whenever the interval is non-empty; a value below the
   * interval goes to its lower end and one above it to its upper end; an
   * empty interval yields the lower bound.
   */
  function Clamp(v: int, lo: int, hi: int): (r: int)
    ensures r >= lo
    ensures lo <= hi ==> r <= hi
    ensures lo <= v <= hi ==> r == v
    ensures v < lo ==> r == lo
    ensures lo <= hi < v ==> r == hi
    ensures hi < lo ==> r == lo
    ensures r == v || r == lo || r == hi
  {
    Max(lo, Min(v, hi))
  }

  /** Clamping a clamped value changes nothing. */
  lemma ClampIdempotent(v: int, lo: int, hi: int)
    ensures Clamp(Clamp(v, lo, hi), lo, hi) == Clamp(v, lo, hi)
  {
  }

  /**
   * The constrained position for a proposed (x, y) and an element of the
   * given size: each coordinate is kept when it fits, and otherwise moved to
   * the nearer edge at which the element still fits.
   */
  function Constrain(bound: Rect, width: int, height: int, x: int, y: int): (p: (int, int))
    ensures bound.left <= p.0 && bound.top <= p.1
    ensures bound.left <= bound.right - width ==> p.0 <= bound.right - width
    ensures bound.top <= bound.bottom - height ==> p.1 <= bound.bottom - height
    ensures bound.left <= x <= bound.right - width ==> p.0 == x
    ensures bound.top <= y <= bound.bottom - height ==> p.1 == y
    ensures x < bound.left ==> p.0 == bound.left
    ensures y < bound.top ==> p.1 == bound.top
    ensures bound.left <= bound.right - width < x ==> p.0 == bound.right - width
    ensures bound.top <= bound.bottom - height < y ==> p.1 == bound.bottom - height
    ensures bound.right - width < bound.left ==> p.0 == bound.left
    ensures bound.bottom - height < bound.top ==> p.1 == bound.top
  {
    (Clamp(x, bound.left, bound.right - width), Clamp(y, bound.top, bound.bottom - height))
  }

  /** Constraining an already constrained position changes nothing. */
  lemma {:induction false} ConstrainIdempotent(bound: Rect, width: int, height: int, x: int, y: int)
    ensures var p := Constrain(bound, width, height, x, y);
            Constrain(bound, width, height, p.0, p.1) == p
  {
    ClampIdempotent(x, bound.left, bound.right - width);
    ClampIdempotent(y, bound.top, bound.bottom - height);
  }

  class Draggable {
    var isDragging: bool
    var startX: int
    var startY: int
    const boundRect: Rect

    /** `startX`/`startY` are undefined in the source until the first drag starts; here they start at 0. */
    constructor (parentRect: Rect)
      ensures !isDragging && boundRect == parentRect
    {
      isDragging := false;
      startX, startY := 0, 0;
      boundRect := parentRect;
    }

    /**
     * mousedown/touchstart: start dragging and record the pointer's offset
     * from the element, so that a drag with no pointer movement proposes
     * the element's current offsets.
     */
    method StartDrag(clientX: int, clientY: int, offsetLeft: int, offsetTop: int)
      modifies this
      ensures isDragging
      ensures clientX - startX == offsetLeft && clientY - startY == offsetTop
    {
      isDragging := true;
      startX := clientX - offsetLeft;
      startY := clientY - offsetTop;
    }

    /**
     * mousemove/touchmove: while dragging, the position written to the
     * element's style, which is the pointer position less the recorded
     * offset, kept inside the parent's rectangle; nothing otherwise.
     */
    method Drag(clientX: int, clientY: int, offsetWidth: int, offsetHeight: int) returns (written: Option<(int, int)>)
      ensures written.Some? <==> isDragging
      ensures written.Some? ==> written.value == Constrain(boundRect, offsetWidth, offsetHeight, clientX - startX, clientY - startY)
    {
      if !isDragging {
        return None;
      }
      var x := clientX - startX;
      var y := clientY - startY;
      x := Max(boundRect.left, Min(x, boundRect.right - offsetWidth));
      y := Max(boundRect.top, Min(y, boundRect.bottom - offsetHeight));
      written := Some((x, y));
    }

    /** mouseup/touchend: dragging is off afterwards, whatever it was. */
    method StopDrag()
      modifies this
      ensures !isDragging
      ensures startX == old(startX) && startY == old(startY)
    {
      if isDragging {
        isDragging := false;
      }
    }
  }

  /** Pressing and dragging without moving the pointer proposes the element's own offsets. */
  method DragInPlace(d: Draggable, clientX: int, clientY: int, offsetLeft: int, offsetTop: int, width: int, height: int)
      returns (written: Option<(int, int)>)
    modifies d
    ensures written == Some(Constrain(d.boundRect, width, height, offsetLeft, offsetTop))
  {
    d.StartDrag(clientX, clientY, offsetLeft, offsetTop);
    written := d.Drag(clientX, clientY, width, height);
  }
}
