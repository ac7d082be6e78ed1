/**
 * Scroll geometry shared by TvRecyclerView.requestChildRectangleOnScreen and
 * IGridLayoutManager.requestChildRectangleOnScreen: how far the list must
 * scroll on one axis so that a child rectangle, kept clear of the parent's
 * edges by a start and an end inset, comes into view.
 *
 * Coordinates are unbounded integers; 32-bit overflow is not modelled.
 */
module Geometry {

  function Min(a: int, b: int): (r: int)
    ensures r <= a && r <= b && (r == a || r == b)
  {
    if a <= b then a else b
  }

  function Max(a: int, b: int): (r: int)
    ensures r >= a && r >= b && (r == a || r == b)
  {
    if a >= b then a else b
  }

  /** Java's `a / b` for a positive divisor: the quotient truncated toward zero. */
  function TruncDiv(a: int, b: int): (q: int)
    requires b > 0
    ensures 0 <= a ==> 0 <= a - b * q < b
    ensures a < 0 ==> -b < a - b * q <= 0
  {
    if a >= 0 then a / b else -((-a) / b)
  }

  /** Truncating division is odd in its dividend, which Euclidean division is not. */
  lemma TruncDivOdd(a: int, b: int)
    requires b > 0
    ensures TruncDiv(-a, b) == -TruncDiv(a, b)
  {
  }

  /** A concrete input where Java's `/` and Dafny's `/` part ways. */
  lemma TruncDivIsNotEuclidean()
    ensures TruncDiv(-1, 2) == 0 && -1 / 2 == -1
  {
  }

  /** A rectangle in parent coordinates, as android.graphics.Rect. */
  datatype Rect = Rect(left: int, top: int, right: int, bottom: int) {
    function Width(): int { right - left }
    function Height(): int { bottom - top }
  }

  /** Four per-side amounts: paddings, margins, decorations or lead insets. */
  datatype Insets = Insets(left: int, top: int, right: int, bottom: int)

  /** The scroll axis of a layout manager (TwoWayLayoutManager.Orientation, LinearLayoutManager's orientation). */
  datatype Orientation = Horizontal | Vertical

  /** A child view as a bring-into-view request sees it: getLeft, getTop and its own getScrollX, getScrollY. */
  datatype ChildView = ChildView(left: int, top: int, scrollX: int, scrollY: int)

  /**
   * TvRecyclerView's child rectangle: the requested rect moved by the child's
   * position and back by the child's own scroll, keeping the rect's size.
   */
  function ScrolledChildRect(child: ChildView, rect: Rect): (r: Rect)
    ensures r.Width() == rect.Width() && r.Height() == rect.Height()
    ensures r.left - rect.left == child.left - child.scrollX && r.top - rect.top == child.top - child.scrollY
  {
    var childLeft := child.left + rect.left - child.scrollX;
    var childTop := child.top + rect.top - child.scrollY;
    Rect(childLeft, childTop, childLeft + rect.Width(), childTop + rect.Height())
  }

  /** How much of the child's start, with its lead inset, lies before the parent's start (never positive). */
  function OffScreenStart(parentStart: int, childStart: int, leadStart: int): (r: int)
    ensures r <= 0
    ensures r < 0 <==> childStart - leadStart < parentStart
    ensures r < 0 ==> childStart - r == parentStart + leadStart
  {
    Min(0, childStart - parentStart - leadStart)
  }

  /** How much of the child's end, with its lead inset, lies past the parent's end (never negative). */
  function OffScreenEnd(parentEnd: int, childEnd: int, leadEnd: int): (r: int)
    ensures r >= 0
    ensures r > 0 <==> parentEnd < childEnd + leadEnd
    ensures r > 0 ==> childEnd - r == parentEnd - leadEnd
  {
    Max(0, childEnd - parentEnd + leadEnd)
  }

  /**
   * The start-favoured rule: the vertical axis always, the horizontal axis
   * in a left-to-right layout. A start violation is corrected first; an end
   * violation is corrected only as far as the child's start can go without
   * leaving the parent.
   */
  function AxisDelta(parentStart: int, parentEnd: int, childStart: int, childEnd: int,
                     leadStart: int, leadEnd: int): (d: int)
    // a start violation puts the child's start exactly on the lead line
    ensures childStart - leadStart < parentStart ==> childStart - d == parentStart + leadStart
    // once the start is clear of its lead, the scroll never pushes the start out of the parent
    ensures childStart - leadStart >= parentStart ==> childStart - d >= parentStart
    // an end violation that can be fixed in full puts the child's end exactly on the lead line
    ensures childStart - leadStart >= parentStart && parentEnd < childEnd + leadEnd
            && childEnd + leadEnd - parentEnd <= childStart - parentStart
            ==> childEnd - d == parentEnd - leadEnd
    // otherwise the correction is cut short with the start flush on the parent; this includes a
    // child that starts before the parent with its end clear, which a negative start lead allows
    ensures childStart - leadStart >= parentStart
            && childStart - parentStart < Max(0, childEnd + leadEnd - parentEnd)
            ==> childStart - d == parentStart
    // no scroll exactly when the start is clear and the end is clear or cannot be helped
    ensures d == 0 <==> childStart - leadStart >= parentStart
                        && (childStart == parentStart
                            || (childStart > parentStart && childEnd + leadEnd <= parentEnd))
  {
    var offScreenStart := OffScreenStart(parentStart, childStart, leadStart);
    var offScreenEnd := OffScreenEnd(parentEnd, childEnd, leadEnd);
    if offScreenStart != 0 then offScreenStart else Min(childStart - parentStart, offScreenEnd)
  }

  /**
   * The end-favoured rule of the horizontal axis in a right-to-left layout:
   * the start-favoured rule seen in a mirror.
   */
  function RtlAxisDelta(parentStart: int, parentEnd: int, childStart: int, childEnd: int,
                        leadStart: int, leadEnd: int): (d: int)
    ensures d == -AxisDelta(-parentEnd, -parentStart, -childEnd, -childStart, leadEnd, leadStart)
    // an end violation puts the child's end exactly on the lead line
    ensures parentEnd < childEnd + leadEnd ==> childEnd - d == parentEnd - leadEnd
    // once the end is clear of its lead, the scroll never pushes the end out of the parent
    ensures childEnd + leadEnd <= parentEnd ==> childEnd - d <= parentEnd
  {
    var offScreenStart := OffScreenStart(parentStart, childStart, leadStart);
    var offScreenEnd := OffScreenEnd(parentEnd, childEnd, leadEnd);
    if offScreenEnd != 0 then offScreenEnd else Max(offScreenStart, childEnd - parentEnd)
  }

  /** A child inside the window left by both insets, and not before the parent's start, needs no scroll. */
  lemma InsideWindowNoScroll(parentStart: int, parentEnd: int, childStart: int, childEnd: int,
                             leadStart: int, leadEnd: int)
    requires parentStart + leadStart <= childStart && childEnd <= parentEnd - leadEnd
    requires parentStart <= childStart
    ensures AxisDelta(parentStart, parentEnd, childStart, childEnd, leadStart, leadEnd) == 0
  {
  }

  /** The mirrored rule: a child inside the window, and not past the parent's end, needs no scroll. */
  lemma RtlInsideWindowNoScroll(parentStart: int, parentEnd: int, childStart: int, childEnd: int,
                                leadStart: int, leadEnd: int)
    requires parentStart + leadStart <= childStart && childEnd <= parentEnd - leadEnd
    requires childEnd <= parentEnd
    ensures RtlAxisDelta(parentStart, parentEnd, childStart, childEnd, leadStart, leadEnd) == 0
  {
  }

  /**
   * One step suffices for a child that fits its window: after the list scrolls
   * by the delta the child lies inside the window, and a second request for
   * the same child scrolls no further.
   */
  lemma AxisDeltaStable(parentStart: int, parentEnd: int, childStart: int, childEnd: int,
                        leadStart: int, leadEnd: int)
    requires leadStart >= 0 && leadEnd >= 0 && childStart <= childEnd
    requires childEnd - childStart <= (parentEnd - leadEnd) - (parentStart + leadStart)
    ensures var d := AxisDelta(parentStart, parentEnd, childStart, childEnd, leadStart, leadEnd);
            parentStart + leadStart <= childStart - d && childEnd - d <= parentEnd - leadEnd
    ensures var d := AxisDelta(parentStart, parentEnd, childStart, childEnd, leadStart, leadEnd);
            AxisDelta(parentStart, parentEnd, childStart - d, childEnd - d, leadStart, leadEnd) == 0
  {
  }

  /** The mirrored rule also reveals a child that fits its window in one step. */
  lemma RtlAxisDeltaStable(parentStart: int, parentEnd: int, childStart: int, childEnd: int,
                           leadStart: int, leadEnd: int)
    requires leadStart >= 0 && leadEnd >= 0 && childStart <= childEnd
    requires childEnd - childStart <= (parentEnd - leadEnd) - (parentStart + leadStart)
    ensures var d := RtlAxisDelta(parentStart, parentEnd, childStart, childEnd, leadStart, leadEnd);
            parentStart + leadStart <= childStart - d && childEnd - d <= parentEnd - leadEnd
    ensures var d := RtlAxisDelta(parentStart, parentEnd, childStart, childEnd, leadStart, leadEnd);
            RtlAxisDelta(parentStart, parentEnd, childStart - d, childEnd - d, leadStart, leadEnd) == 0
  {
  }

  /**
   * With a negative start inset (a centred child larger than the free space)
   * a child inside the window still scrolls, to bring its start onto the parent's.
   */
  lemma NegativeLeadStillScrolls()
    ensures AxisDelta(0, 1000, -5, 500, -10, -10) == -5
  {
  }

  /** A child larger than the window is not fully revealed in one step: its end stays past the lead line. */
  lemma OversizedChildNotFullyRevealed()
    ensures var d := AxisDelta(0, 1000, 100, 1300, 40, 40);
            d == 100 && 1300 - d > 1000 - 40
  {
  }

  /** Viewport width 1000, no padding, insets 120/120, child from 900 to 1100: scroll by 220, end lands on the lead line. */
  lemma EndViolationScenario()
    ensures AxisDelta(0, 1000, 900, 1100, 120, 120) == 220
    ensures 1100 - AxisDelta(0, 1000, 900, 1100, 120, 120) == 1000 - 120
  {
  }

  /**
   * What one bring-into-view request does: the deltas handed to scrollBy
   * (immediate) or smoothScrollBy (animated), whether it returned true,
   * and whether it called postInvalidate to redraw the focused child on top.
   */
  datatype ScrollOutcome = ScrollOutcome(dx: int, dy: int, scrolled: bool, smooth: bool, invalidate: bool)

  /**
   * The common body of both requestChildRectangleOnScreen overrides, given the
   * parent's padded bounds, the child rectangle, the four lead insets, the layout
   * direction and whether the list scrolls vertically.
   */
  function RevealRect(parent: Rect, child: Rect, lead: Insets, rtl: bool, vertical: bool,
                      immediate: bool): (r: ScrollOutcome)
    ensures r.dx == if rtl
                    then RtlAxisDelta(parent.left, parent.right, child.left, child.right, lead.left, lead.right)
                    else AxisDelta(parent.left, parent.right, child.left, child.right, lead.left, lead.right)
    ensures r.dy == AxisDelta(parent.top, parent.bottom, child.top, child.bottom, lead.top, lead.bottom)
    ensures r.scrolled <==> r.dx != 0 || r.dy != 0
    ensures r.smooth <==> r.scrolled && !immediate
    // a redraw is posted when nothing scrolls, or when the scroll leaves the scroll axis still
    ensures r.invalidate <==> !r.scrolled || (if vertical then r.dy == 0 else r.dx == 0)
  {
    var offScreenLeft := OffScreenStart(parent.left, child.left, lead.left);
    var offScreenTop := OffScreenStart(parent.top, child.top, lead.top);
    var offScreenRight := OffScreenEnd(parent.right, child.right, lead.right);
    var offScreenBottom := OffScreenEnd(parent.bottom, child.bottom, lead.bottom);
    var dx := if rtl
              then (if offScreenRight != 0 then offScreenRight else Max(offScreenLeft, child.right - parent.right))
              else (if offScreenLeft != 0 then offScreenLeft else Min(child.left - parent.left, offScreenRight));
    var dy := if offScreenTop != 0 then offScreenTop else Min(child.top - parent.top, offScreenBottom);
    if dx != 0 || dy != 0 then
      ScrollOutcome(dx, dy, true, !immediate, if !vertical then dx == 0 else dy == 0)
    else
      ScrollOutcome(0, 0, false, false, true)
  }

  /** A child inside the inset window on both axes (insets not negative) causes no scroll and a redraw. */
  lemma RevealInsideWindow(parent: Rect, child: Rect, lead: Insets, rtl: bool, vertical: bool, immediate: bool)
    ensures lead.left >= 0 && lead.top >= 0 && lead.right >= 0 && lead.bottom >= 0
            && parent.left + lead.left <= child.left && child.right <= parent.right - lead.right
            && parent.top + lead.top <= child.top && child.bottom <= parent.bottom - lead.bottom
            ==> var r := RevealRect(parent, child, lead, rtl, vertical, immediate);
                r.dx == 0 && r.dy == 0 && !r.scrolled && r.invalidate
  {
    if lead.left >= 0 && lead.top >= 0 && lead.right >= 0 && lead.bottom >= 0
       && parent.left + lead.left <= child.left && child.right <= parent.right - lead.right
       && parent.top + lead.top <= child.top && child.bottom <= parent.bottom - lead.bottom
    {
      InsideWindowNoScroll(parent.top, parent.bottom, child.top, child.bottom, lead.top, lead.bottom);
      if rtl {
        RtlInsideWindowNoScroll(parent.left, parent.right, child.left, child.right, lead.left, lead.right);
      } else {
        InsideWindowNoScroll(parent.left, parent.right, child.left, child.right, lead.left, lead.right);
      }
    }
  }
}
