/**
 * IGridLayoutManager, the example application's GridLayoutManager: it brings
 * a focused child into view by the same rule as TvRecyclerView, with insets
 * fixed at 230 on the left, 130 on the right and none on top or bottom, and
 * without correcting the child rectangle for the child's own scroll.
 */
module GridLayout {
  import opened Geometry

  const LeftPadding := 230
  const TopPadding := 0
  const RightPadding := 130
  const BottomPadding := 0

  const GridLead := Insets(LeftPadding, TopPadding, RightPadding, BottomPadding)

  /** The child rectangle: the requested rect moved by the child's position only. */
  function GridChildRect(child: ChildView, rect: Rect): (r: Rect)
    ensures r.Width() == rect.Width() && r.Height() == rect.Height()
    ensures r.left - rect.left == child.left && r.top - rect.top == child.top
  {
    var childLeft := child.left + rect.left;
    var childTop := child.top + rect.top;
    Rect(childLeft, childTop, childLeft + rect.Width(), childTop + rect.Height())
  }

  /** The grid's rectangle is TvRecyclerView's with the child's scroll ignored; the two agree exactly for an unscrolled child. */
  lemma GridRectIgnoresChildScroll(child: ChildView, rect: Rect)
    ensures GridChildRect(child, rect) == ScrolledChildRect(child.(scrollX := 0, scrollY := 0), rect)
    ensures GridChildRect(child, rect) == ScrolledChildRect(child, rect) <==> child.scrollX == 0 && child.scrollY == 0
  {
    if GridChildRect(child, rect) == ScrolledChildRect(child, rect) {
      assert GridChildRect(child, rect).left == ScrolledChildRect(child, rect).left;
      assert GridChildRect(child, rect).top == ScrolledChildRect(child, rect).top;
    }
  }

  /**
   * requestChildRectangleOnScreen of a grid of the given size and padding,
   * layout direction and orientation.
   */
  function RequestChildRectangleOnScreen(width: int, height: int, padding: Insets, child: ChildView, rect: Rect,
                                         rtl: bool, orientation: Orientation, immediate: bool): (r: ScrollOutcome)
    ensures var c := GridChildRect(child, rect);
            var parentLeft := padding.left;
            var parentRight := width - padding.right;
            var offScreenLeft := Min(0, c.left - parentLeft - 230);
            var offScreenRight := Max(0, c.right - parentRight + 130);
            && (!rtl ==> r.dx == if offScreenLeft != 0 then offScreenLeft else Min(c.left - parentLeft, offScreenRight))
            && (rtl ==> r.dx == if offScreenRight != 0 then offScreenRight else Max(offScreenLeft, c.right - parentRight))
    ensures var c := GridChildRect(child, rect);
            var parentTop := padding.top;
            var parentBottom := height - padding.bottom;
            r.dy == if c.top < parentTop then c.top - parentTop else Min(c.top - parentTop, Max(0, c.bottom - parentBottom))
    // with no top inset the top of the child never ends up above the parent's top
    ensures GridChildRect(child, rect).top - r.dy >= padding.top
    ensures r.scrolled <==> r.dx != 0 || r.dy != 0
    ensures r.smooth <==> r.scrolled && !immediate
    ensures r.invalidate <==> !r.scrolled || (if orientation == Horizontal then r.dx == 0 else r.dy == 0)
    // a child inside [left + 230, right - 130] x [top, bottom] causes no scroll
    ensures var c := GridChildRect(child, rect);
            padding.left + 230 <= c.left && c.right <= width - padding.right - 130
            && padding.top <= c.top && c.bottom <= height - padding.bottom
            ==> !r.scrolled && r.invalidate
  {
    var parent := Rect(padding.left, padding.top, width - padding.right, height - padding.bottom);
    var c := GridChildRect(child, rect);
    RevealInsideWindow(parent, c, GridLead, rtl, orientation != Horizontal, immediate);
    RevealRect(parent, c, GridLead, rtl, orientation != Horizontal, immediate)
  }

  /**
   * A 1920-wide left-to-right grid with no padding: a child whose left edge is
   * at 100 scrolls back by 130 so that its left edge lands 230 in.
   */
  lemma LeftInsetScenario()
    ensures var r := RequestChildRectangleOnScreen(1920, 1080, Insets(0, 0, 0, 0), ChildView(100, 400, 0, 0),
                                                   Rect(0, 0, 300, 200), false, Horizontal, true);
            r.dx == -130 && r.dy == 0 && r.scrolled && !r.smooth && !r.invalidate
  {
  }
}
