/**
 * TvRecyclerView: a RecyclerView for D-pad navigation. The class keeps the
 * selected-item offsets, the centred flag, the scroll state, the spacing and
 * padding and the draw-order scratch value; the host's measured size, its
 * layout direction and its layout manager are fields the host sets.
 */
module TvRecycler {
  import opened Wrappers
  import opened Geometry
  import Navigation

  const DefaultSelectedItemOffset := 40

  /** RecyclerView.SCROLL_STATE_IDLE, SCROLL_STATE_DRAGGING and SCROLL_STATE_SETTLING. */
  const ScrollStateIdle := 0
  const ScrollStateDragging := 1
  const ScrollStateSettling := 2

  /**
   * The layout manager as far as the list looks at it: one of the library's
   * BaseLayoutManager family, a LinearLayoutManager (or a subclass such as a
   * GridLayoutManager), some other layout manager, or none at all.
   */
  datatype LayoutManager = NoLayoutManager | BaseLayout(orientation: Orientation)
                         | LinearLayout(orientation: Orientation) | OtherLayout

  /** The measured size of the child that takes focus. */
  datatype ViewSize = ViewSize(width: int, height: int)

  class TvRecyclerView {
    // host state: the measured size, the padding, the layout direction and the layout manager
    var width: int
    var height: int
    var padding: Insets
    var rtl: bool
    var layout: LayoutManager

    var verticalSpacingWithMargins: int
    var horizontalSpacingWithMargins: int
    var selectedItemOffsetStart: int
    var selectedItemOffsetEnd: int
    var selectedItemCentered: bool
    var scrollState: int
    // the focused child's index as last computed by getChildDrawingOrder
    var position: int

    /** A list of the given size, padding and layout direction, with the attribute defaults and no layout manager. */
    constructor (width: int, height: int, padding: Insets, rtl: bool)
      ensures this.width == width && this.height == height && this.padding == padding && this.rtl == rtl
      ensures layout == NoLayoutManager
      ensures selectedItemOffsetStart == DefaultSelectedItemOffset && selectedItemOffsetEnd == DefaultSelectedItemOffset
      ensures !selectedItemCentered && scrollState == ScrollStateIdle
      ensures verticalSpacingWithMargins == 0 && horizontalSpacingWithMargins == 0 && position == 0
    {
      this.width := width;
      this.height := height;
      this.padding := padding;
      this.rtl := rtl;
      layout := NoLayoutManager;
      verticalSpacingWithMargins := 0;
      horizontalSpacingWithMargins := 0;
      selectedItemOffsetStart := DefaultSelectedItemOffset;
      selectedItemOffsetEnd := DefaultSelectedItemOffset;
      selectedItemCentered := false;
      scrollState := ScrollStateIdle;
      position := 0;
    }

    method SetLayoutManager(lm: LayoutManager)
      modifies this`layout
      ensures layout == lm
    {
      layout := lm;
    }

    /** Fixed offsets of the selected item from the start and end; the centred flag is left as it was. */
    method SetSelectedItemOffset(offsetStart: int, offsetEnd: int)
      modifies this`selectedItemOffsetStart, this`selectedItemOffsetEnd
      ensures selectedItemOffsetStart == offsetStart && selectedItemOffsetEnd == offsetEnd
    {
      selectedItemOffsetStart := offsetStart;
      selectedItemOffsetEnd := offsetEnd;
    }

    /** The centred flag; the stored offsets are left as they were. */
    method SetSelectedItemAtCentered(isCentered: bool)
      modifies this`selectedItemCentered
      ensures selectedItemCentered == isCentered
    {
      selectedItemCentered := isCentered;
    }

    /** isVertical: asks a BaseLayoutManager or a LinearLayoutManager; any other layout counts as vertical. */
    function IsVertical(): bool
      reads this
    {
      match layout
      case BaseLayout(o) => o == Vertical
      case LinearLayout(o) => o == Vertical
      case _ => true
    }

    /** getOrientation: asks a BaseLayoutManager; every other layout reports horizontal. */
    function GetOrientation(): Orientation
      reads this
    {
      if layout.BaseLayout? then layout.orientation else Horizontal
    }

    /** setOrientation reaches a BaseLayoutManager only; on any other layout it does nothing. */
    method SetOrientation(orientation: Orientation)
      modifies this`layout
      ensures old(layout).BaseLayout? ==> layout == BaseLayout(orientation)
      ensures old(layout).BaseLayout? ==> GetOrientation() == orientation && (IsVertical() <==> orientation == Vertical)
      ensures !old(layout).BaseLayout? ==> layout == old(layout)
    {
      if layout.BaseLayout? {
        layout := BaseLayout(orientation);
      }
    }

    function FreeWidth(): int
      reads this
    {
      width - padding.left - padding.right
    }

    function FreeHeight(): int
      reads this
    {
      height - padding.top - padding.bottom
    }

    /**
     * The offset that centres a child of the given size on the scroll axis:
     * half the free space the child leaves, truncated toward zero, so the
     * space left on the two sides differs by at most one pixel.
     */
    function CenteredOffset(child: ViewSize): (r: int)
      reads this
      ensures var slack := if IsVertical() then FreeHeight() - child.height else FreeWidth() - child.width;
              if slack >= 0 then 0 <= slack - 2 * r <= 1 else -1 <= slack - 2 * r <= 0
    {
      TruncDiv(if !IsVertical() then FreeWidth() - child.width else FreeHeight() - child.height, 2)
    }

    /** requestChildFocus: in centred mode both offsets become the centring offset of the new child. */
    method RequestChildFocus(child: Option<ViewSize>)
      modifies this`selectedItemOffsetStart, this`selectedItemOffsetEnd
      ensures child.Some? && selectedItemCentered ==>
                selectedItemOffsetStart == CenteredOffset(child.value) && selectedItemOffsetEnd == selectedItemOffsetStart
      ensures !(child.Some? && selectedItemCentered) ==>
                selectedItemOffsetStart == old(selectedItemOffsetStart) && selectedItemOffsetEnd == old(selectedItemOffsetEnd)
    {
      if child.Some? {
        if selectedItemCentered {
          selectedItemOffsetStart := if !IsVertical() then FreeWidth() - child.value.width
                                     else FreeHeight() - child.value.height;
          selectedItemOffsetStart := TruncDiv(selectedItemOffsetStart, 2);
          selectedItemOffsetEnd := selectedItemOffsetStart;
        }
      }
    }

    /** The padded bounds of the list in its own coordinates. */
    function ParentBounds(): (r: Rect)
      reads this
      ensures r.left == padding.left && r.top == padding.top
      ensures r.Width() == FreeWidth() && r.Height() == FreeHeight()
    {
      Rect(padding.left, padding.top, width - padding.right, height - padding.bottom)
    }

    /**
     * requestChildRectangleOnScreen: the start offset guards the left and top
     * edges, the end offset the right and bottom edges.
     */
    function RequestChildRectangleOnScreen(child: ChildView, rect: Rect, immediate: bool): (r: ScrollOutcome)
      reads this
      // the start offset guards the left and top edges, the end offset the right and bottom edges
      ensures var c := ScrolledChildRect(child, rect);
              r.dx == if rtl
                      then RtlAxisDelta(padding.left, width - padding.right, c.left, c.right,
                                        selectedItemOffsetStart, selectedItemOffsetEnd)
                      else AxisDelta(padding.left, width - padding.right, c.left, c.right,
                                     selectedItemOffsetStart, selectedItemOffsetEnd)
      ensures var c := ScrolledChildRect(child, rect);
              r.dy == AxisDelta(padding.top, height - padding.bottom, c.top, c.bottom,
                                selectedItemOffsetStart, selectedItemOffsetEnd)
      ensures r.scrolled <==> r.dx != 0 || r.dy != 0
      ensures r.smooth <==> r.scrolled && !immediate
      ensures r.invalidate <==> !r.scrolled || (if IsVertical() then r.dy == 0 else r.dx == 0)
      // the top is favoured: once it clears its offset, it is never scrolled out
      ensures var c := ScrolledChildRect(child, rect);
              c.top - selectedItemOffsetStart >= padding.top ==> c.top - r.dy >= padding.top
      ensures var c := ScrolledChildRect(child, rect);
              !rtl && c.left - selectedItemOffsetStart >= padding.left ==> c.left - r.dx >= padding.left
      ensures var c := ScrolledChildRect(child, rect);
              rtl && c.right + selectedItemOffsetEnd <= width - padding.right ==> c.right - r.dx <= width - padding.right
      // a child inside the selected-item window on both axes causes no scroll
      ensures var c := ScrolledChildRect(child, rect);
              selectedItemOffsetStart >= 0 && selectedItemOffsetEnd >= 0
              && padding.left + selectedItemOffsetStart <= c.left && c.right <= width - padding.right - selectedItemOffsetEnd
              && padding.top + selectedItemOffsetStart <= c.top && c.bottom <= height - padding.bottom - selectedItemOffsetEnd
              ==> r.dx == 0 && r.dy == 0 && !r.scrolled
    {
      var lead := Insets(selectedItemOffsetStart, selectedItemOffsetStart, selectedItemOffsetEnd, selectedItemOffsetEnd);
      var c := ScrolledChildRect(child, rect);
      RevealInsideWindow(ParentBounds(), c, lead, rtl, IsVertical(), immediate);
      RevealRect(ParentBounds(), c, lead, rtl, IsVertical(), immediate)
    }

    /** setSpacingWithMargins: records the spacings and adjusts the padding. */
    method SetSpacingWithMargins(verticalSpacing: int, horizontalSpacing: int)
      modifies this`verticalSpacingWithMargins, this`horizontalSpacingWithMargins, this`padding
      ensures verticalSpacingWithMargins == verticalSpacing && horizontalSpacingWithMargins == horizontalSpacing
      ensures (verticalSpacing > 0 || horizontalSpacing > 0) ==>
                padding == Insets(old(padding).left - TruncDiv(verticalSpacing, 2),
                                  old(padding).top - TruncDiv(horizontalSpacing, 2),
                                  old(padding).right - TruncDiv(verticalSpacing, 2),
                                  old(padding).bottom - TruncDiv(horizontalSpacing, 2))
      ensures !(verticalSpacing > 0 || horizontalSpacing > 0) ==> padding == old(padding)
    {
      verticalSpacingWithMargins := verticalSpacing;
      horizontalSpacingWithMargins := horizontalSpacing;
      AdjustPadding();
    }

    /**
     * adjustPadding: when either spacing is positive, half the vertical spacing
     * comes off the left and right padding and half the horizontal spacing off
     * the top and bottom, which widens the free space by (about) one spacing.
     */
    method AdjustPadding()
      modifies this`padding
      ensures (verticalSpacingWithMargins > 0 || horizontalSpacingWithMargins > 0) ==>
                padding == Insets(old(padding).left - TruncDiv(verticalSpacingWithMargins, 2),
                                  old(padding).top - TruncDiv(horizontalSpacingWithMargins, 2),
                                  old(padding).right - TruncDiv(verticalSpacingWithMargins, 2),
                                  old(padding).bottom - TruncDiv(horizontalSpacingWithMargins, 2))
      ensures (verticalSpacingWithMargins > 0 || horizontalSpacingWithMargins > 0) && verticalSpacingWithMargins >= 0 ==>
                0 <= verticalSpacingWithMargins - (FreeWidth() - old(FreeWidth())) <= 1
      ensures !(verticalSpacingWithMargins > 0 || horizontalSpacingWithMargins > 0) ==> padding == old(padding)
    {
      if verticalSpacingWithMargins > 0 || horizontalSpacingWithMargins > 0 {
        var verticalSpacingHalf := TruncDiv(verticalSpacingWithMargins, 2);
        var horizontalSpacingHalf := TruncDiv(horizontalSpacingWithMargins, 2);
        padding := Insets(padding.left - verticalSpacingHalf, padding.top - horizontalSpacingHalf,
                          padding.right - verticalSpacingHalf, padding.bottom - horizontalSpacingHalf);
      }
    }

    /**
     * getChildDrawingOrder for step i of childCount, given the focused child's
     * adapter position (if a child has focus) and the layout positions of the
     * attached children; it also refreshes the scratch field `position`.
     */
    method GetChildDrawingOrder(childCount: int, i: int, focusedAdapterPosition: Option<int>, attached: seq<int>)
      returns (r: int)
      modifies this`position
      ensures r == Navigation.DrawingOrder(focusedAdapterPosition, Navigation.FirstVisiblePosition(attached), childCount, i)
      ensures focusedAdapterPosition.None? ==> position == old(position)
      ensures focusedAdapterPosition.Some? ==>
                var p := focusedAdapterPosition.value - Navigation.FirstVisiblePosition(attached);
                position == if 0 <= p && i == childCount - 1 && p > i then i else p
    {
      if focusedAdapterPosition.Some? {
        position := focusedAdapterPosition.value - Navigation.FirstVisiblePosition(attached);
        if position < 0 {
          return i;
        } else {
          if i == childCount - 1 {
            if position > i {
              position := i;
            }
            return position;
          }
          if i == position {
            return childCount - 1;
          }
        }
      }
      return i;
    }

    /**
     * What hasInBorder and onKeyDown read, for the given focused child, the
     * layout positions of the attached children and the adapter's item count.
     */
    function NavigationContext(focused: Option<Navigation.FocusedView>, attached: seq<int>, itemCount: int)
      : Navigation.BorderContext
      reads this
    {
      Navigation.BorderContext(width, height, padding, IsVertical(), focused,
                               Navigation.FirstVisiblePosition(attached), Navigation.LastVisiblePosition(attached),
                               itemCount)
    }

    /** isScrolling: a fling or animated scroll is settling. */
    function IsScrolling(): bool
      reads this
    {
      scrollState == ScrollStateSettling
    }

    /** onScrollStateChanged: records the state; nothing that key handling reads changes with it. */
    method OnScrollStateChanged(state: int)
      modifies this`scrollState
      ensures scrollState == state
      ensures IsScrolling() <==> state == ScrollStateSettling
      ensures forall focused, attached, itemCount ::
                NavigationContext(focused, attached, itemCount) == old(NavigationContext(focused, attached, itemCount))
    {
      scrollState := state;
    }
  }

  /**
   * isVertical and getOrientation agree exactly for a BaseLayoutManager and a
   * horizontal LinearLayoutManager; with no layout manager or another kind the
   * list counts as vertical yet reports a horizontal orientation.
   */
  lemma OrientationAgreement(v: TvRecyclerView)
    ensures (v.IsVertical() <==> v.GetOrientation() == Vertical)
            <==> v.layout.BaseLayout? || v.layout == LinearLayout(Horizontal)
    ensures (v.layout == NoLayoutManager || v.layout == OtherLayout) ==>
              v.IsVertical() && v.GetOrientation() == Horizontal
  {
  }

  /**
   * Centred mode overwrites the fixed offsets on every focus change, and
   * turning it off later does not bring the earlier fixed pair back.
   */
  method CenteredFocusOverwritesFixedOffsets() returns (offsetStart: int, offsetEnd: int)
    ensures offsetStart == 400 && offsetEnd == 400
    ensures offsetStart != 10 && offsetEnd != 20
  {
    var v := new TvRecyclerView(1000, 600, Insets(0, 0, 0, 0), false);
    v.SetLayoutManager(LinearLayout(Horizontal));
    v.SetSelectedItemOffset(10, 20);
    v.SetSelectedItemAtCentered(true);
    v.RequestChildFocus(Some(ViewSize(200, 100)));
    v.SetSelectedItemAtCentered(false);
    v.RequestChildFocus(Some(ViewSize(300, 100)));
    offsetStart, offsetEnd := v.selectedItemOffsetStart, v.selectedItemOffsetEnd;
  }
}
