/**
 * The pure decision logic of TvRecyclerView's D-pad handling: the key-code
 * to direction map, the border detector hasInBorder, onKeyDown's verdict,
 * the first/last visible positions and the draw-order remap that paints the
 * focused child last.
 */
module Navigation {
  import opened Wrappers
  import opened Geometry

  /** Android's KeyEvent codes for the four D-pad directions. */
  const KeyCodeDpadUp := 19
  const KeyCodeDpadDown := 20
  const KeyCodeDpadLeft := 21
  const KeyCodeDpadRight := 22

  /** View.FOCUS_UP, FOCUS_DOWN, FOCUS_LEFT and FOCUS_RIGHT. */
  datatype Direction = Up | Down | Left | Right

  function KeyCodeOf(d: Direction): int
  {
    match d
    case Up => KeyCodeDpadUp
    case Down => KeyCodeDpadDown
    case Left => KeyCodeDpadLeft
    case Right => KeyCodeDpadRight
  }

  /** The switch at the top of onKeyDown; None stands for the source's direction -1. */
  function KeyDirection(keyCode: int): (r: Option<Direction>)
    ensures forall d :: r == Some(d) <==> keyCode == KeyCodeOf(d)
  {
    if keyCode == KeyCodeDpadDown then Some(Down)
    else if keyCode == KeyCodeDpadRight then Some(Right)
    else if keyCode == KeyCodeDpadLeft then Some(Left)
    else if keyCode == KeyCodeDpadUp then Some(Up)
    else None
  }

  /** getFirstVisiblePosition over the layout positions of the attached children, in child order. */
  function FirstVisiblePosition(attached: seq<int>): int
  {
    if |attached| == 0 then 0 else attached[0]
  }

  /** getLastVisiblePosition over the layout positions of the attached children, in child order. */
  function LastVisiblePosition(attached: seq<int>): int
  {
    if |attached| == 0 then 0 else attached[|attached| - 1]
  }

  ghost predicate StrictlyIncreasing(s: seq<int>)
  {
    forall i, j :: 0 <= i < j < |s| ==> s[i] < s[j]
  }

  /**
   * When the attached children hold increasing positions of an adapter with
   * itemCount items, the visible range brackets every attached position and
   * lies inside the adapter; with nothing attached both ends read 0.
   */
  lemma VisibleRangeBounds(attached: seq<int>, itemCount: int)
    requires StrictlyIncreasing(attached)
    requires forall k :: 0 <= k < |attached| ==> 0 <= attached[k] < itemCount
    ensures |attached| == 0 ==> FirstVisiblePosition(attached) == 0 == LastVisiblePosition(attached)
    ensures |attached| > 0 ==> 0 <= FirstVisiblePosition(attached) <= LastVisiblePosition(attached) < itemCount
    ensures forall k :: 0 <= k < |attached| ==>
              FirstVisiblePosition(attached) <= attached[k] <= LastVisiblePosition(attached)
  {
  }

  /** The focused child as hasInBorder sees it: its bounds, layout margins and item decorations. */
  datatype FocusedView = FocusedView(bounds: Rect, margins: Insets, decorations: Insets)

  /** Everything hasInBorder reads from the list; the scroll state is not among it. */
  datatype BorderContext = BorderContext(
    width: int, height: int, padding: Insets, vertical: bool,
    focused: Option<FocusedView>, firstVisible: int, lastVisible: int, itemCount: int)

  /** The focused child touches (or overlaps) the inset edge in direction d. */
  predicate EdgeReached(ctx: BorderContext, v: FocusedView, d: Direction)
  {
    match d
    case Up => v.bounds.top <= ctx.padding.top + v.margins.top + v.decorations.top
    case Down => ctx.height - v.bounds.bottom <= ctx.padding.bottom + v.margins.bottom + v.decorations.bottom
    case Left => v.bounds.left <= ctx.padding.left + v.margins.left + v.decorations.left
    case Right => ctx.width - v.bounds.right <= ctx.padding.right + v.margins.right + v.decorations.right
  }

  /** d runs along the axis the list scrolls on. */
  predicate OnScrollAxis(d: Direction, vertical: bool)
  {
    if vertical then d == Up || d == Down else d == Left || d == Right
  }

  /** The first item (towards the start) or the last item (towards the end) is attached. */
  predicate ExtremeVisible(ctx: BorderContext, d: Direction)
  {
    if d == Up || d == Left then ctx.firstVisible == 0 else ctx.lastVisible == ctx.itemCount - 1
  }

  /**
   * hasInBorder: the focused child sits at the edge in direction d, and, on the
   * scroll axis only, the corresponding end of the adapter is already shown.
   */
  function HasInBorder(ctx: BorderContext, d: Direction): (r: bool)
    ensures r <==> ctx.focused.Some?
                   && EdgeReached(ctx, ctx.focused.value, d)
                   && (OnScrollAxis(d, ctx.vertical) ==> ExtremeVisible(ctx, d))
  {
    match ctx.focused
    case None => false
    case Some(v) =>
      match d
      case Down =>
        var result := ctx.height - v.bounds.bottom <= ctx.padding.bottom + v.margins.bottom + v.decorations.bottom;
        if ctx.vertical then result && ctx.lastVisible == ctx.itemCount - 1 else result
      case Up =>
        var result := v.bounds.top <= ctx.padding.top + v.margins.top + v.decorations.top;
        if ctx.vertical then result && ctx.firstVisible == 0 else result
      case Left =>
        var result := v.bounds.left <= ctx.padding.left + v.margins.left + v.decorations.left;
        if !ctx.vertical then result && ctx.firstVisible == 0 else result
      case Right =>
        var result := ctx.width - v.bounds.right <= ctx.padding.right + v.margins.right + v.decorations.right;
        if !ctx.vertical then result && ctx.lastVisible == ctx.itemCount - 1 else result
  }

  /** Off the scroll axis the border test ignores the visible range and the item count. */
  lemma OrthogonalBorderIgnoresRange(ctx: BorderContext, d: Direction, first: int, last: int, count: int)
    requires !OnScrollAxis(d, ctx.vertical)
    ensures HasInBorder(ctx, d)
            == HasInBorder(ctx.(firstVisible := first, lastVisible := last, itemCount := count), d)
  {
  }

  /** Moving the focused child further towards the edge it is at keeps it at the border. */
  lemma BorderMonotone(ctx: BorderContext, d: Direction, v: FocusedView, w: FocusedView)
    requires ctx.focused == Some(v) && w.margins == v.margins && w.decorations == v.decorations
    requires match d
             case Up => w.bounds.top <= v.bounds.top
             case Down => w.bounds.bottom >= v.bounds.bottom
             case Left => w.bounds.left <= v.bounds.left
             case Right => w.bounds.right >= v.bounds.right
    requires HasInBorder(ctx, d)
    ensures HasInBorder(ctx.(focused := Some(w)), d)
  {
  }

  /**
   * Vertical list showing the first item, focused child flush with the top
   * inset: Up is at the border; one unit lower it is not.
   */
  lemma UpBorderScenario(ctx: BorderContext, v: FocusedView)
    requires ctx.vertical && ctx.firstVisible == 0 && ctx.focused == Some(v)
    requires v.bounds.top == ctx.padding.top + v.margins.top + v.decorations.top
    ensures HasInBorder(ctx, Up)
    ensures !HasInBorder(ctx.(focused := Some(v.(bounds := v.bounds.(top := v.bounds.top + 1)))), Up)
  {
  }

  /**
   * Ten items, positions 0 to 5 attached, the focused child flush with the
   * left inset: Left is at the border whether the list is vertical or horizontal.
   */
  lemma LeftBorderScenario(ctx: BorderContext, v: FocusedView)
    requires ctx.itemCount == 10 && ctx.firstVisible == 0 && ctx.lastVisible == 5
    requires ctx.focused == Some(v)
    requires v.bounds.left == ctx.padding.left + v.margins.left + v.decorations.left
    ensures HasInBorder(ctx, Left) && HasInBorder(ctx.(vertical := !ctx.vertical), Left)
  {
  }

  /** onKeyDown's verdict: whether it returned true, and which view it asked to take focus. */
  datatype KeyOutcome = KeyOutcome(handled: bool, focusRequest: Option<int>)

  /**
   * onKeyDown. `finder` stands for FocusFinder.findNextFocus from the focused
   * child: given a direction it names the next view to focus, if any.
   */
  function KeyDown(ctx: BorderContext, keyCode: int, finder: Direction -> Option<int>): (r: KeyOutcome)
    // passed on to the parent exactly for a non-D-pad key or at the border
    ensures !r.handled <==> KeyDirection(keyCode).None? || HasInBorder(ctx, KeyDirection(keyCode).value)
    // otherwise consumed, by moving focus to the candidate the search finds (if any)
    ensures r.handled ==> r.focusRequest == finder(KeyDirection(keyCode).value)
    ensures !r.handled ==> r.focusRequest == None
  {
    var direction := KeyDirection(keyCode);
    if direction.None? || HasInBorder(ctx, direction.value) then
      KeyOutcome(false, None)
    else
      KeyOutcome(true, finder(direction.value))
  }

  /** A D-pad key away from the border is consumed even when the focus search finds nothing. */
  lemma KeyConsumedWithoutCandidate(ctx: BorderContext, d: Direction, finder: Direction -> Option<int>)
    requires !HasInBorder(ctx, d) && finder(d) == None
    ensures KeyDown(ctx, KeyCodeOf(d), finder) == KeyOutcome(true, None)
  {
  }

  /** With no focused child no direction is a border, so every D-pad key is consumed. */
  lemma NoFocusConsumesDpad(ctx: BorderContext, d: Direction, finder: Direction -> Option<int>)
    requires ctx.focused == None
    ensures KeyDown(ctx, KeyCodeOf(d), finder).handled
  {
  }

  /**
   * getChildDrawingOrder: the child drawn at step i of childCount. The focused
   * child's index among the attached children is its adapter position less the
   * first visible position.
   */
  function DrawingOrder(focusedAdapterPosition: Option<int>, firstVisible: int, childCount: int, i: int): int
  {
    match focusedAdapterPosition
    case None => i
    case Some(adapterPosition) =>
      var position := adapterPosition - firstVisible;
      if position < 0 then i
      else if i == childCount - 1 then (if position > i then i else position)
      else if i == position then childCount - 1
      else i
  }

  /** Nothing focused, or the focused child's position before the first visible one: draw in child order. */
  lemma DrawingOrderIdentity(focusedAdapterPosition: Option<int>, firstVisible: int, childCount: int, i: int)
    requires focusedAdapterPosition.None? || focusedAdapterPosition.value < firstVisible
    ensures DrawingOrder(focusedAdapterPosition, firstVisible, childCount, i) == i
  {
  }

  /**
   * A focused position past the last attached child: the last step is clamped
   * to itself and no other step matches, so every child is drawn in child order.
   */
  lemma ClampedFocusDrawsInOrder(p: int, firstVisible: int, childCount: int, i: int)
    requires p - firstVisible >= childCount && 0 <= i < childCount
    ensures DrawingOrder(Some(p), firstVisible, childCount, i) == i
  {
  }

  /** An attached focused child is drawn last; the child it displaces takes its step; all others keep theirs. */
  lemma FocusedDrawnLast(p: int, firstVisible: int, childCount: int, i: int)
    requires 0 <= p - firstVisible < childCount && 0 <= i < childCount
    ensures DrawingOrder(Some(p), firstVisible, childCount, childCount - 1) == p - firstVisible
    ensures i == p - firstVisible && i != childCount - 1
            ==> DrawingOrder(Some(p), firstVisible, childCount, i) == childCount - 1
    ensures i != p - firstVisible && i != childCount - 1
            ==> DrawingOrder(Some(p), firstVisible, childCount, i) == i
  {
  }

  /** The remap undoes itself on [0, childCount): it exchanges at most two steps. */
  lemma DrawingOrderInvolution(focused: Option<int>, firstVisible: int, childCount: int, i: int)
    requires 0 <= i < childCount
    ensures var j := DrawingOrder(focused, firstVisible, childCount, i);
            0 <= j < childCount && DrawingOrder(focused, firstVisible, childCount, j) == i
  {
  }

  /** Every child of [0, childCount) is drawn at exactly one step: the remap is a permutation. */
  lemma DrawingOrderIsPermutation(focused: Option<int>, firstVisible: int, childCount: int)
    ensures forall i :: 0 <= i < childCount ==> 0 <= DrawingOrder(focused, firstVisible, childCount, i) < childCount
    ensures forall i, j :: 0 <= i < childCount && 0 <= j < childCount && i != j
              ==> DrawingOrder(focused, firstVisible, childCount, i) != DrawingOrder(focused, firstVisible, childCount, j)
    // every step c is reached, from the step the remap sends c to
    ensures forall c :: 0 <= c < childCount ==>
              DrawingOrder(focused, firstVisible, childCount, DrawingOrder(focused, firstVisible, childCount, c)) == c
  {
    forall i | 0 <= i < childCount
      ensures 0 <= DrawingOrder(focused, firstVisible, childCount, i) < childCount
    {
      DrawingOrderInvolution(focused, firstVisible, childCount, i);
    }
    forall i, j | 0 <= i < childCount && 0 <= j < childCount && i != j
      ensures DrawingOrder(focused, firstVisible, childCount, i) != DrawingOrder(focused, firstVisible, childCount, j)
    {
      DrawingOrderInvolution(focused, firstVisible, childCount, i);
      DrawingOrderInvolution(focused, firstVisible, childCount, j);
    }
    forall c | 0 <= c < childCount
      ensures DrawingOrder(focused, firstVisible, childCount, DrawingOrder(focused, firstVisible, childCount, c)) == c
    {
      DrawingOrderInvolution(focused, firstVisible, childCount, c);
    }
  }

  /** The children of one paint pass, in the order they are drawn. */
  function PaintOrder(focused: Option<int>, firstVisible: int, childCount: nat): seq<int>
  {
    seq(childCount, i => DrawingOrder(focused, firstVisible, childCount, i))
  }

  /** Child indices in their own order, 0 to n - 1. */
  function Indices(n: nat): seq<int>
  {
    seq(n, i => i)
  }

  /** Exchanging two elements of a sequence keeps its multiset. */
  lemma SwapKeepsMultiset(s: seq<int>, i: nat, j: nat)
    requires i < |s| && j < |s|
    ensures multiset(s[i := s[j]][j := s[i]]) == multiset(s)
  {
  }

  /** With the focused child attached before the last slot, a paint pass is the identity with the two slots exchanged. */
  lemma PaintOrderIsSwap(p: int, firstVisible: int, childCount: nat)
    requires 0 <= p - firstVisible < childCount - 1
    ensures var q := p - firstVisible;
            PaintOrder(Some(p), firstVisible, childCount)
            == Indices(childCount)[q := childCount - 1][childCount - 1 := q]
  {
  }

  /** A paint pass draws every attached child exactly once. */
  lemma PaintOrderIsPermutation(focused: Option<int>, firstVisible: int, childCount: nat)
    ensures multiset(PaintOrder(focused, firstVisible, childCount)) == multiset(Indices(childCount))
  {
    var ids := Indices(childCount);
    if focused.Some? && 0 <= focused.value - firstVisible < childCount - 1 {
      var q := focused.value - firstVisible;
      PaintOrderIsSwap(focused.value, firstVisible, childCount);
      SwapKeepsMultiset(ids, q, childCount - 1);
    } else {
      forall k | 0 <= k < childCount
        ensures PaintOrder(focused, firstVisible, childCount)[k] == ids[k]
      {
      }
      assert PaintOrder(focused, firstVisible, childCount) == ids;
    }
  }
}
