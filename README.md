# TvRecyclerView focus navigation and scroll geometry, in Dafny

This project models the D-pad navigation core of TvRecyclerView, an Android
RecyclerView for television remotes, together with the example application's
IGridLayoutManager, and proves properties of that model.

What is modelled:

- **Bring-into-view geometry** (`Geometry`). When a child takes focus, the list
  scrolls so that the child clears a start inset and an end inset on each
  axis. `AxisDelta` is the start-favoured rule. It applies to the vertical axis,
  and to the horizontal axis in a left-to-right layout. `RtlAxisDelta` is the
  mirrored, end-favoured rule for a right-to-left layout. `RevealRect` combines
  the two axes. It returns the deltas given to `scrollBy` or `smoothScrollBy`,
  the boolean the source returns, and whether `postInvalidate` is called.
- **TvRecyclerView** (`TvRecycler.TvRecyclerView`). The class holds the
  selected-item offsets (default 40 and 40), the centred flag (default off),
  the scroll state, the spacings, the padding and the draw-order scratch field.
  It also holds the host state that the source reads: measured size, layout
  direction and layout manager. Its methods are the setters, `requestChildFocus`
  (centring), `adjustPadding`, `getChildDrawingOrder` and `onScrollStateChanged`.
  Its functions are `isVertical`, `getOrientation`, `isScrolling` and
  `requestChildRectangleOnScreen`. Java's truncating `/` is written out as
  `Geometry.TruncDiv`.
- **Key handling** (`Navigation`). This covers the key-code-to-direction
  switch, the border detector `hasInBorder` and the verdict of `onKeyDown`.
  The host's focus search, `FocusFinder.findNextFocus`, is a function parameter
  (an oracle). First and last visible positions and the draw-order remap live
  here too.
- **Layout-manager class names** (`LayoutName`). This is the rewrite of a
  configured name before reflection loads the class.
- **IGridLayoutManager** (`GridLayout`). It uses the same rule with fixed insets
  (230 left, 130 right, 0 top and bottom) and a child rectangle that ignores the
  child's own scroll.

The code behaves in these ways a reader might not expect:

- `onKeyDown` never reads the scroll state. A key press while a scroll is
  settling is handled like any other. `OnScrollStateChanged` proves that a
  change of scroll state leaves every input of key handling unchanged.
- At a border, `onKeyDown` returns `false`, so `dispatchKeyEvent` falls back to
  RecyclerView's default dispatch instead of consuming the key. When no focus candidate is found it still
  returns `true`.
- `setSelectedItemOffset` and `setSelectedItemAtCentered` are two independent
  fields, not a tagged union. In centred mode, `requestChildFocus` overwrites
  the stored offsets. Turning centred mode off later keeps the last centred
  pair, not the earlier fixed pair (`CenteredFocusOverwritesFixedOffsets`).
- "A child inside the inset window needs no scroll" holds only when the child
  also starts inside the parent. A negative offset is possible in centred mode
  with a child larger than the free space, and then the rule still scrolls
  (`NegativeLeadStillScrolls`). "One step always suffices" holds for a child
  that fits its window (`AxisDeltaStable`). It fails for a child larger than
  the window (`OversizedChildNotFullyRevealed`).

`BaseLayoutManager` is not part of this model. Its `isVertical()` is taken to
agree with its `getOrientation()`. Android's D-pad key codes (19 to 22) and
RecyclerView's scroll-state constants (0 to 2) are the platform's values.

## Model

| member | source | states |
|---|---|---|
| `Geometry.TruncDiv` | library/src/main/java/com/owen/tvrecyclerview/widget/TvRecyclerView.java:221 | Java's `/` by a positive divisor: remainder has the dividend's sign and is smaller than the divisor |
| `Geometry.TruncDivOdd` | library/src/main/java/com/owen/tvrecyclerview/widget/TvRecyclerView.java:299-300 | truncating halving is odd in its dividend: `-a` halves to minus the half of `a` |
| `Geometry.TruncDivIsNotEuclidean` | library/src/main/java/com/owen/tvrecyclerview/widget/TvRecyclerView.java:221 | on -1 halved, Java gives 0 and Euclidean division gives -1 |
| `Geometry.ScrolledChildRect` | library/src/main/java/com/owen/tvrecyclerview/widget/TvRecyclerView.java:234-237 | the child rectangle keeps the rect's size and is shifted by the child's position less its own scroll |
| `Geometry.OffScreenStart` | library/src/main/java/com/owen/tvrecyclerview/widget/TvRecyclerView.java:239-240 | never positive; negative exactly when the child's start, less its lead inset, lies before the parent's start, and then it is the distance that puts the start on the lead line |
| `Geometry.OffScreenEnd` | library/src/main/java/com/owen/tvrecyclerview/widget/TvRecyclerView.java:241-242 | never negative; positive exactly when the child's end, plus its lead inset, lies past the parent's end, and then it is the distance that puts the end on the lead line |
| `Geometry.AxisDelta` | library/src/main/java/com/owen/tvrecyclerview/widget/TvRecyclerView.java:239-258 | a start violation puts the start on the lead line; once the start is clear, the start is never pushed out; an end violation is fixed in full or cut short with the start flush, as is a child starting before the parent once its start clears the lead; zero exactly when the start is clear and the end is clear or cannot be helped |
| `Geometry.RtlAxisDelta` | library/src/main/java/com/owen/tvrecyclerview/widget/TvRecyclerView.java:248-250 | equals the start-favoured rule in mirrored coordinates; an end violation puts the end on the lead line; once the end is clear, the end is never pushed out |
| `Geometry.InsideWindowNoScroll` | library/src/main/java/com/owen/tvrecyclerview/widget/TvRecyclerView.java:239-242 | a child inside the inset window, and starting inside the parent, gets delta 0 |
| `Geometry.RtlInsideWindowNoScroll` | library/src/main/java/com/owen/tvrecyclerview/widget/TvRecyclerView.java:249-250 | mirrored: a child inside the window, and ending inside the parent, gets delta 0 |
| `Geometry.AxisDeltaStable` | library/src/main/java/com/owen/tvrecyclerview/widget/TvRecyclerView.java:239-258 | with non-negative insets and a child that fits its window, the scroll puts the child inside the window, and a second request asks for no further scroll |
| `Geometry.RtlAxisDeltaStable` | library/src/main/java/com/owen/tvrecyclerview/widget/TvRecyclerView.java:248-250 | the same for the right-to-left rule: a child that fits its window lands inside it in one step, and a second request asks for nothing |
| `Geometry.NegativeLeadStillScrolls` | library/src/main/java/com/owen/tvrecyclerview/widget/TvRecyclerView.java:252-253 | with negative offsets, a child inside the window but starting before the parent still scrolls, by -5 in the example |
| `Geometry.OversizedChildNotFullyRevealed` | library/src/main/java/com/owen/tvrecyclerview/widget/TvRecyclerView.java:252-253 | a child longer than the window leaves its end past the lead line after the scroll |
| `Geometry.EndViolationScenario` | library/src/main/java/com/owen/tvrecyclerview/widget/TvRecyclerView.java:241-253 | width 1000, insets 120/120, child 900 to 1100: scroll 220, and the right edge lands at 880 |
| `Geometry.RevealRect` | library/src/main/java/com/owen/tvrecyclerview/widget/TvRecyclerView.java:247-278 | dx by the LTR or RTL rule, dy by the start rule; returns true exactly when a delta is non-zero; animated exactly when scrolling and not immediate; redraw when nothing scrolls or the scroll axis does not move |
| `Geometry.RevealInsideWindow` | library/src/main/java/com/owen/tvrecyclerview/widget/TvRecyclerView.java:260-278 | for every input: when the insets are non-negative and the child is inside the window on both axes, there is no scroll, the result is false and a redraw is posted |
| `TvRecycler.TvRecyclerView.constructor` | library/src/main/java/com/owen/tvrecyclerview/widget/TvRecyclerView.java:71-87 | offsets start at 40 and 40, centring off, scroll state idle, no layout manager |
| `TvRecycler.TvRecyclerView.SetLayoutManager` | library/src/main/java/com/owen/tvrecyclerview/widget/TvRecyclerView.java:163-166 | records the layout manager, whose kind decides the orientation queries |
| `TvRecycler.TvRecyclerView.SetSelectedItemOffset` | library/src/main/java/com/owen/tvrecyclerview/widget/TvRecyclerView.java:175-178 | stores both offsets and changes nothing else, centred flag included |
| `TvRecycler.TvRecyclerView.SetSelectedItemAtCentered` | library/src/main/java/com/owen/tvrecyclerview/widget/TvRecyclerView.java:185-187 | stores the flag and leaves the offsets as they were |
| `TvRecycler.TvRecyclerView.IsVertical` | library/src/main/java/com/owen/tvrecyclerview/widget/TvRecyclerView.java:189-198 | no contract of its own; `TvRecycler.OrientationAgreement` states how it relates to getOrientation |
| `TvRecycler.TvRecyclerView.GetOrientation` | library/src/main/java/com/owen/tvrecyclerview/widget/TvRecyclerView.java:309-316 | no contract of its own; `TvRecycler.OrientationAgreement` and `SetOrientation` carry its properties |
| `TvRecycler.OrientationAgreement` | library/src/main/java/com/owen/tvrecyclerview/widget/TvRecyclerView.java:189-198 | isVertical and getOrientation agree exactly for a base layout or a horizontal linear layout; with no or another layout manager, the list counts as vertical but reports horizontal |
| `TvRecycler.TvRecyclerView.SetOrientation` | library/src/main/java/com/owen/tvrecyclerview/widget/TvRecyclerView.java:318-323 | a base layout takes the new orientation, and both queries then report it; any other layout is left unchanged |
| `TvRecycler.TvRecyclerView.FreeWidth` | library/src/main/java/com/owen/tvrecyclerview/widget/TvRecyclerView.java:212-214 | no contract of its own; `ParentBounds` ties it to the padded bounds and `AdjustPadding` states how it grows |
| `TvRecycler.TvRecyclerView.FreeHeight` | library/src/main/java/com/owen/tvrecyclerview/widget/TvRecyclerView.java:208-210 | no contract of its own; `ParentBounds` ties it to the padded bounds |
| `TvRecycler.TvRecyclerView.CenteredOffset` | library/src/main/java/com/owen/tvrecyclerview/widget/TvRecyclerView.java:208-222 | the free space the child leaves on the scroll axis, minus twice the offset, is 0 or 1 when non-negative and 0 or -1 when negative |
| `TvRecycler.TvRecyclerView.RequestChildFocus` | library/src/main/java/com/owen/tvrecyclerview/widget/TvRecyclerView.java:217-226 | in centred mode with a child, both offsets become that child's centring offset; otherwise both are unchanged |
| `TvRecycler.CenteredFocusOverwritesFixedOffsets` | library/src/main/java/com/owen/tvrecyclerview/widget/TvRecyclerView.java:175-226 | fixed offsets 10/20, then centring a 200-wide child in a 1000-wide horizontal list, then centring off and another focus change: both offsets read 400, not 10 and 20 |
| `TvRecycler.TvRecyclerView.ParentBounds` | library/src/main/java/com/owen/tvrecyclerview/widget/TvRecyclerView.java:230-233 | the padded bounds start at the left and top padding, and their width and height are the free width and free height |
| `TvRecycler.TvRecyclerView.RequestChildRectangleOnScreen` | library/src/main/java/com/owen/tvrecyclerview/widget/TvRecyclerView.java:229-279 | dx by the LTR or RTL rule and dy by the start rule, with the start offset guarding left and top and the end offset right and bottom; returns true exactly when a delta is non-zero; once a favoured edge clears its offset it stays inside the padding; a child inside the selected-item window scrolls nowhere |
| `TvRecycler.TvRecyclerView.SetSpacingWithMargins` | library/src/main/java/com/owen/tvrecyclerview/widget/TvRecyclerView.java:287-295 | records both spacings, then adjusts the padding as adjustPadding does |
| `TvRecycler.TvRecyclerView.AdjustPadding` | library/src/main/java/com/owen/tvrecyclerview/widget/TvRecyclerView.java:297-307 | when a spacing is positive, halves come off the paddings, and the free width grows by the vertical spacing or one less; otherwise the padding is unchanged |
| `Navigation.VisibleRangeBounds` | library/src/main/java/com/owen/tvrecyclerview/widget/TvRecyclerView.java:325-338 | with increasing valid positions attached, first ≤ every attached position ≤ last < item count; with no children both read 0 |
| `Navigation.FirstVisiblePosition` | library/src/main/java/com/owen/tvrecyclerview/widget/TvRecyclerView.java:325-330 | no contract of its own; `Navigation.VisibleRangeBounds` states its bounds |
| `Navigation.LastVisiblePosition` | library/src/main/java/com/owen/tvrecyclerview/widget/TvRecyclerView.java:332-338 | no contract of its own; `Navigation.VisibleRangeBounds` states its bounds |
| `Navigation.DrawingOrder` | library/src/main/java/com/owen/tvrecyclerview/widget/TvRecyclerView.java:361-380 | no contract of its own; `DrawingOrderIdentity`, `ClampedFocusDrawsInOrder`, `FocusedDrawnLast`, `DrawingOrderInvolution` and `DrawingOrderIsPermutation` carry its properties |
| `TvRecycler.TvRecyclerView.GetChildDrawingOrder` | library/src/main/java/com/owen/tvrecyclerview/widget/TvRecyclerView.java:359-380 | returns the draw-order remap for the focused child's relative position and refreshes the scratch field, clamping it at the last step |
| `Navigation.DrawingOrderIdentity` | library/src/main/java/com/owen/tvrecyclerview/widget/TvRecyclerView.java:362-366 | with no focused child, or the focused child before the first visible one, children draw in order |
| `Navigation.ClampedFocusDrawsInOrder` | library/src/main/java/com/owen/tvrecyclerview/widget/TvRecyclerView.java:369-371 | with the focused position past the last attached child, the last step is clamped to itself and every step draws its own child |
| `Navigation.FocusedDrawnLast` | library/src/main/java/com/owen/tvrecyclerview/widget/TvRecyclerView.java:368-376 | the focused child draws at the last step, the last child takes the focused child's step, every other step is unchanged |
| `Navigation.DrawingOrderInvolution` | library/src/main/java/com/owen/tvrecyclerview/widget/TvRecyclerView.java:361-380 | the remap keeps [0, childCount) in range and undoes itself |
| `Navigation.DrawingOrderIsPermutation` | library/src/main/java/com/owen/tvrecyclerview/widget/TvRecyclerView.java:361-380 | the remap is a bijection on [0, childCount): in range, injective, and every step is reached |
| `Navigation.SwapKeepsMultiset` | library/src/main/java/com/owen/tvrecyclerview/widget/TvRecyclerView.java:368-376 | exchanging two entries of a sequence keeps its multiset |
| `Navigation.PaintOrderIsSwap` | library/src/main/java/com/owen/tvrecyclerview/widget/TvRecyclerView.java:368-376 | with the focused child attached before the last slot, a paint pass is child order with that slot and the last one exchanged |
| `Navigation.PaintOrderIsPermutation` | library/src/main/java/com/owen/tvrecyclerview/widget/TvRecyclerView.java:361-380 | a whole paint pass draws every attached child exactly once: its multiset is that of 0 to childCount - 1 |
| `TvRecycler.TvRecyclerView.OnScrollStateChanged` | library/src/main/java/com/owen/tvrecyclerview/widget/TvRecyclerView.java:383-389 | records the state; isScrolling holds exactly for settling; everything key handling reads is unchanged |
| `TvRecycler.TvRecyclerView.IsScrolling` | library/src/main/java/com/owen/tvrecyclerview/widget/TvRecyclerView.java:387-389 | no contract of its own; `OnScrollStateChanged` states that it holds exactly for the settling state |
| `Navigation.KeyDirection` | library/src/main/java/com/owen/tvrecyclerview/widget/TvRecyclerView.java:408-422 | a code maps to a direction exactly when it is that direction's D-pad code |
| `Navigation.HasInBorder` | library/src/main/java/com/owen/tvrecyclerview/widget/TvRecyclerView.java:436-471 | true exactly when a child has focus, its edge in that direction is within padding + margin + decoration, and, on the scroll axis only, the first or last item is shown |
| `Navigation.OrthogonalBorderIgnoresRange` | library/src/main/java/com/owen/tvrecyclerview/widget/TvRecyclerView.java:446-466 | off the scroll axis, the border test does not depend on the visible range or the item count |
| `Navigation.BorderMonotone` | library/src/main/java/com/owen/tvrecyclerview/widget/TvRecyclerView.java:445-463 | moving the focused child further towards an edge it is at keeps it at the border |
| `Navigation.UpBorderScenario` | library/src/main/java/com/owen/tvrecyclerview/widget/TvRecyclerView.java:450-455 | vertical, first item shown, child flush with the top inset: Up is a border; one unit lower it is not |
| `Navigation.LeftBorderScenario` | library/src/main/java/com/owen/tvrecyclerview/widget/TvRecyclerView.java:456-461 | ten items, 0 to 5 shown, child flush left: Left is a border in both orientations |
| `Navigation.KeyDown` | library/src/main/java/com/owen/tvrecyclerview/widget/TvRecyclerView.java:407-434 | returns false exactly for a non-D-pad key or at the border; otherwise returns true and requests focus on the search's candidate, if any |
| `Navigation.KeyConsumedWithoutCandidate` | library/src/main/java/com/owen/tvrecyclerview/widget/TvRecyclerView.java:427-433 | away from the border, a D-pad key is consumed even when the search finds nothing |
| `Navigation.NoFocusConsumesDpad` | library/src/main/java/com/owen/tvrecyclerview/widget/TvRecyclerView.java:437-439 | with no focused child, no direction is a border, so every D-pad key is consumed |
| `LayoutName.IndexOf` | library/src/main/java/com/owen/tvrecyclerview/widget/TvRecyclerView.java:138 | -1 exactly when the character is absent; otherwise the index of its first occurrence |
| `LayoutName.NormaliseName` | library/src/main/java/com/owen/tvrecyclerview/widget/TvRecyclerView.java:138-144 | a name without '.' gets the widget package prefix; a leading '.' gets the application package plus "."; any other name is unchanged |
| `LayoutName.RelativeNameDoublesDot` | library/src/main/java/com/owen/tvrecyclerview/widget/TvRecyclerView.java:141-144 | a relative name comes out with two dots right after the package |
| `LayoutName.RelativeNameExample` | library/src/main/java/com/owen/tvrecyclerview/widget/TvRecyclerView.java:141-144 | ".MyLayoutManager" in package "com.app" becomes "com.app..MyLayoutManager" |
| `LayoutName.IntendedName` | library/src/main/java/com/owen/tvrecyclerview/widget/TvRecyclerView.java:138-144 | as above, but a relative name becomes the package, one dot, then the class name |
| `LayoutName.IntendedNameExample` | library/src/main/java/com/owen/tvrecyclerview/widget/TvRecyclerView.java:141-144 | ".MyLayoutManager" in package "com.app" becomes "com.app.MyLayoutManager" |
| `LayoutName.NamesAgreeUnlessRelative` | library/src/main/java/com/owen/tvrecyclerview/widget/TvRecyclerView.java:139-144 | both rewrites agree on every name that does not start with '.' |
| `GridLayout.GridRectIgnoresChildScroll` | example/src/main/java/com/owen/tvrecyclerview/example/IGridLayoutManager.java:42-45 | the grid's rectangle is TvRecyclerView's with the child's scroll set to zero; they agree exactly for an unscrolled child |
| `GridLayout.GridChildRect` | example/src/main/java/com/owen/tvrecyclerview/example/IGridLayoutManager.java:42-45 | the grid's child rectangle keeps the rect's size and is shifted by the child's position only |
| `GridLayout.RequestChildRectangleOnScreen` | example/src/main/java/com/owen/tvrecyclerview/example/IGridLayoutManager.java:31-108 | the LTR, RTL and vertical rules with insets 230/130/0/0; the top never ends above the padding; returns true exactly when a delta is non-zero; animated exactly when scrolling and not immediate; a child inside [left+230, right-130] × [top, bottom] scrolls nowhere |
| `GridLayout.LeftInsetScenario` | example/src/main/java/com/owen/tvrecyclerview/example/IGridLayoutManager.java:47-63 | in a 1920-wide grid, a child at left 100 scrolls by -130, immediately, without a redraw |

## Findings

| source | as written | input that shows it | evidently intended | confidence | as-written member | corrected member |
|---|---|---|---|---|---|---|
| library/src/main/java/com/owen/tvrecyclerview/widget/TvRecyclerView.java:141-144 | a name starting with '.' becomes `packageName + "." + name` | name ".MyLayoutManager", package "com.app" gives "com.app..MyLayoutManager", which names no class | `packageName + name`, which gives "com.app.MyLayoutManager" (RecyclerView resolves relative names this way) | not executed; high | `LayoutName.RelativeNameExample` | `LayoutName.IntendedName` |

## Left out

- The host's view plumbing is not modelled. This covers `dispatchKeyEvent`, `requestFocus`, the listener wiring in `init` and `onChildAttachedToWindow`, the logging in `onFocusChanged` and `hasFocus`, and `setOnItemListener`.
- `FocusFinder.findNextFocus` is an oracle parameter of `Navigation.KeyDown`, because the focus search belongs to the host.
- `scrollBy`, `smoothScrollBy` and `postInvalidate` are never called. Their arguments and whether they would run are returned in `ScrollOutcome`.
- Reflective loading and construction in `loadLayoutManagerFromName` (lines 146-159) is a foreign call. Only the name rewrite is modelled.
- Attribute parsing from `TypedArray` in the constructor is not modelled. The constructor starts from the attribute defaults of 40, 40 and `false`.
- `setLayoutManager` does not model `super.setLayoutManager`. Only the recorded kind of the layout manager is kept.
- `isInTouchMode` is not modelled. Its API-19 workaround is a platform version switch.
- `getFreeSize` is not modelled. It is private and nothing calls it.
- `scrollToPositionWithOffset` is not modelled. It delegates to `BaseLayoutManager.scrollToPositionWithOffset`, or else to RecyclerView's `scrollToPosition`, and neither is part of this model.
- `setSpacingWithMargins` does not model its forwarding to `BaseLayoutManager.setSpacingWithMargins`.
- The measured size, padding source and layout direction are fields that the host provides. Measurement and layout passes are not modelled.
- `getAdapter()` returning null is not modelled. The item count is a plain parameter.
- Java's 32-bit overflow is not modelled. Coordinates are unbounded integers.
- LayoutFragment.java and LayoutAdapter.java are example UI and data-binding glue and are not modelled.
