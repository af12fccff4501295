# Floating expand button: drag and snap model

A Dafny model of the drag-and-snap state machine of the browser's floating
erase button (`FloatingExpandButton`). The user can drag the button around
its parent view. It refuses moves shorter than a threshold. It stays
inside its parent, at least `EDGEDIS` = 50 pixels above the bottom. On
release it compares the raw touch point with half the parent's width and
height. It snaps to the left or right dock, `EDGEDIS` pixels in from that
side, and turns its radial action menu so that the menu opens away from
the nearest edges. Its visibility is gated by the
number of open tabs: it stays hidden unless exactly one tab is open.

The project has four modules:

- `DragMath` (`drag_math.dfy`) holds the integer arithmetic. `HalfTowardZero`
  is Java's truncating `n / 2`. `Clamp` moves a coordinate into an interval.
  `FloorSqrt` is `(int) Math.sqrt`. `FloorSqrtAtMost` proves that the drag
  threshold `(int) Math.sqrt(d) <= 50` is the same test as `d < 51 * 51`.
- `FloatingButton` (`floating_button.dfy`) is the model as values. The
  record `Button` holds every field the widget changes. There is one
  function per handler. `OnTouchEvent` is the whole touch dispatcher, with
  its fall-through, and `Run` applies any sequence of calls to the class's public mutators.
- `ButtonProperties` (`properties.dfy`) proves what holds across calls: the
  visibility gate, the button never leaving its parent, the outcome of a
  drag gesture and of a tap, and that the sweep table is the only one that
  opens away from the edges.
- `Widget` (`widget.dfy`) is the class `FloatingExpandButton`. It has the
  Java class's fields and methods, written statement by statement. Each
  method is proved to leave the object in the state the matching
  `FloatingButton` function gives for the old state.

A `Call` is any of the public mutators: `onTouchEvent`, `setVisibility`,
`updateSessionsCount`, `addSubButton`, `addActionMenu`, `onFinishInflate`,
`updateRanges`, `setLocation`, `setDragLocation` and `attractToClosestSide`.
A `Call` can also open or close the attached menu, as the menu's own click
handling does. So the lemmas over call sequences also cover a menu that is
opened partway through. `setLocation` places the button wherever it is
told, even outside the parent. `StaysInParent` therefore covers only those
`setLocation` calls whose point lies inside the parent.

Coordinates, sizes and touch points are `int`, since the touch points are
already cast to `int` in the source. The platform's own calls are replaced
as follows:

- The default touch handling `super.onTouchEvent` is a boolean parameter,
  `superHandles`. It is used only where Java's `||` would call it.
- `show()` and `hide()` set a `shown` flag.
- The snap animation is replaced by its end value: the docked `x`. During a
  release, Java reads `getX()` for the return value (line 221) before the
  animation has moved the button. The model therefore reads the return
  value before it moves `x`, and the value comes out the same.

Four behaviours of the code are easy to misread; the model follows the
code:

- An accepted drag move returns `false` at line 204. The event is reported
  not consumed, and the default handling is not asked.
- A move event while the menu is open is not ignored. It falls through into
  the release branch (lines 178 and 209) and snaps the button unless
  `isNotDrag` holds.
- A release is treated as a tap only when `isDrag` is false and the button
  already rests at one of the two docks. A plain tap on an undocked button
  therefore snaps it and is consumed.
- The range is not forced to be non-negative. A negative range is handled
  as the code handles it: `Clamp` tests against 0 first, and
  `HalfTowardZero` truncates toward zero.

## Model

| member | source | states |
|---|---|---|
| `DragMath.HalfTowardZero` | app/src/main/java/org/mozilla/focus/widget/FloatingExpandButton.java:248-249 | Java's `rangeWidth / 2` and `rangeHeight / 2`: the remainder `n - 2r` is 0 or 1 for `n >= 0`, and 0 or -1 for negative `n` (truncation toward zero) |
| `DragMath.Clamp` | app/src/main/java/org/mozilla/focus/widget/FloatingExpandButton.java:230-239 | the result lies in `[0, hi]` whenever that interval is non-empty; a value already inside is unchanged; a negative value becomes 0; a non-negative value past `hi` becomes `hi` |
| `DragMath.FloorSqrt` | app/src/main/java/org/mozilla/focus/widget/FloatingExpandButton.java:189 | the truncated square root `r` of the squared distance: `r*r <= n < (r+1)*(r+1)` |
| `DragMath.FloorSqrtAtMost` | app/src/main/java/org/mozilla/focus/widget/FloatingExpandButton.java:189-192 | the truncated distance is at most `k` exactly when the squared distance is below `(k+1)^2`, so the `distance <= EDGEDIS` test equals `d < 51*51` |
| `FloatingButton.IsNotDrag` | app/src/main/java/org/mozilla/focus/widget/FloatingExpandButton.java:284-286 | line 285's test; it holds exactly when the gesture is no drag and a release would leave the button where it is (`ButtonProperties.IsNotDragMeansAtRest`) |
| `FloatingButton.UpdateRanges` | app/src/main/java/org/mozilla/focus/widget/FloatingExpandButton.java:140-149 | takes the parent's width and height when there is a parent, else returns the state unchanged; no other field changes |
| `FloatingButton.AddSubButton` | app/src/main/java/org/mozilla/focus/widget/FloatingExpandButton.java:33-35 | appends the given visibility to the list and changes nothing else |
| `FloatingButton.SweepAngles` | app/src/main/java/org/mozilla/focus/widget/FloatingExpandButton.java:248-268 | the menu's arc is a quarter turn within [-180, 180]; both of its ends point away from the docking side and from the nearer of top and bottom; it turns clockwise on the right and counter-clockwise on the left |
| `FloatingButton.AttractToClosestSide` | app/src/main/java/org/mozilla/focus/widget/FloatingExpandButton.java:247-276 | right-top gives (90, 180), right-bottom (-180, -90), left-top (90, 0), left-bottom (0, -90); the final `x` is `rangeWidth - width - EDGEDIS` on the right and `EDGEDIS` on the left; the button ends docked; `y`, the menu's open flag and every other field are untouched |
| `FloatingButton.SetDragLocation` | app/src/main/java/org/mozilla/focus/widget/FloatingExpandButton.java:228-245 | `x` ends in `[0, rangeWidth - width]` and `y` in `[0, rangeHeight - height - EDGEDIS]` whenever those are non-empty; a coordinate already inside is kept; one below 0 becomes 0 and one past the far bound becomes that bound; the anchor becomes the raw touch point; nothing else changes |
| `FloatingButton.Drag` | app/src/main/java/org/mozilla/focus/widget/FloatingExpandButton.java:178-204 | a move with the menu closed, when the range is empty or the squared distance is below 51*51, changes only `isDrag`, to false: position and anchor are kept; otherwise `isDrag` is true and the button moves by the finger's offset from the anchor, clamped |
| `FloatingButton.Release` | app/src/main/java/org/mozilla/focus/widget/FloatingExpandButton.java:209-215 | after the release branch the button is docked; `y` and `isDrag` are unchanged; it snaps exactly when `isNotDrag` is false, and changes nothing otherwise |
| `FloatingButton.Press` | app/src/main/java/org/mozilla/focus/widget/FloatingExpandButton.java:167-175 | a down event resets `isDrag`, anchors at the raw point and takes the range from the parent, changing nothing else |
| `FloatingButton.OnTouchEvent` | app/src/main/java/org/mozilla/focus/widget/FloatingExpandButton.java:160-222 | no touch event changes the size, the gate, the visibilities or the menu's open flag; an Up, and a Move with the menu open, leave exactly the state `Release` gives at the event's point (dock side and angles included); the result is `!isNotDrag() \|\| super` except for an accepted drag move, which returns false |
| `FloatingButton.SetSubVisibility` | app/src/main/java/org/mozilla/focus/widget/FloatingExpandButton.java:134-138 | every sub-button gets the requested visibility and the list keeps its length |
| `FloatingButton.SetVisibility` | app/src/main/java/org/mozilla/focus/widget/FloatingExpandButton.java:116-132 | while `keepHidden` holds, a request to become visible changes nothing; showing shows every sub-button and leaves the menu alone; hiding closes the menu and gives every sub-button the same visibility; no other field changes |
| `FloatingButton.UpdateSessionsCount` | app/src/main/java/org/mozilla/focus/widget/FloatingExpandButton.java:84-103 | `keepHidden` becomes `tabCount != 1`; any other count than 1 hides the button, closes the menu and makes every sub-button gone, keeping the list's length; a count of 1 changes only the flag; position, range, anchor, flags and menu angles are never changed |
| `FloatingButton.FinishInflate` | app/src/main/java/org/mozilla/focus/widget/FloatingExpandButton.java:106-113 | a button that need not stay hidden is shown and every sub-button becomes visible, with the list's length, the menu and every other field unchanged; otherwise nothing changes |
| `ButtonProperties.SweepAnglesDetermined` | app/src/main/java/org/mozilla/focus/widget/FloatingExpandButton.java:248-268 | the table is the only choice of angles that opens away from the edges, so the contract of `SweepAngles` determines it |
| `ButtonProperties.IsNotDragMeansAtRest` | app/src/main/java/org/mozilla/focus/widget/FloatingExpandButton.java:209-215 | `isNotDrag` holds if and only if `isDrag` is false and the release branch (lines 209-215, with `isNotDrag` at 284-286) would leave the state unchanged |
| `ButtonProperties.HiddenUntilOneTab` | app/src/main/java/org/mozilla/focus/widget/FloatingExpandButton.java:89-121 | once the button must stay hidden and is hidden, no sequence of calls (touches, visibility requests, inflation, sub-buttons, menus, ranges, locations, snaps, menu toggles, other tab counts) shows it until the tab count is 1 again |
| `ButtonProperties.TouchesKeepVisibility` | app/src/main/java/org/mozilla/focus/widget/FloatingExpandButton.java:160-222 | any sequence of touch events leaves the visibility gate, the shown flag, the sub-buttons and the menu's open flag as they were |
| `ButtonProperties.StaysInParent` | app/src/main/java/org/mozilla/focus/widget/FloatingExpandButton.java:228-276 | while the parent keeps its size and leaves room for both docks, any sequence of calls, each `setLocation` among them placing the button inside the parent, keeps the button inside the parent, at least `EDGEDIS` above its bottom |
| `ButtonProperties.DragGestureDocks` | app/src/main/java/org/mozilla/focus/widget/FloatingExpandButton.java:160-222 | down, a move of at least 51 pixels with the menu closed, then up: the move sets `isDrag`, re-anchors and is not consumed; the release is consumed and docks on the side of the release point, keeping `y` |
| `ButtonProperties.TapOnDockedButton` | app/src/main/java/org/mozilla/focus/widget/FloatingExpandButton.java:160-222 | down, a refused move (an empty parent or an offset within the threshold), then up on a button docked for the parent's width: it does not move, no drag is recorded, the menu is untouched, and each event is consumed exactly when the default handling says so |
| `ButtonProperties.RefusedMoveKeepsAnchor` | app/src/main/java/org/mozilla/focus/widget/FloatingExpandButton.java:179-195 | a move refused for an empty range or a short distance keeps the anchor and the position and clears `isDrag`, so the next move is measured from the last accepted point |
| `Widget.FloatingExpandButton.constructor` | app/src/main/java/org/mozilla/focus/widget/FloatingExpandButton.java:37-66 | a new button has no sub-buttons, zero range, anchor and raw point, and both flags false |
| `Widget.FloatingExpandButton.AddSubButton` | app/src/main/java/org/mozilla/focus/widget/FloatingExpandButton.java:33-35 | the sub-button is appended to the list |
| `Widget.FloatingExpandButton.AddActionMenu` | app/src/main/java/org/mozilla/focus/widget/FloatingExpandButton.java:68-70 | the menu is replaced and nothing else changes |
| `Widget.FloatingExpandButton.UpdateSessionsCount` | app/src/main/java/org/mozilla/focus/widget/FloatingExpandButton.java:84-103 | the object ends in the state `FloatingButton.UpdateSessionsCount` gives; `keepHidden` is `tabCount != 1`, and when it holds the button is hidden with its menu closed |
| `Widget.FloatingExpandButton.FinishInflate` | app/src/main/java/org/mozilla/focus/widget/FloatingExpandButton.java:106-113 | the object ends in the state `FloatingButton.FinishInflate` gives |
| `Widget.FloatingExpandButton.SetVisibility` | app/src/main/java/org/mozilla/focus/widget/FloatingExpandButton.java:116-132 | the object ends in the state `FloatingButton.SetVisibility` gives; a visible request while `keepHidden` holds leaves the whole state unchanged |
| `Widget.FloatingExpandButton.SetSubVisibility` | app/src/main/java/org/mozilla/focus/widget/FloatingExpandButton.java:134-138 | the loop gives every sub-button the visibility, one index at a time, and changes no other field |
| `Widget.FloatingExpandButton.UpdateRanges` | app/src/main/java/org/mozilla/focus/widget/FloatingExpandButton.java:140-149 | the range takes the parent's height and width when there is a parent, and is unchanged otherwise |
| `Widget.FloatingExpandButton.OnTouchEvent` | app/src/main/java/org/mozilla/focus/widget/FloatingExpandButton.java:160-222 | the new state and the result are those of `FloatingButton.OnTouchEvent`, including the fall-through from a move with the menu open into the release branch |
| `Widget.FloatingExpandButton.PressDown` | app/src/main/java/org/mozilla/focus/widget/FloatingExpandButton.java:167-175 | the object ends in the state `FloatingButton.Press` gives |
| `Widget.FloatingExpandButton.DragMove` | app/src/main/java/org/mozilla/focus/widget/FloatingExpandButton.java:177-205 | the object ends in the state `FloatingButton.Drag` gives, and the result says whether the early `return false` was reached |
| `Widget.FloatingExpandButton.SetLocation` | app/src/main/java/org/mozilla/focus/widget/FloatingExpandButton.java:223-226 | only the position changes, to the given point |
| `Widget.FloatingExpandButton.SetDragLocation` | app/src/main/java/org/mozilla/focus/widget/FloatingExpandButton.java:228-245 | reassigning its arguments step by step yields the clamped position and anchor of `FloatingButton.SetDragLocation` |
| `Widget.FloatingExpandButton.AttractToClosestSide` | app/src/main/java/org/mozilla/focus/widget/FloatingExpandButton.java:247-276 | the nested tests give the angles and the docked `x` of `FloatingButton.AttractToClosestSide`; on the right `x` grows by `rangeWidth - width - x - EDGEDIS`, as `xBy` animates it |
| `Widget.FloatingExpandButton.IsNotDrag` | app/src/main/java/org/mozilla/focus/widget/FloatingExpandButton.java:284-286 | true exactly when `isDrag` is false and `x` is one of the two docked positions |

## Left out

- Animations are left out (`ObjectAnimator`, `animate().xBy`, `DecelerateInterpolator`, `DURATION`, the reveal animation in `onFinishInflate`). Only the docked `x` that a snap ends at is modelled, not its timing or easing, and no event is modelled as arriving while a snap is still running.
- The behaviour and accessibility calls in `updateSessionsCount` (lines 85-88 and 91-98) are left out. They fetch the layout parameters' `FloatingActionButtonBehavior` and the `AccessibilityManager`, then call `behavior.setEnabled(false)` when touch exploration is on and `behavior.setEnabled(!keepHidden)` otherwise. The cast or null dereference at lines 85-86, which can throw, is not modelled. The `keepHidden` assignment is modelled.
- `show()` and `hide()` are modelled only as the `shown` flag. `setPressed` and `requestDisallowInterceptTouchEvent` are platform calls and are left out.
- `super.onTouchEvent` and `callOnClick` are the platform's default handling. The first is an opaque boolean, `superHandles`. Its side effects (click dispatch) are left out.
- `getX()`, `getY()` and the touch point are floats in the view. The model uses `int` throughout.
- `Math.sqrt` on doubles is modelled as the exact integer square root, which is what `(int) Math.sqrt` returns for the squared distances of screen coordinates.
- Java `int` overflow in `disX * disX + disY * disY` is not modelled. Integers are unbounded.
- The sub-buttons are `SubActionButton` objects in a shared list. The model keeps only the sequence of their visibilities, so aliasing between the list and other holders of the same buttons is not captured.
- `FloatingActionMenu` internals are left out. Only its open flag and its two angles are modelled, and `close(true)` only clears the flag.
- The action menu is always attached. In the source, some calls before `addActionMenu` dereference a null `actionMenu` and throw: any Move event (line 178), a release that snaps (lines 250-267), and `setVisibility` with a non-visible value (line 128). A Down, another action, an Up that does not snap, and a visible request do not read the menu. The throwing cases are not modelled.
- `StaysInParent` does not cover a `setLocation` outside the parent, because the method places the button wherever it is told.
- No touch event opens or closes the menu in the model. The default handling's effects (a click that toggles the menu) are dropped, and the menu's open flag changes only through the separate `MenuToggle` call.
- A down event with no parent would throw at line 170 before `updateRanges` checks for the parent. `PressDown` takes the parent's size, so that case is not modelled. `UpdateRanges` does model the missing parent.
- The getters (`getSubButton`, `getActionMenu`, `getStartX`, `getStartY`, `getEdgedis`, `getRangeHeight`, `getRangeWidth`) only return a field, and are left out.
- The Java constructors take a `Context` and layout attributes. The model's constructor takes the laid-out position and size, the initial shown flag and the menu instead.
