/** The draggable, edge-snapping floating button as values: the record of
    everything the widget keeps, and one function per handler saying what
    the record becomes. The widget class in module Widget is proved to
    follow these functions, and module ButtonProperties proves what they
    promise over whole sequences of calls. */
module FloatingButton {
  import opened DragMath

  /** Gap kept between a docked button and the side of its parent, in
      pixels; the drag threshold reuses it. */
  const EDGEDIS: int := 50

  /** Sweep angles of the action menu, in degrees. The menu lays its items
      out on screen, where the y axis points down, so 90 points down. */
  const ZERO_DEG: int := 0
  const NINETY_DEG: int := 90
  const MINUS_NINETY_DEG: int := -90
  const HALF_TURN_DEG: int := 180
  const MINUS_HALF_TURN_DEG: int := -180

  datatype Option<T> = None | Some(value: T)

  /** The three visibilities a view can be given. */
  datatype Visibility = Visible | Invisible | Gone

  /** What `event.getAction() & ACTION_MASK` selects; any other action
      (cancel, a second pointer, ...) is `OtherAction`. */
  datatype Action = Down | Move | Up | OtherAction

  datatype Event = Event(action: Action, rawX: int, rawY: int)

  /** The current size of the button's parent view. */
  datatype Size = Size(width: int, height: int)

  /** The part of the attached action menu this button reads or writes. */
  datatype Menu = Menu(open: bool, startAngle: int, endAngle: int)

  datatype Sweep = Sweep(startAngle: int, endAngle: int)

  /** Every field of the widget: position and own size, the parent range,
      the drag anchor, the last raw touch point, the two flags, whether the
      button itself is shown, the menu and the sub-buttons' visibilities. */
  datatype Button = Button(
    x: int, y: int, width: int, height: int,
    rangeWidth: int, rangeHeight: int,
    startX: int, startY: int,
    rawX: int, rawY: int,
    isDrag: bool, keepHidden: bool, shown: bool,
    menu: Menu, subButtons: seq<Visibility>)

  /** What a touch handler leaves behind: the new state and whether the
      event was reported consumed. */
  datatype Handled = Handled(next: Button, consumed: bool)

  // ---------------------------------------------------------------------
  // Docking and the sweep table

  /** The x the snap animation reaches on the right: EDGEDIS short of the
      parent's right side. (On the left it is EDGEDIS.) */
  function RightDockX(b: Button): int
  {
    b.rangeWidth - b.width - EDGEDIS
  }

  predicate IsDocked(b: Button)
  {
    b.x == EDGEDIS || b.x == RightDockX(b)
  }

  /** isNotDrag: the gesture is no drag and the button rests at a dock. */
  predicate IsNotDrag(b: Button)
  {
    !b.isDrag && IsDocked(b)
  }

  predicate OnRightHalf(b: Button, px: int)
  {
    px >= HalfTowardZero(b.rangeWidth)
  }

  predicate OnTopHalf(b: Button, py: int)
  {
    py <= HalfTowardZero(b.rangeHeight)
  }

  /** Directions of a menu item at angle `a` in [-180, 180]. */
  predicate TowardLeft(a: int) { a <= -90 || 90 <= a }
  predicate TowardRight(a: int) { -90 <= a <= 90 }
  predicate Downward(a: int) { 0 <= a }
  predicate Upward(a: int) { a <= 0 }

  /** The menu's arc is a quarter turn whose ends both point away from the
      side the button docks to and away from the nearer of top and bottom;
      it turns clockwise on the right and counter-clockwise on the left. */
  predicate OpensAwayFromEdges(right: bool, top: bool, s: Sweep)
  {
    -180 <= s.startAngle <= 180 && -180 <= s.endAngle <= 180 &&
    (right ==> TowardLeft(s.startAngle) && TowardLeft(s.endAngle) && s.endAngle - s.startAngle == 90) &&
    (!right ==> TowardRight(s.startAngle) && TowardRight(s.endAngle) && s.endAngle - s.startAngle == -90) &&
    (top ==> Downward(s.startAngle) && Downward(s.endAngle)) &&
    (!top ==> Upward(s.startAngle) && Upward(s.endAngle))
  }

  /** The angles attractToClosestSide gives the menu for a release corner. */
  function SweepAngles(right: bool, top: bool): (s: Sweep)
    ensures OpensAwayFromEdges(right, top, s)
  {
    if right then
      if top then Sweep(NINETY_DEG, HALF_TURN_DEG) else Sweep(MINUS_HALF_TURN_DEG, MINUS_NINETY_DEG)
    else
      if top then Sweep(NINETY_DEG, ZERO_DEG) else Sweep(ZERO_DEG, MINUS_NINETY_DEG)
  }

  /** attractToClosestSide(px, py): sets the menu's angles for the release
      corner and puts the button where the snap animation ends. */
  function AttractToClosestSide(b: Button, px: int, py: int): (r: Button)
    ensures OnRightHalf(b, px) ==> r.x == RightDockX(b)
    ensures !OnRightHalf(b, px) ==> r.x == EDGEDIS
    ensures IsDocked(r) && r.y == b.y
    ensures OnRightHalf(b, px) && OnTopHalf(b, py) ==> r.menu.startAngle == 90 && r.menu.endAngle == 180
    ensures OnRightHalf(b, px) && !OnTopHalf(b, py) ==> r.menu.startAngle == -180 && r.menu.endAngle == -90
    ensures !OnRightHalf(b, px) && OnTopHalf(b, py) ==> r.menu.startAngle == 90 && r.menu.endAngle == 0
    ensures !OnRightHalf(b, px) && !OnTopHalf(b, py) ==> r.menu.startAngle == 0 && r.menu.endAngle == -90
    ensures r == b.(x := r.x, menu := r.menu) && r.menu.open == b.menu.open
  {
    var s := SweepAngles(OnRightHalf(b, px), OnTopHalf(b, py));
    var menu := b.menu.(startAngle := s.startAngle, endAngle := s.endAngle);
    if OnRightHalf(b, px) then b.(x := RightDockX(b), menu := menu)
    else b.(x := EDGEDIS, menu := menu)
  }

  // ---------------------------------------------------------------------
  // Touch handling

  /** updateRanges: the range follows the parent's size when there is a
      parent, and is left alone otherwise. */
  function UpdateRanges(b: Button, parent: Option<Size>): (r: Button)
    ensures parent.Some? ==> r.rangeWidth == parent.value.width && r.rangeHeight == parent.value.height
    ensures parent.None? ==> r == b
    ensures r == b.(rangeWidth := r.rangeWidth, rangeHeight := r.rangeHeight)
  {
    match parent
    case None => b
    case Some(p) => b.(rangeWidth := p.width, rangeHeight := p.height)
  }

  /** setDragLocation(px, py): the position moved into the allowed range;
      the raw touch point becomes the new drag anchor. */
  function SetDragLocation(b: Button, px: int, py: int): (r: Button)
    ensures 0 <= b.rangeWidth - b.width ==> 0 <= r.x <= b.rangeWidth - b.width
    ensures 0 <= b.rangeHeight - b.height - EDGEDIS ==> 0 <= r.y <= b.rangeHeight - b.height - EDGEDIS
    ensures 0 <= px <= b.rangeWidth - b.width ==> r.x == px
    ensures 0 <= py <= b.rangeHeight - b.height - EDGEDIS ==> r.y == py
    ensures px < 0 ==> r.x == 0
    ensures 0 <= px && b.rangeWidth - b.width < px ==> r.x == b.rangeWidth - b.width
    ensures py < 0 ==> r.y == 0
    ensures 0 <= py && b.rangeHeight - b.height - EDGEDIS < py ==> r.y == b.rangeHeight - b.height - EDGEDIS
    ensures r.startX == b.rawX && r.startY == b.rawY
    ensures r == b.(x := r.x, y := r.y, startX := r.startX, startY := r.startY)
  {
    b.(x := Clamp(px, b.rangeWidth - b.width),
       y := Clamp(py, b.rangeHeight - b.height - EDGEDIS),
       startX := b.rawX, startY := b.rawY)
  }

  /** The range is unknown or empty: no drag can happen. */
  predicate EmptyRange(b: Button)
  {
    b.rangeHeight <= 0 || b.rangeWidth == 0
  }

  /** A move with the menu closed is a real drag when the range is known and
      the truncated distance from the anchor exceeds EDGEDIS. */
  predicate DragAccepted(b: Button)
  {
    !EmptyRange(b) &&
    FloorSqrt(SquaredDistance(b.rawX - b.startX, b.rawY - b.startY)) > EDGEDIS
  }

  /** The ACTION_MOVE branch with the menu closed (b already holds the raw
      point of the event). A refused move changes only isDrag, to false; an
      accepted one sets isDrag and moves the button by the finger's offset
      from the anchor, clamped. */
  function Drag(b: Button): (r: Button)
    ensures EmptyRange(b) || SquaredDistance(b.rawX - b.startX, b.rawY - b.startY) < 51 * 51
            ==> r == b.(isDrag := false)
    ensures !EmptyRange(b) && SquaredDistance(b.rawX - b.startX, b.rawY - b.startY) >= 51 * 51
            ==> r.isDrag && r == SetDragLocation(b.(isDrag := true), b.x + (b.rawX - b.startX), b.y + (b.rawY - b.startY))
  {
    FloorSqrtAtMost(SquaredDistance(b.rawX - b.startX, b.rawY - b.startY), EDGEDIS);
    if !DragAccepted(b) then b.(isDrag := false)
    else SetDragLocation(b.(isDrag := true), b.x + (b.rawX - b.startX), b.y + (b.rawY - b.startY))
  }

  /** The ACTION_UP branch: a gesture that is not a tap on a docked button
      snaps to the nearer side. Either way the button ends docked. */
  function Release(b: Button): (r: Button)
    ensures IsDocked(r)
    ensures r.y == b.y && r.isDrag == b.isDrag
    ensures IsNotDrag(b) ==> r == b
    ensures !IsNotDrag(b) ==> r == AttractToClosestSide(b, b.rawX, b.rawY)
  {
    if !IsNotDrag(b) then AttractToClosestSide(b, b.rawX, b.rawY) else b
  }

  /** The ACTION_DOWN branch: not dragging, the anchor at the touch point,
      the range refreshed from the parent. */
  function Press(b: Button, parent: Size): (r: Button)
    ensures !r.isDrag && r.startX == b.rawX && r.startY == b.rawY
    ensures r.rangeWidth == parent.width && r.rangeHeight == parent.height
    ensures r == b.(isDrag := false, startX := b.rawX, startY := b.rawY,
                    rangeWidth := parent.width, rangeHeight := parent.height)
  {
    UpdateRanges(b.(isDrag := false, startX := b.rawX, startY := b.rawY), Some(parent))
  }

  /** A move with the menu open falls through into the release branch. */
  predicate Releases(b: Button, action: Action)
  {
    action == Up || (action == Move && b.menu.open)
  }

  /** Fields no touch event changes. */
  predicate TouchFrame(b: Button, r: Button)
  {
    r.width == b.width && r.height == b.height && r.keepHidden == b.keepHidden &&
    r.shown == b.shown && r.subButtons == b.subButtons && r.menu.open == b.menu.open
  }

  /** onTouchEvent. `superHandles` is what the default touch handling would
      report; it is asked only when isNotDrag holds. A move accepted as a
      drag returns false without asking it. */
  function OnTouchEvent(b: Button, e: Event, parent: Size, superHandles: bool): (h: Handled)
    ensures TouchFrame(b, h.next) && h.next.rawX == e.rawX && h.next.rawY == e.rawY
    ensures e.action == Down ==>
              h.next == Press(b.(rawX := e.rawX, rawY := e.rawY), parent) &&
              h.consumed == (!IsNotDrag(h.next) || superHandles)
    ensures e.action == Move && !b.menu.open ==>
              h.next == Drag(b.(rawX := e.rawX, rawY := e.rawY)) &&
              h.consumed == (if h.next.isDrag then false else !IsNotDrag(h.next) || superHandles)
    ensures Releases(b, e.action) ==>
              h.next == Release(b.(rawX := e.rawX, rawY := e.rawY)) &&
              IsDocked(h.next) && h.next.y == b.y && h.next.isDrag == b.isDrag &&
              (IsNotDrag(b) ==> h.next == b.(rawX := e.rawX, rawY := e.rawY)) &&
              h.consumed == (!IsNotDrag(b) || superHandles)
    ensures e.action == OtherAction ==>
              h.next == b.(rawX := e.rawX, rawY := e.rawY) && h.consumed == (!IsNotDrag(b) || superHandles)
  {
    var b1 := b.(rawX := e.rawX, rawY := e.rawY);
    match e.action
    case Down =>
      var b2 := Press(b1, parent);
      Handled(b2, !IsNotDrag(b2) || superHandles)
    case Move =>
      if !b1.menu.open then
        if DragAccepted(b1) then Handled(Drag(b1), false)
        else
          var b2 := Drag(b1);
          Handled(b2, !IsNotDrag(b2) || superHandles)
      else
        // the snap animation has not moved the button when the result is read
        Handled(Release(b1), !IsNotDrag(b1) || superHandles)
    case Up =>
      Handled(Release(b1), !IsNotDrag(b1) || superHandles)
    case OtherAction =>
      Handled(b1, !IsNotDrag(b1) || superHandles)
  }

  // ---------------------------------------------------------------------
  // Visibility

  /** setSubVisibility: every sub-button gets the same visibility. */
  function SetSubVisibility(subs: seq<Visibility>, v: Visibility): (r: seq<Visibility>)
    ensures |r| == |subs|
    ensures forall i :: 0 <= i < |r| ==> r[i] == v
  {
    seq(|subs|, _ => v)
  }

  /** setVisibility(v): ignored when asked to show a button that must stay
      hidden; showing shows every sub-button; hiding closes the menu and
      gives every sub-button the same visibility. */
  function SetVisibility(b: Button, v: Visibility): (r: Button)
    ensures b.keepHidden && v == Visible ==> r == b
    ensures !b.keepHidden && v == Visible ==>
              r.shown && r.menu == b.menu && |r.subButtons| == |b.subButtons| &&
              (forall i :: 0 <= i < |r.subButtons| ==> r.subButtons[i] == Visible)
    ensures v != Visible ==>
              !r.shown && !r.menu.open && |r.subButtons| == |b.subButtons| &&
              (forall i :: 0 <= i < |r.subButtons| ==> r.subButtons[i] == v)
    ensures r == b.(shown := r.shown, menu := r.menu, subButtons := r.subButtons)
    ensures r.menu.startAngle == b.menu.startAngle && r.menu.endAngle == b.menu.endAngle
  {
    if b.keepHidden && v == Visible then b
    else if v == Visible then
      var subs := if |b.subButtons| != 0 then SetSubVisibility(b.subButtons, v) else b.subButtons;
      b.(subButtons := subs, shown := true)
    else
      b.(menu := b.menu.(open := false), subButtons := SetSubVisibility(b.subButtons, v), shown := false)
  }

  /** updateSessionsCount(n): the button must stay hidden unless exactly one
      tab is open, and is hidden at once when it must. */
  function UpdateSessionsCount(b: Button, tabCount: int): (r: Button)
    ensures r.keepHidden == (tabCount != 1)
    ensures tabCount != 1 ==>
              !r.shown && !r.menu.open &&
              |r.subButtons| == |b.subButtons| &&
              (forall i :: 0 <= i < |r.subButtons| ==> r.subButtons[i] == Gone)
    ensures tabCount == 1 ==> r == b.(keepHidden := false)
    ensures r == b.(keepHidden := r.keepHidden, shown := r.shown, menu := r.menu, subButtons := r.subButtons)
    ensures r.menu.startAngle == b.menu.startAngle && r.menu.endAngle == b.menu.endAngle
  {
    var b1 := b.(keepHidden := tabCount != 1);
    if b1.keepHidden then SetVisibility(b1, Gone) else b1
  }

  /** onFinishInflate: a button that need not stay hidden is shown. */
  function FinishInflate(b: Button): (r: Button)
    ensures b.keepHidden ==> r == b
    ensures !b.keepHidden ==>
              r == b.(shown := true, subButtons := r.subButtons) &&
              |r.subButtons| == |b.subButtons| &&
              (forall i :: 0 <= i < |r.subButtons| ==> r.subButtons[i] == Visible)
  {
    if !b.keepHidden then SetVisibility(b, Visible) else b
  }

  /** addSubButton: the new sub-button goes to the end of the list. */
  function AddSubButton(b: Button, v: Visibility): (r: Button)
    ensures r.subButtons == b.subButtons + [v]
    ensures r == b.(subButtons := r.subButtons)
  {
    b.(subButtons := b.subButtons + [v])
  }

  // ---------------------------------------------------------------------
  // Sequences of calls

  /** The public methods a host can call, in any order, and the attached
      menu being opened or closed by its own click handling. `Location` is
      `setLocation`, which places the button wherever it is told, even
      outside the parent. */
  datatype Call =
    | Touch(event: Event, parent: Size, superHandles: bool)
    | RequestVisibility(visibility: Visibility)
    | SessionsCount(tabCount: int)
    | AddSub(subVisibility: Visibility)
    | AttachMenu(attached: Menu)
    | Inflate
    | Ranges(parentSize: Option<Size>)
    | Location(locationX: int, locationY: int)
    | DragLocation(dragX: int, dragY: int)
    | Attract(releaseX: int, releaseY: int)
    | MenuToggle(menuOpen: bool)

  function Apply(b: Button, c: Call): Button
  {
    match c
    case Touch(e, p, s) => OnTouchEvent(b, e, p, s).next
    case RequestVisibility(v) => SetVisibility(b, v)
    case SessionsCount(n) => UpdateSessionsCount(b, n)
    case AddSub(v) => AddSubButton(b, v)
    case Inflate => FinishInflate(b)
    case Ranges(p) => UpdateRanges(b, p)
    case Location(px, py) => b.(x := px, y := py)
    case DragLocation(px, py) => SetDragLocation(b, px, py)
    case Attract(px, py) => AttractToClosestSide(b, px, py)
    case AttachMenu(m) => b.(menu := m)
    case MenuToggle(o) => b.(menu := b.menu.(open := o))
  }

  function Run(b: Button, calls: seq<Call>): Button
    decreases |calls|
  {
    if calls == [] then b else Run(Apply(b, calls[0]), calls[1..])
  }
}
