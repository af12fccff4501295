/** The floating expand button as a mutable object, statement by statement
    as the view class does it. Each method is proved to leave the object in
    the state the matching function of module FloatingButton describes. */
module Widget {
  import opened DragMath
  import opened FloatingButton

  class FloatingExpandButton {
    // position of the button in its parent and its own size
    var x: int
    var y: int
    const width: int
    const height: int
    // range of movement: the parent's size when last asked
    var rangeWidth: int
    var rangeHeight: int
    // the drag anchor
    var startX: int
    var startY: int
    // the raw point of the last touch event
    var rawX: int
    var rawY: int
    var isDrag: bool
    var keepHidden: bool
    // whether show() or hide() was called last
    var shown: bool
    // the attached action menu and the sub-buttons' visibilities
    var menu: Menu
    var subButtons: seq<Visibility>

    /** The object's state as a value of the model. */
    function State(): Button
      reads this
    {
      Button(x, y, width, height, rangeWidth, rangeHeight, startX, startY,
             rawX, rawY, isDrag, keepHidden, shown, menu, subButtons)
    }

    /** A new button at its laid-out position and size, with its menu
        attached and no sub-buttons; every other field starts at zero. */
    constructor (x: int, y: int, width: int, height: int, shown: bool, menu: Menu)
      ensures State() == Button(x, y, width, height, 0, 0, 0, 0, 0, 0,
                                false, false, shown, menu, [])
    {
      this.x, this.y := x, y;
      this.width, this.height := width, height;
      rangeWidth, rangeHeight := 0, 0;
      startX, startY := 0, 0;
      rawX, rawY := 0, 0;
      isDrag, keepHidden := false, false;
      this.shown := shown;
      this.menu := menu;
      subButtons := [];
    }

    method AddSubButton(v: Visibility)
      modifies this
      ensures State() == FloatingButton.AddSubButton(old(State()), v)
      ensures subButtons == old(subButtons) + [v]
    {
      subButtons := subButtons + [v];
    }

    method AddActionMenu(m: Menu)
      modifies this
      ensures State() == old(State()).(menu := m)
    {
      menu := m;
    }

    method UpdateSessionsCount(tabCount: int)
      modifies this
      ensures State() == FloatingButton.UpdateSessionsCount(old(State()), tabCount)
      ensures keepHidden == (tabCount != 1)
      ensures tabCount != 1 ==> !shown && !menu.open
    {
      keepHidden := tabCount != 1;
      if keepHidden {
        SetVisibility(Gone);
      }
    }

    method FinishInflate()
      modifies this
      ensures State() == FloatingButton.FinishInflate(old(State()))
    {
      if !keepHidden {
        SetVisibility(Visible);
      }
    }

    method SetVisibility(visibility: Visibility)
      modifies this
      ensures State() == FloatingButton.SetVisibility(old(State()), visibility)
      ensures old(keepHidden) && visibility == Visible ==> State() == old(State())
    {
      if keepHidden && visibility == Visible {
        // the button must stay hidden: the request is dropped
        return;
      }
      if visibility == Visible {
        if |subButtons| != 0 {
          SetSubVisibility(visibility);
        }
        shown := true;
      } else {
        menu := menu.(open := false);
        SetSubVisibility(visibility);
        shown := false;
      }
    }

    /** Gives every sub-button the same visibility, one after the other. */
    method SetSubVisibility(visibility: Visibility)
      modifies this
      ensures subButtons == FloatingButton.SetSubVisibility(old(subButtons), visibility)
      ensures State() == old(State()).(subButtons := subButtons)
    {
      var i := 0;
      while i < |subButtons|
        invariant 0 <= i <= |subButtons| == |old(subButtons)|
        invariant forall k :: 0 <= k < i ==> subButtons[k] == visibility
        invariant State() == old(State()).(subButtons := subButtons)
      {
        subButtons := subButtons[i := visibility];
        i := i + 1;
      }
    }

    method UpdateRanges(parent: Option<Size>)
      modifies this
      ensures State() == FloatingButton.UpdateRanges(old(State()), parent)
    {
      if parent.Some? {
        rangeHeight := parent.value.height;
        rangeWidth := parent.value.width;
      }
    }

    /** onTouchEvent: `superHandles` is what the default handling would
        report. A move with the menu open falls through into the release
        branch. */
    method OnTouchEvent(action: Action, eventRawX: int, eventRawY: int, parent: Size, superHandles: bool)
      returns (consumed: bool)
      modifies this
      ensures Handled(State(), consumed) ==
              FloatingButton.OnTouchEvent(old(State()), Event(action, eventRawX, eventRawY), parent, superHandles)
    {
      rawX := eventRawX;
      rawY := eventRawY;
      var release := action == Up;
      if action == Down {
        PressDown(parent);
      } else if action == Move {
        if !menu.open {
          var dragged := DragMove();
          if dragged {
            return false;
          }
        } else {
          release := true;
        }
      }
      var notDrag := IsNotDrag();
      if release && !notDrag {
        // the snap animation starts here; the result below is read before
        // it has moved the button
        AttractToClosestSide(rawX, rawY);
      }
      consumed := !notDrag || superHandles;
    }

    /** The ACTION_DOWN case. */
    method PressDown(parent: Size)
      modifies this
      ensures State() == Press(old(State()), parent)
    {
      isDrag := false;
      startX := rawX;
      startY := rawY;
      UpdateRanges(Some(parent));
    }

    /** The ACTION_MOVE case with the menu closed; `dragged` is whether it
        reached the early `return false`. */
    method DragMove() returns (dragged: bool)
      modifies this
      ensures State() == Drag(old(State()))
      ensures dragged == DragAccepted(old(State()))
    {
      if rangeHeight <= 0 || rangeWidth == 0 {
        isDrag := false;
        return false;
      }
      isDrag := true;
      var disX := rawX - startX;
      var disY := rawY - startY;
      var distance := FloorSqrt(SquaredDistance(disX, disY));
      if distance <= EDGEDIS {
        isDrag := false;
        return false;
      }
      SetDragLocation(x + disX, y + disY);
      return true;
    }

    method SetLocation(x: int, y: int)
      modifies this
      ensures State() == old(State()).(x := x, y := y)
    {
      this.x := x;
      this.y := y;
    }

    method SetDragLocation(px: int, py: int)
      modifies this
      ensures State() == FloatingButton.SetDragLocation(old(State()), px, py)
    {
      var nx, ny := px, py;
      if nx < 0 {
        nx := 0;
      } else if nx > rangeWidth - width {
        nx := rangeWidth - width;
      }
      if ny < 0 {
        ny := 0;
      } else if ny > rangeHeight - EDGEDIS - height {
        ny := rangeHeight - height - EDGEDIS;
      }
      SetLocation(nx, ny);
      startX := rawX;
      startY := rawY;
    }

    /** Sets the menu's angles for the release corner; x becomes the value
        the snap animation ends at. */
    method AttractToClosestSide(px: int, py: int)
      modifies this
      ensures State() == FloatingButton.AttractToClosestSide(old(State()), px, py)
    {
      if px >= HalfTowardZero(rangeWidth) {
        if py <= HalfTowardZero(rangeHeight) {
          menu := menu.(startAngle := NINETY_DEG, endAngle := HALF_TURN_DEG);
        } else {
          menu := menu.(startAngle := MINUS_HALF_TURN_DEG, endAngle := MINUS_NINETY_DEG);
        }
        // attract right, EDGEDIS away from the side
        x := x + (rangeWidth - width - x - EDGEDIS);
      } else {
        if py <= HalfTowardZero(rangeHeight) {
          menu := menu.(startAngle := NINETY_DEG, endAngle := ZERO_DEG);
        } else {
          menu := menu.(startAngle := ZERO_DEG, endAngle := MINUS_NINETY_DEG);
        }
        // attract left
        x := EDGEDIS;
      }
    }

    method IsNotDrag() returns (r: bool)
      ensures r == FloatingButton.IsNotDrag(State())
      ensures r ==> x == EDGEDIS || x == rangeWidth - width - EDGEDIS
    {
      r := !isDrag && (x == EDGEDIS || x == rangeWidth - width - EDGEDIS);
    }
  }
}
