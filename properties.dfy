/** What the floating button's rules promise across calls: the visibility
    gate, the button never leaving its parent, drags ending docked, taps
    reaching the default handler, and the sweep table being the only one
    that opens away from the edges. */
module ButtonProperties {
  import opened DragMath
  import opened FloatingButton

  /** The contract of SweepAngles leaves no choice: any arc that opens away
      from the edges is the one in the table. */
  lemma SweepAnglesDetermined(right: bool, top: bool, s: Sweep)
    requires OpensAwayFromEdges(right, top, s)
    ensures s == SweepAngles(right, top)
  {
  }

  // ---------------------------------------------------------------------
  // The visibility gate

  /** Only an update of the tab count to exactly one can show the button. */
  predicate Reopens(c: Call)
  {
    c.SessionsCount? && c.tabCount == 1
  }

  lemma ApplyKeepsHidden(b: Button, c: Call)
    requires b.keepHidden && !b.shown && !Reopens(c)
    ensures Apply(b, c).keepHidden && !Apply(b, c).shown
  {
  }

  /** Once the button must stay hidden and is hidden, no sequence of calls
      shows it again until the tab count goes back to one. */
  lemma {:induction false} HiddenUntilOneTab(b: Button, calls: seq<Call>)
    requires b.keepHidden && !b.shown
    requires forall i :: 0 <= i < |calls| ==> !Reopens(calls[i])
    ensures Run(b, calls).keepHidden && !Run(b, calls).shown
    decreases |calls|
  {
    if calls != [] {
      ApplyKeepsHidden(b, calls[0]);
      HiddenUntilOneTab(Apply(b, calls[0]), calls[1..]);
    }
  }

  /** `isNotDrag` holds exactly when the gesture is no drag and a release
      would leave the button where it is. */
  lemma IsNotDragMeansAtRest(b: Button)
    ensures IsNotDrag(b) <==> !b.isDrag && Release(b) == b
  {
  }

  /** Touch events never change the button's own or its sub-buttons'
      visibility, nor open or close the menu. */
  lemma {:induction false} TouchesKeepVisibility(b: Button, calls: seq<Call>)
    requires forall i :: 0 <= i < |calls| ==> calls[i].Touch?
    ensures TouchFrame(b, Run(b, calls))
    decreases |calls|
  {
    if calls != [] {
      TouchesKeepVisibility(Apply(b, calls[0]), calls[1..]);
    }
  }

  // ---------------------------------------------------------------------
  // The button stays inside its parent

  /** The range is the parent's size and the button lies inside it, at
      least EDGEDIS above the bottom. */
  predicate InParent(b: Button, p: Size)
  {
    b.rangeWidth == p.width && b.rangeHeight == p.height &&
    0 <= b.x <= p.width - b.width && 0 <= b.y <= p.height - b.height - EDGEDIS
  }

  /** The parent leaves room for both docks and for the bottom margin. */
  predicate Roomy(b: Button, p: Size)
  {
    p.width - b.width >= EDGEDIS && p.height - b.height - EDGEDIS >= 0
  }

  /** The call reports the parent `p`, if it reports a parent at all, and
      a `setLocation` puts a button of size `s` inside `p`, at least
      EDGEDIS above the bottom. */
  predicate FromParent(c: Call, p: Size, s: Size)
  {
    match c
    case Touch(_, q, _) => q == p
    case Ranges(Some(q)) => q == p
    case Location(px, py) => 0 <= px <= p.width - s.width && 0 <= py <= p.height - s.height - EDGEDIS
    case _ => true
  }

  lemma ApplyKeepsInParent(b: Button, c: Call, p: Size)
    requires InParent(b, p) && Roomy(b, p) && FromParent(c, p, Size(b.width, b.height))
    ensures InParent(Apply(b, c), p) && Roomy(Apply(b, c), p)
    ensures Apply(b, c).width == b.width && Apply(b, c).height == b.height
  {
  }

  /** As long as the parent keeps its size and every `setLocation` stays
      inside it, no sequence of calls drags or snaps the button out. */
  lemma {:induction false} StaysInParent(b: Button, calls: seq<Call>, p: Size)
    requires InParent(b, p) && Roomy(b, p)
    requires forall i :: 0 <= i < |calls| ==> FromParent(calls[i], p, Size(b.width, b.height))
    ensures InParent(Run(b, calls), p)
    decreases |calls|
  {
    if calls != [] {
      ApplyKeepsInParent(b, calls[0], p);
      StaysInParent(Apply(b, calls[0]), calls[1..], p);
    }
  }

  // ---------------------------------------------------------------------
  // Gestures

  /** Press, a move further than the threshold with the menu closed, and
      release: the move is not reported consumed, the release is, and the
      button ends at the dock on the side of the release point. */
  lemma DragGestureDocks(b: Button, p: Size, dx: int, dy: int, mx: int, my: int,
                         ux: int, uy: int, s1: bool, s2: bool, s3: bool)
    requires !b.menu.open && p.height > 0 && p.width != 0
    requires SquaredDistance(mx - dx, my - dy) >= 51 * 51
    ensures var h1 := OnTouchEvent(b, Event(Down, dx, dy), p, s1);
            var h2 := OnTouchEvent(h1.next, Event(Move, mx, my), p, s2);
            var h3 := OnTouchEvent(h2.next, Event(Up, ux, uy), p, s3);
            !h2.consumed && h2.next.isDrag && h2.next.startX == mx && h2.next.startY == my &&
            h3.consumed && IsDocked(h3.next) && h3.next.y == h2.next.y &&
            h3.next.x == (if ux >= HalfTowardZero(p.width) then p.width - b.width - EDGEDIS else EDGEDIS)
  {
    var h1 := OnTouchEvent(b, Event(Down, dx, dy), p, s1);
    assert h1.next.startX == dx && h1.next.startY == dy;
    var h2 := OnTouchEvent(h1.next, Event(Move, mx, my), p, s2);
    FloorSqrtAtMost(SquaredDistance(mx - dx, my - dy), EDGEDIS);
    assert h2.next.isDrag;
  }

  /** Press and release on a docked button, with a refused move between
      them (an empty parent, or an offset `ox`, `oy` from the press within
      the threshold): the button does not move, no drag is seen, and
      whether each event is consumed is left to the default handling. */
  lemma TapOnDockedButton(b: Button, p: Size, dx: int, dy: int, ox: int, oy: int,
                          ux: int, uy: int, s1: bool, s2: bool, s3: bool)
    requires !b.menu.open
    requires b.x == EDGEDIS || b.x == p.width - b.width - EDGEDIS
    requires p.height <= 0 || p.width == 0 || SquaredDistance(ox, oy) < 51 * 51
    ensures var h1 := OnTouchEvent(b, Event(Down, dx, dy), p, s1);
            var h2 := OnTouchEvent(h1.next, Event(Move, dx + ox, dy + oy), p, s2);
            var h3 := OnTouchEvent(h2.next, Event(Up, ux, uy), p, s3);
            h1.consumed == s1 && h2.consumed == s2 && h3.consumed == s3 &&
            !h3.next.isDrag && h3.next.x == b.x && h3.next.y == b.y &&
            h3.next.menu == b.menu
  {
    var h1 := OnTouchEvent(b, Event(Down, dx, dy), p, s1);
    assert h1.next.startX == dx && h1.next.startY == dy;
    assert (dx + ox) - dx == ox && (dy + oy) - dy == oy;
  }

  /** A refused move leaves the anchor where it was, so the next move is
      measured from the last accepted point, not from the refused one. */
  lemma RefusedMoveKeepsAnchor(b: Button, e: Event, p: Size, s: bool)
    requires e.action == Move && !b.menu.open
    requires EmptyRange(b) || SquaredDistance(e.rawX - b.startX, e.rawY - b.startY) < 51 * 51
    ensures var h := OnTouchEvent(b, e, p, s);
            h.next.startX == b.startX && h.next.startY == b.startY &&
            h.next.x == b.x && h.next.y == b.y && !h.next.isDrag
  {
  }
}
