/** What the drag handlers and the position restore guarantee. */
module DragProperties {
  import opened Outcomes
  import opened Geometry
  import opened ToolbarModel

  /** A press with any button other than the primary one changes nothing. */
  lemma NonPrimaryPressIgnored(s: State, button: int, clientX: int, clientY: int, rect: Rect)
    requires button != 0
    ensures DragStart(s, button, clientX, clientY, rect) == s
  {
  }

  /** A primary press starts a drag: the container is placed by left/top at the rectangle it
      occupied, and the press point is remembered relative to its corner. */
  lemma PrimaryPressStartsDrag(s: State, clientX: int, clientY: int, rect: Rect)
    ensures var t := DragStart(s, 0, clientX, clientY, rect);
      && t.hover.isDragging
      && t.place.left == Some(rect.left) && t.place.top == Some(rect.top)
      && t.place.grab == Some(Grab(clientX - rect.left, clientY - rect.top))
      && t.place.persisted == s.place.persisted
      && t.watch == s.watch && t.dialog == s.dialog && t.saves == s.saves && t.alerts == s.alerts
  {
  }

  /** The pointer positions of a sequence of mouse moves, as events. */
  function Moves(points: seq<Point>): (es: seq<Event>)
    ensures |es| == |points|
    ensures forall i :: 0 <= i < |points| ==> es[i] == Move(points[i].x, points[i].y)
  {
    if points == [] then [] else [Move(points[0].x, points[0].y)] + Moves(points[1..])
  }

  /** During a drag, after any non-empty sequence of moves the container's corner sits at the
      last pointer position minus the grab offset, and nothing else has changed. */
  lemma {:induction false} MovesFollowPointer(s: State, g: Grab, points: seq<Point>)
    requires s.hover.isDragging && s.place.grab == Some(g)
    requires points != []
    ensures var last := Follow(g, points[|points| - 1].x, points[|points| - 1].y);
      Run(s, Moves(points)) == s.(place := s.place.(left := Some(last.x), top := Some(last.y)))
    decreases |points|
  {
    var first := Follow(g, points[0].x, points[0].y);
    var s1 := s.(place := s.place.(left := Some(first.x), top := Some(first.y)));
    assert Step(s, Moves(points)[0]) == s1;
    assert Moves(points)[1..] == Moves(points[1..]);
    if |points| > 1 {
      MovesFollowPointer(s1, g, points[1..]);
    }
  }

  /** A drag moves the container one-to-one with the pointer: pressed at (clientX, clientY) on a
      container at `rect` and moved through `points`, the container ends displaced from `rect`
      by exactly the pointer's displacement from the press point. */
  lemma DragFollowsPointer(s: State, clientX: int, clientY: int, rect: Rect, points: seq<Point>)
    requires points != []
    ensures var t := Run(s, [Press(0, clientX, clientY, rect)] + Moves(points));
      var last := points[|points| - 1];
      && t.hover.isDragging
      && t.place.left == Some(rect.left + (last.x - clientX))
      && t.place.top == Some(rect.top + (last.y - clientY))
  {
    var s1 := DragStart(s, 0, clientX, clientY, rect);
    assert ([Press(0, clientX, clientY, rect)] + Moves(points))[1..] == Moves(points);
    MovesFollowPointer(s1, GrabAt(clientX, clientY, rect), points);
  }

  /** A release ends the drag, snaps the container to the right edge, and stores exactly the
      clamped top it applies; the hover timers are left alone. */
  lemma ReleaseSnapsAndPersists(s: State, rect: Rect, viewportHeight: int)
    requires s.place.grab.Some?
    ensures var t := MouseUp(s, rect, viewportHeight);
      var top := ClampTop(rect.top, viewportHeight, rect.height);
      && !t.hover.isDragging && t.place.grab.None?
      && t.place.left.None? && t.place.top == Some(top)
      && t.place.persisted == s.place.persisted + [top]
      && t.hover == s.hover.(isDragging := false)
  {
  }

  /** A mouse-up with no drag under way reaches no listener. */
  lemma ReleaseWithoutDragIgnored(s: State, rect: Rect, viewportHeight: int)
    requires s.place.grab.None?
    ensures MouseUp(s, rect, viewportHeight) == s
  {
  }

  /** A press, one move by (dx, dy) and a release at the place the style puts the container
      store and apply the clamped top `rect.top + dy`. */
  lemma DragAndReleasePersistsClamped(s: State, clientX: int, clientY: int, rect: Rect, dx: int, dy: int,
                                      height: int, viewportHeight: int)
    ensures var t := Run(s, [Press(0, clientX, clientY, rect), Move(clientX + dx, clientY + dy),
                             Release(Rect(rect.left + dx, rect.top + dy, height), viewportHeight)]);
      var top := ClampTop(rect.top + dy, viewportHeight, height);
      && !t.hover.isDragging && t.place.left.None? && t.place.top == Some(top)
      && t.place.persisted == s.place.persisted + [top]
  {
    var events := [Press(0, clientX, clientY, rect), Move(clientX + dx, clientY + dy),
                   Release(Rect(rect.left + dx, rect.top + dy, height), viewportHeight)];
    var s1 := DragStart(s, 0, clientX, clientY, rect);
    var s2 := MouseMove(s1, clientX + dx, clientY + dy);
    assert Run(s, events) == Run(s1, events[1..]);
    assert Run(s1, events[1..]) == Run(s2, events[2..]);
    FollowTranslates(rect, clientX, clientY, dx, dy);
  }

  /** Restoring applies a stored offset only when one exists, and then clamped into the viewport;
      an offset beyond the bottom restores to `viewportHeight - height`. */
  lemma RestoreClamps(p: Placement, saved: Option<int>, viewportHeight: int, height: int)
    ensures saved.None? ==> RestorePosition(p, saved, viewportHeight, height) == p
    ensures saved.Some? ==>
      var t := RestorePosition(p, saved, viewportHeight, height);
      && t.top.Some? && 0 <= t.top.value
      && (0 <= viewportHeight - height ==> t.top.value <= viewportHeight - height)
      && (0 <= viewportHeight - height < saved.value ==> t.top == Some(viewportHeight - height))
      && t == p.(top := t.top)
  {
  }

  /** The offset a release stores restores, in the same viewport, to the very top the release
      applied: the toolbar reappears where it was snapped. */
  lemma SnapRestoresSameTop(s: State, rect: Rect, viewportHeight: int, p: Placement)
    requires s.place.grab.Some?
    ensures var t := MouseUp(s, rect, viewportHeight);
      var stored := t.place.persisted[|t.place.persisted| - 1];
      RestorePosition(p, Some(stored), viewportHeight, rect.height).top == t.place.top
  {
    ClampTopIdempotent(rect.top, viewportHeight, rect.height);
  }
}
