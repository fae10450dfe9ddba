/** What the hover expand/collapse handlers guarantee, alone and over sequences of events. */
module HoverProperties {
  import opened Geometry
  import opened ToolbarModel

  /** `n` copies of one event. */
  function Repeat(e: Event, n: nat): (es: seq<Event>)
    ensures |es| == n && forall i :: 0 <= i < n ==> es[i] == e
  {
    if n == 0 then [] else [e] + Repeat(e, n - 1)
  }

  /** Mouse-enter cancels a pending collapse and schedules an expand exactly when the toolbar is
      collapsed, no expand is pending and no drag is under way. */
  lemma EnterSchedulesOnlyFromIdle(h: Hover)
    requires HoverInv(h)
    ensures var t := MouseEnter(h);
      && !t.collapseTimeoutSet && t.collapseTimers == 0
      && t.hoverTimers == h.hoverTimers + (if !h.isExpanded && !h.hoverTimeoutSet && !h.isDragging then 1 else 0)
      && t.isExpanded == h.isExpanded && t.isDragging == h.isDragging
  {
  }

  /** Mouse-leave cancels a pending expand and schedules a collapse exactly when the toolbar is
      expanded, no collapse is pending and no drag is under way. */
  lemma LeaveSchedulesOnlyWhenExpanded(h: Hover)
    requires HoverInv(h)
    ensures var t := MouseLeave(h);
      && !t.hoverTimeoutSet && t.hoverTimers == 0
      && t.collapseTimers == h.collapseTimers + (if h.isExpanded && !h.collapseTimeoutSet && !h.isDragging then 1 else 0)
      && t.isExpanded == h.isExpanded && t.isDragging == h.isDragging
  {
  }

  lemma EnterIdempotent(h: Hover)
    ensures MouseEnter(MouseEnter(h)) == MouseEnter(h)
  {
  }

  lemma LeaveIdempotent(h: Hover)
    ensures MouseLeave(MouseLeave(h)) == MouseLeave(h)
  {
  }

  /** Any number of enters in a row act as one: a second expand timer is never booked, and
      nothing outside the hover state changes. */
  lemma {:induction false} RepeatedEnters(s: State, n: nat)
    requires n >= 1
    ensures Run(s, Repeat(Enter, n)) == s.(hover := MouseEnter(s.hover))
    decreases n
  {
    assert Repeat(Enter, n)[1..] == Repeat(Enter, n - 1);
    if n > 1 {
      RepeatedEnters(s.(hover := MouseEnter(s.hover)), n - 1);
      EnterIdempotent(s.hover);
    }
  }

  /** Any number of leaves in a row act as one: a second collapse timer is never booked. */
  lemma {:induction false} RepeatedLeaves(s: State, n: nat)
    requires n >= 1
    ensures Run(s, Repeat(Leave, n)) == s.(hover := MouseLeave(s.hover))
    decreases n
  {
    assert Repeat(Leave, n)[1..] == Repeat(Leave, n - 1);
    if n > 1 {
      RepeatedLeaves(s.(hover := MouseLeave(s.hover)), n - 1);
      LeaveIdempotent(s.hover);
    }
  }

  /** The expand timer firing expands the toolbar and leaves no hover or collapse timer. */
  lemma HoverFiringExpands(h: Hover)
    requires HoverInv(h) && h.hoverTimeoutSet
    ensures var t := HoverTimerFires(h);
      t.isExpanded && !t.hoverTimeoutSet && t.hoverTimers == 0 && !t.collapseTimeoutSet && t.collapseTimers == 0
  {
  }

  /** The collapse timer firing collapses the toolbar and leaves no hover or collapse timer. */
  lemma CollapseFiringCollapses(h: Hover)
    requires HoverInv(h) && h.collapseTimeoutSet
    ensures var t := CollapseTimerFires(h);
      !t.isExpanded && !t.collapseTimeoutSet && t.collapseTimers == 0 && !t.hoverTimeoutSet && t.hoverTimers == 0
  {
  }

  /** Starting a drag leaves the hover state as it was, but for `isDragging`: a timer pending at
      the press stays pending. */
  lemma DragStartKeepsTimers(s: State, clientX: int, clientY: int, rect: Rect)
    ensures DragStart(s, 0, clientX, clientY, rect).hover == s.hover.(isDragging := true)
  {
  }

  /** So an expand timer pending at the press still fires, and expands the toolbar mid-drag. */
  lemma PendingExpandFiresDuringDrag(s: State, clientX: int, clientY: int, rect: Rect)
    requires HoverInv(s.hover) && s.hover.hoverTimeoutSet
    ensures var t := Step(DragStart(s, 0, clientX, clientY, rect), HoverFires);
      t.hover.isDragging && t.hover.isExpanded && t.hover.hoverTimers == 0
  {
  }

  /** A leave during a drag still cancels a pending expand, and books no collapse. */
  lemma LeaveDuringDragCancelsExpand(h: Hover)
    requires HoverInv(h) && h.isDragging
    ensures var t := MouseLeave(h);
      !t.hoverTimeoutSet && t.hoverTimers == 0 && t.collapseTimers == h.collapseTimers
  {
  }

  /** What a drag must not do to the hover state: end the drag, or book a timer. */
  ghost predicate BooksNoTimer(h: Hover, t: Hover)
  {
    && t.isDragging == h.isDragging
    && (t.hoverTimeoutSet ==> h.hoverTimeoutSet) && t.hoverTimers <= h.hoverTimers
    && (t.collapseTimeoutSet ==> h.collapseTimeoutSet) && t.collapseTimers <= h.collapseTimers
  }

  /** One event other than a release, during a drag, books no timer. */
  lemma DragStepBooksNoTimer(s: State, e: Event)
    requires s.hover.isDragging && !e.Release?
    ensures BooksNoTimer(s.hover, Step(s, e).hover)
  {
  }

  /** While a drag lasts (no release among the events), no hover or collapse timer is booked:
      a timer set at the end was already set at the start, and none is added. */
  lemma {:induction false} DraggingBooksNoTimer(s: State, events: seq<Event>)
    requires s.hover.isDragging
    requires forall i :: 0 <= i < |events| ==> !events[i].Release?
    ensures BooksNoTimer(s.hover, Run(s, events).hover)
    decreases |events|
  {
    if events != [] {
      DragStepBooksNoTimer(s, events[0]);
      DraggingBooksNoTimer(Step(s, events[0]), events[1..]);
    }
  }
}
