/** The toolbar's event-driven state machine as values: one `State` holding the instance fields of
    the toolbar, grouped by the part of the toolbar that owns them, together with the timers the
    browser holds for it and what it has sent out; and one function per handler giving the state
    after that handler runs to completion. The class in `Toolbar` is proved to follow these
    functions; the property modules prove what they guarantee.

    A timer handle field is kept as whether it is non-null. Beside it, the number of timers of that
    kind the browser still holds (scheduled, neither fired nor cleared) is kept, so that a leaked or
    double-booked timer would show as a count above one. */
module ToolbarModel {
  import opened Outcomes
  import opened Geometry
  import opened Capture

  /** Hover expand/collapse. */
  datatype Hover = Hover(
    isExpanded: bool,
    hoverTimeoutSet: bool,       // hoverTimeout !== null
    collapseTimeoutSet: bool,    // collapseTimeout !== null
    isDragging: bool,
    hoverTimers: nat,            // live expand timers
    collapseTimers: nat)         // live collapse timers

  /** Where the container's style puts it, and the drag under way. */
  datatype Placement = Placement(
    left: Option<int>,           // None: left unset and right 0px, snapped to the right edge
    top: Option<int>,            // None: the initial bottom 100px anchoring
    grab: Option<Grab>,          // the drag whose mousemove/mouseup listeners are on the document
    persisted: seq<int>)         // values written to the stored clipboardToolbarTop, in order

  /** The clipboard watcher. */
  datatype Watch = Watch(
    autoWatchActive: bool,
    lastClipboardContent: string,
    intervalIdSet: bool,         // intervalId !== null
    intervals: nat)              // live polling intervals

  /** The confirmation dialog. */
  datatype Dialog = Dialog(
    confirmDialog: Option<string>, // the displayed dialog, by the content its Yes button saves
    confirmTimeoutSet: bool,     // confirmTimeout !== null (it is never reset to null)
    dismissTimers: nat,          // live auto-dismiss timers
    dialogsInDocument: nat)      // dialog elements attached to the document

  datatype State = State(
    hover: Hover,
    place: Placement,
    watch: Watch,
    dialog: Dialog,
    saves: seq<SaveRequest>,     // save requests sent, in order
    alerts: seq<string>)         // notices shown, in order

  /** One fewer of something live: a timer that `clearTimeout`/`clearInterval` cancels, or a
      dialog element that leaves the document. */
  function OneFewer(live: nat): nat
  {
    if live == 0 then 0 else live - 1
  }

  /** The state right after construction, before the stored position arrives. */
  function Initial(): State
  {
    State(Hover(false, false, false, false, 0, 0),
          Placement(None, None, None, []),
          Watch(false, "", false, 0),
          Dialog(None, false, 0, 0),
          [], [])
  }

  /** Each handle field names exactly the timers the browser holds of its kind; an expand timer is
      pending only while collapsed and a collapse timer only while expanded. */
  ghost predicate HoverInv(h: Hover)
  {
    && h.hoverTimers == (if h.hoverTimeoutSet then 1 else 0)
    && h.collapseTimers == (if h.collapseTimeoutSet then 1 else 0)
    && (h.hoverTimeoutSet ==> !h.isExpanded)
    && (h.collapseTimeoutSet ==> h.isExpanded)
  }

  /** The drag listeners are attached exactly while dragging, and the container is then placed by
      left/top. */
  ghost predicate DragInv(h: Hover, p: Placement)
  {
    && (p.grab.Some? <==> h.isDragging)
    && (h.isDragging ==> p.left.Some? && p.top.Some?)
  }

  /** The polling interval runs, once, exactly while watching. */
  ghost predicate WatchInv(w: Watch)
  {
    && w.intervalIdSet == w.autoWatchActive
    && w.intervals == (if w.intervalIdSet then 1 else 0)
  }

  /** One dialog with one dismiss timer, or neither. */
  ghost predicate DialogInv(d: Dialog)
  {
    && d.dialogsInDocument == (if d.confirmDialog.Some? then 1 else 0)
    && d.dismissTimers == d.dialogsInDocument
    && (d.confirmDialog.Some? ==> d.confirmTimeoutSet)
  }

  /** The object invariant of the toolbar. */
  ghost predicate Inv(s: State)
  {
    HoverInv(s.hover) && DragInv(s.hover, s.place) && WatchInv(s.watch) && DialogInv(s.dialog)
  }

  /** Adds the requests and notices of a capture to the logs. */
  function WithEffects(s: State, e: Effects): State
  {
    s.(saves := s.saves + e.saves, alerts := s.alerts + e.alerts)
  }

  // ---------------------------------------------------------------- hover

  /** `handleMouseEnter`: cancel a pending collapse, then schedule an expand unless expanded,
      already scheduled or dragging. */
  function MouseEnter(h: Hover): Hover
  {
    var h1 := if h.collapseTimeoutSet
              then h.(collapseTimeoutSet := false, collapseTimers := OneFewer(h.collapseTimers))
              else h;
    if !h1.isExpanded && !h1.hoverTimeoutSet && !h1.isDragging
    then h1.(hoverTimeoutSet := true, hoverTimers := h1.hoverTimers + 1)
    else h1
  }

  /** `handleMouseLeave`: cancel a pending expand, then schedule a collapse if expanded and
      neither already scheduled nor dragging. */
  function MouseLeave(h: Hover): Hover
  {
    var h1 := if h.hoverTimeoutSet
              then h.(hoverTimeoutSet := false, hoverTimers := OneFewer(h.hoverTimers))
              else h;
    if h1.isExpanded && !h1.collapseTimeoutSet && !h1.isDragging
    then h1.(collapseTimeoutSet := true, collapseTimers := h1.collapseTimers + 1)
    else h1
  }

  /** `expandToolbar` (its content container always exists, so it never returns early). */
  function Expand(h: Hover): Hover
  {
    h.(isExpanded := true, hoverTimeoutSet := false)
  }

  /** `collapseToolbar` (never returns early either). */
  function Collapse(h: Hover): Hover
  {
    h.(isExpanded := false, collapseTimeoutSet := false)
  }

  /** The one-second expand timer fires (only if one is live). */
  function HoverTimerFires(h: Hover): Hover
  {
    if h.hoverTimers == 0 then h else Expand(h.(hoverTimers := h.hoverTimers - 1))
  }

  /** The three-second collapse timer fires (only if one is live). */
  function CollapseTimerFires(h: Hover): Hover
  {
    if h.collapseTimers == 0 then h else Collapse(h.(collapseTimers := h.collapseTimers - 1))
  }

  // ---------------------------------------------------------------- placement

  /** `restorePosition`, once the stored offset has been read: `saved` is None when nothing is
      stored (or the read failed); otherwise the clamped offset becomes the top. */
  function RestorePosition(p: Placement, saved: Option<int>, viewportHeight: int, height: int): Placement
  {
    match saved
    case None => p
    case Some(t) => p.(top := Some(ClampTop(t, viewportHeight, height)))
  }

  /** `handleDragStart`: a press with the primary button (0) at (clientX, clientY) while the
      container occupies `rect`; any other button is ignored. */
  function DragStart(s: State, button: int, clientX: int, clientY: int, rect: Rect): State
  {
    if button != 0 then s
    else s.(hover := s.hover.(isDragging := true),
            place := s.place.(left := Some(rect.left), top := Some(rect.top),
                              grab := Some(GrabAt(clientX, clientY, rect))))
  }

  /** `onMouseMove` of the current drag: the container follows the pointer while dragging. */
  function MouseMove(s: State, clientX: int, clientY: int): State
  {
    match s.place.grab
    case None => s
    case Some(g) =>
      if !s.hover.isDragging then s
      else
        var p := Follow(g, clientX, clientY);
        s.(place := s.place.(left := Some(p.x), top := Some(p.y)))
  }

  /** `snapToRight`, with the container measured at `rect`: the clamped top is stored and applied,
      and the container goes back to the right edge. */
  function SnapToRight(p: Placement, rect: Rect, viewportHeight: int): Placement
  {
    var top := ClampTop(rect.top, viewportHeight, rect.height);
    p.(persisted := p.persisted + [top], left := None, top := Some(top))
  }

  /** `onMouseUp` of the current drag: dragging ends, the listeners go, and the toolbar snaps. */
  function MouseUp(s: State, rect: Rect, viewportHeight: int): State
  {
    match s.place.grab
    case None => s
    case Some(_) =>
      s.(hover := s.hover.(isDragging := false),
         place := SnapToRight(s.place.(grab := None), rect, viewportHeight))
  }

  // ---------------------------------------------------------------- clipboard watcher

  /** `toggleAutoWatch`, with `read` the seeding read made on activation. Activation keeps the old
      last-seen text when that read fails, and starts the interval; deactivation stops it. */
  function ToggleAutoWatch(w: Watch, read: ClipboardRead): Watch
  {
    if !w.autoWatchActive then
      var last := if read.Read? then read.text else w.lastClipboardContent;
      w.(autoWatchActive := true, lastClipboardContent := last,
         intervalIdSet := true, intervals := w.intervals + 1)
    else if w.intervalIdSet then
      w.(autoWatchActive := false, intervalIdSet := false, intervals := OneFewer(w.intervals))
    else
      w.(autoWatchActive := false)
  }

  /** `showConfirmDialog(content)`: remove the dialog on display and cancel its timer, then
      display a new one with its own five-second dismiss timer. */
  function ShowConfirmDialog(d: Dialog, content: string): Dialog
  {
    var d1 := if d.confirmDialog.None? then d
              else d.(dialogsInDocument := OneFewer(d.dialogsInDocument),
                      dismissTimers := if d.confirmTimeoutSet then OneFewer(d.dismissTimers) else d.dismissTimers);
    d1.(dialogsInDocument := d1.dialogsInDocument + 1, confirmDialog := Some(content),
        confirmTimeoutSet := true, dismissTimers := d1.dismissTimers + 1)
  }

  /** `checkClipboard`, once its read completes: new non-empty text becomes the last-seen text
      and is offered in a dialog; a failed read, empty text or the same text change nothing.
      Whether watching is still on is not looked at. */
  function CheckClipboard(s: State, read: ClipboardRead): State
  {
    match read
    case ReadFailed(_) => s
    case Read(text) =>
      if text != "" && text != s.watch.lastClipboardContent
      then s.(watch := s.watch.(lastClipboardContent := text),
              dialog := ShowConfirmDialog(s.dialog, text))
      else s
  }

  // ---------------------------------------------------------------- confirmation dialog

  /** The dialog's `remove` closure run from a button: the dialog leaves the document and the
      dismiss timer its handle field names is cleared. */
  function RemoveDialog(d: Dialog): Dialog
  {
    d.(dialogsInDocument := OneFewer(d.dialogsInDocument), confirmDialog := None,
       dismissTimers := if d.confirmTimeoutSet then OneFewer(d.dismissTimers) else d.dismissTimers)
  }

  /** Yes on the displayed dialog: save its content, then remove it. */
  function ConfirmYes(s: State, settings: Option<seq<string>>, timestamp: string, saved: bool): State
  {
    match s.dialog.confirmDialog
    case None => s
    case Some(content) =>
      WithEffects(s, PerformSave(content, settings, timestamp, saved)).(dialog := RemoveDialog(s.dialog))
  }

  /** No on the displayed dialog: remove it. */
  function ConfirmNo(d: Dialog): Dialog
  {
    if d.confirmDialog.None? then d else RemoveDialog(d)
  }

  /** The five-second dismiss timer fires: the dialog goes. The timer has already fired, so the
      `clearTimeout` in `remove` finds nothing to cancel. */
  function DismissTimerFires(d: Dialog): Dialog
  {
    if d.dismissTimers == 0 then d
    else d.(dismissTimers := d.dismissTimers - 1, dialogsInDocument := OneFewer(d.dialogsInDocument),
            confirmDialog := None)
  }

  // ---------------------------------------------------------------- event sequences

  /** Everything that can happen to a mounted toolbar, each with the outside results it needs. */
  datatype Event =
    | PositionRestored(stored: Option<int>, viewportHeight: int, height: int)
    | Enter
    | Leave
    | HoverFires
    | CollapseFires
    | Press(button: int, clientX: int, clientY: int, rect: Rect)
    | Move(clientX: int, clientY: int)
    | Release(rect: Rect, viewportHeight: int)
    | Toggle(seed: ClipboardRead)
    | Poll(read: ClipboardRead)
    | Yes(settings: Option<seq<string>>, timestamp: string, saved: bool)
    | No
    | DismissFires
    | CaptureClick(read: ClipboardRead, settings: Option<seq<string>>, timestamp: string, saved: bool)

  /** The state after one handler (or one timer) runs to completion. */
  function Step(s: State, e: Event): State
  {
    match e
    case PositionRestored(saved, vh, h) => s.(place := RestorePosition(s.place, saved, vh, h))
    case Enter => s.(hover := MouseEnter(s.hover))
    case Leave => s.(hover := MouseLeave(s.hover))
    case HoverFires => s.(hover := HoverTimerFires(s.hover))
    case CollapseFires => s.(hover := CollapseTimerFires(s.hover))
    case Press(b, x, y, rect) => DragStart(s, b, x, y, rect)
    case Move(x, y) => MouseMove(s, x, y)
    case Release(rect, vh) => MouseUp(s, rect, vh)
    case Toggle(seed) => s.(watch := ToggleAutoWatch(s.watch, seed))
    case Poll(read) => CheckClipboard(s, read)
    case Yes(settings, ts, saved) => ConfirmYes(s, settings, ts, saved)
    case No => s.(dialog := ConfirmNo(s.dialog))
    case DismissFires => s.(dialog := DismissTimerFires(s.dialog))
    case CaptureClick(read, settings, ts, saved) => WithEffects(s, ManualCapture(read, settings, ts, saved))
  }

  /** The state after the events happen in order. */
  function Run(s: State, events: seq<Event>): State
    decreases |events|
  {
    if events == [] then s else Run(Step(s, events[0]), events[1..])
  }

  /** Every handler keeps the object invariant. */
  lemma StepPreservesInv(s: State, e: Event)
    requires Inv(s)
    ensures Inv(Step(s, e))
  {
  }

  /** The invariant holds after any sequence of events. */
  lemma {:induction false} RunPreservesInv(s: State, events: seq<Event>)
    requires Inv(s)
    ensures Inv(Run(s, events))
    decreases |events|
  {
    if events != [] {
      StepPreservesInv(s, events[0]);
      RunPreservesInv(Step(s, events[0]), events[1..]);
    }
  }

  /** From construction on, whatever happens: at most one expand or collapse timer and never
      both, the polling interval runs exactly while watching, and at most one dialog is displayed,
      with exactly as many dismiss timers. */
  lemma NoTimerLeaks(events: seq<Event>)
    ensures var t := Run(Initial(), events);
      && t.hover.hoverTimers <= 1 && t.hover.collapseTimers <= 1
      && t.hover.hoverTimers + t.hover.collapseTimers <= 1
      && t.watch.intervals == (if t.watch.autoWatchActive then 1 else 0)
      && t.dialog.dialogsInDocument <= 1 && t.dialog.dismissTimers == t.dialog.dialogsInDocument
  {
    RunPreservesInv(Initial(), events);
  }

  /** Two events in a row. */
  lemma RunTwo(s: State, e1: Event, e2: Event)
    ensures Run(s, [e1, e2]) == Step(Step(s, e1), e2)
  {
    assert [e1, e2][1..] == [e2];
    assert [e2][1..] == [];
    assert Run(s, [e1, e2]) == Run(Step(s, e1), [e2]);
    assert Run(Step(s, e1), [e2]) == Run(Step(Step(s, e1), e2), []);
  }
}
