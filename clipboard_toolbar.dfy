/** The `ClipboardToolbar` object: its instance fields, updated in place by its event handlers.
    Each handler is proved to leave the object in the state the matching function of
    `ToolbarModel` gives, and to keep the object invariant. Results from the outside (clipboard
    reads, the stored offset, measured rectangles, settings, save outcomes, timestamps) arrive as
    parameters; the timers the browser holds, the stored offsets written, the save requests and
    the notices shown are kept in ghost fields. */
module Toolbar {
  import opened Outcomes
  import opened Geometry
  import opened Capture
  import M = ToolbarModel

  class ClipboardToolbar {
    // hover expand/collapse
    var isExpanded: bool
    var hoverTimeoutSet: bool
    var collapseTimeoutSet: bool
    var isDragging: bool
    ghost var hoverTimers: nat
    ghost var collapseTimers: nat
    // placement of the container
    var left: Option<int>
    var top: Option<int>
    var grab: Option<Grab>
    ghost var persisted: seq<int>
    // clipboard watcher
    var autoWatchActive: bool
    var lastClipboardContent: string
    var intervalIdSet: bool
    ghost var intervals: nat
    // confirmation dialog
    var confirmDialog: Option<string>
    var confirmTimeoutSet: bool
    ghost var dismissTimers: nat
    ghost var dialogsInDocument: nat
    // requests sent out
    ghost var saves: seq<SaveRequest>
    ghost var alerts: seq<string>

    ghost function HoverModel(): M.Hover
      reads this`isExpanded, this`hoverTimeoutSet, this`collapseTimeoutSet, this`isDragging,
            this`hoverTimers, this`collapseTimers
    {
      M.Hover(isExpanded, hoverTimeoutSet, collapseTimeoutSet, isDragging, hoverTimers, collapseTimers)
    }

    ghost function PlacementModel(): M.Placement
      reads this`left, this`top, this`grab, this`persisted
    {
      M.Placement(left, top, grab, persisted)
    }

    ghost function WatchModel(): M.Watch
      reads this`autoWatchActive, this`lastClipboardContent, this`intervalIdSet, this`intervals
    {
      M.Watch(autoWatchActive, lastClipboardContent, intervalIdSet, intervals)
    }

    ghost function DialogModel(): M.Dialog
      reads this`confirmDialog, this`confirmTimeoutSet, this`dismissTimers, this`dialogsInDocument
    {
      M.Dialog(confirmDialog, confirmTimeoutSet, dismissTimers, dialogsInDocument)
    }

    /** The abstract state of the toolbar. */
    ghost function Model(): M.State
      reads this
    {
      M.State(HoverModel(), PlacementModel(), WatchModel(), DialogModel(), saves, alerts)
    }

    ghost predicate Valid()
      reads this
    {
      && M.HoverInv(HoverModel())
      && M.DragInv(HoverModel(), PlacementModel())
      && M.WatchInv(WatchModel())
      && M.DialogInv(DialogModel())
    }

    constructor ()
      ensures Valid() && Model() == M.Initial()
    {
      isExpanded, hoverTimeoutSet, collapseTimeoutSet, isDragging := false, false, false, false;
      hoverTimers, collapseTimers := 0, 0;
      left, top, grab, persisted := None, None, None, [];
      autoWatchActive, lastClipboardContent, intervalIdSet, intervals := false, "", false, 0;
      confirmDialog, confirmTimeoutSet, dismissTimers, dialogsInDocument := None, false, 0, 0;
      saves, alerts := [], [];
    }

    /** The stored offset has been read (`saved` is None when nothing is stored or the read
        failed); the container's height is `height`. */
    method RestorePosition(saved: Option<int>, viewportHeight: int, height: int)
      requires Valid()
      modifies this
      ensures Valid() && Model() == old(Model()).(place := M.RestorePosition(old(Model()).place, saved, viewportHeight, height))
      ensures saved.Some? ==> top.Some? && 0 <= top.value
    {
      if saved.Some? {
        top := Some(ClampTop(saved.value, viewportHeight, height));
      }
    }

    method HandleMouseEnter()
      requires Valid()
      modifies this
      ensures Valid() && Model() == old(Model()).(hover := M.MouseEnter(old(Model()).hover))
      ensures !collapseTimeoutSet && collapseTimers == 0 && hoverTimers <= 1
    {
      if collapseTimeoutSet {
        collapseTimers := collapseTimers - 1;
        collapseTimeoutSet := false;
      }
      if !isExpanded && !hoverTimeoutSet && !isDragging {
        hoverTimers := hoverTimers + 1;
        hoverTimeoutSet := true;
      }
    }

    method HandleMouseLeave()
      requires Valid()
      modifies this
      ensures Valid() && Model() == old(Model()).(hover := M.MouseLeave(old(Model()).hover))
      ensures !hoverTimeoutSet && hoverTimers == 0 && collapseTimers <= 1
    {
      if hoverTimeoutSet {
        hoverTimers := hoverTimers - 1;
        hoverTimeoutSet := false;
      }
      if isExpanded && !collapseTimeoutSet && !isDragging {
        collapseTimers := collapseTimers + 1;
        collapseTimeoutSet := true;
      }
    }

    method ExpandToolbar()
      modifies this
      ensures Model() == old(Model()).(hover := M.Expand(old(Model()).hover))
    {
      isExpanded := true;
      hoverTimeoutSet := false;
    }

    method CollapseToolbar()
      modifies this
      ensures Model() == old(Model()).(hover := M.Collapse(old(Model()).hover))
    {
      isExpanded := false;
      collapseTimeoutSet := false;
    }

    /** The expand timer scheduled by `HandleMouseEnter` fires. */
    method HoverTimerFires()
      requires Valid() && hoverTimeoutSet
      modifies this
      ensures Valid() && Model() == old(Model()).(hover := M.HoverTimerFires(old(Model()).hover))
      ensures isExpanded && !hoverTimeoutSet && hoverTimers == 0
    {
      hoverTimers := hoverTimers - 1;
      ExpandToolbar();
    }

    /** The collapse timer scheduled by `HandleMouseLeave` fires. */
    method CollapseTimerFires()
      requires Valid() && collapseTimeoutSet
      modifies this
      ensures Valid() && Model() == old(Model()).(hover := M.CollapseTimerFires(old(Model()).hover))
      ensures !isExpanded && !collapseTimeoutSet && collapseTimers == 0
    {
      collapseTimers := collapseTimers - 1;
      CollapseToolbar();
    }

    /** A press on the drag handle with `button` at (clientX, clientY), the container at `rect`. */
    method HandleDragStart(button: int, clientX: int, clientY: int, rect: Rect)
      requires Valid()
      modifies this
      ensures Valid() && Model() == M.DragStart(old(Model()), button, clientX, clientY, rect)
    {
      if button != 0 {
        return;
      }
      isDragging := true;
      var offsetX := clientX - rect.left;
      var offsetY := clientY - rect.top;
      left := Some(rect.left);
      top := Some(rect.top);
      grab := Some(Grab(offsetX, offsetY));
    }

    /** A `mousemove` on the document; it reaches the drag's listener only while one is attached. */
    method OnMouseMove(clientX: int, clientY: int)
      requires Valid()
      modifies this
      ensures Valid() && Model() == M.MouseMove(old(Model()), clientX, clientY)
    {
      if grab.None? {
        return;
      }
      if !isDragging {
        return;
      }
      var newLeft := clientX - grab.value.offsetX;
      var newTop := clientY - grab.value.offsetY;
      left := Some(newLeft);
      top := Some(newTop);
    }

    /** A `mouseup` on the document, with the container measured at `rect`. */
    method OnMouseUp(rect: Rect, viewportHeight: int)
      requires Valid()
      modifies this
      ensures Valid() && Model() == M.MouseUp(old(Model()), rect, viewportHeight)
      ensures old(grab).Some? ==> !isDragging && left.None? && top.Some? && persisted == old(persisted) + [top.value]
    {
      if grab.None? {
        return;
      }
      isDragging := false;
      grab := None;
      SnapToRight(rect, viewportHeight);
    }

    method SnapToRight(rect: Rect, viewportHeight: int)
      modifies this
      ensures Model() == old(Model()).(place := M.SnapToRight(old(Model()).place, rect, viewportHeight))
    {
      var constrainedTop := ClampTop(rect.top, viewportHeight, rect.height);
      persisted := persisted + [constrainedTop];
      left := None;
      top := Some(constrainedTop);
    }

    /** A click on the watch button; `read` is the seeding read made when watching starts. */
    method ToggleAutoWatch(read: ClipboardRead)
      requires Valid()
      modifies this
      ensures Valid() && Model() == old(Model()).(watch := M.ToggleAutoWatch(old(Model()).watch, read))
      ensures autoWatchActive == !old(autoWatchActive) && intervalIdSet == autoWatchActive
    {
      autoWatchActive := !autoWatchActive;
      if autoWatchActive {
        if read.Read? {
          lastClipboardContent := read.text;
        }
        intervals := intervals + 1;
        intervalIdSet := true;
      } else {
        if intervalIdSet {
          intervals := intervals - 1;
          intervalIdSet := false;
        }
      }
    }

    /** A poll's clipboard read has completed with `read`. */
    method CheckClipboard(read: ClipboardRead)
      requires Valid()
      modifies this
      ensures Valid() && Model() == M.CheckClipboard(old(Model()), read)
    {
      if read.ReadFailed? {
        return;
      }
      var text := read.text;
      if text != "" && text != lastClipboardContent {
        lastClipboardContent := text;
        ShowConfirmDialog(text);
      }
    }

    method ShowConfirmDialog(content: string)
      requires Valid()
      modifies this
      ensures Valid() && Model() == old(Model()).(dialog := M.ShowConfirmDialog(old(Model()).dialog, content))
      ensures confirmDialog == Some(content) && dialogsInDocument == 1 && dismissTimers == 1
    {
      if confirmDialog.Some? {
        dialogsInDocument := dialogsInDocument - 1;
        if confirmTimeoutSet {
          dismissTimers := dismissTimers - 1;
        }
      }
      dialogsInDocument := dialogsInDocument + 1;
      confirmDialog := Some(content);
      dismissTimers := dismissTimers + 1;
      confirmTimeoutSet := true;
    }

    /** The `remove` closure of the displayed dialog, run from one of its buttons. */
    method RemoveDialog()
      requires Valid() && confirmDialog.Some?
      modifies this
      ensures Valid() && Model() == old(Model()).(dialog := M.RemoveDialog(old(Model()).dialog))
      ensures confirmDialog.None? && dialogsInDocument == 0 && dismissTimers == 0
    {
      dialogsInDocument := dialogsInDocument - 1;
      confirmDialog := None;
      if confirmTimeoutSet {
        dismissTimers := dismissTimers - 1;
      }
    }

    /** Yes on the displayed dialog. */
    method ConfirmYes(settings: Option<seq<string>>, timestamp: string, saved: bool)
      requires Valid() && confirmDialog.Some?
      modifies this
      ensures Valid() && Model() == M.ConfirmYes(old(Model()), settings, timestamp, saved)
    {
      PerformSave(confirmDialog.value, settings, timestamp, saved);
      RemoveDialog();
    }

    /** No on the displayed dialog. */
    method ConfirmNo()
      requires Valid() && confirmDialog.Some?
      modifies this
      ensures Valid() && Model() == old(Model()).(dialog := M.ConfirmNo(old(Model()).dialog))
    {
      RemoveDialog();
    }

    /** The displayed dialog's five-second timer fires. */
    method DismissTimerFires()
      requires Valid() && confirmDialog.Some?
      modifies this
      ensures Valid() && Model() == old(Model()).(dialog := M.DismissTimerFires(old(Model()).dialog))
      ensures confirmDialog.None? && dialogsInDocument == 0 && dismissTimers == 0
    {
      dismissTimers := dismissTimers - 1;
      dialogsInDocument := dialogsInDocument - 1;
      confirmDialog := None;
    }

    /** A click on the capture button. */
    method ManualCapture(read: ClipboardRead, settings: Option<seq<string>>, timestamp: string, saved: bool)
      requires Valid()
      modifies this
      ensures Valid() && Model() == M.WithEffects(old(Model()), Capture.ManualCapture(read, settings, timestamp, saved))
    {
      match read {
        case ReadFailed(error) =>
          alerts := alerts + [ReadFailedPrefix + error];
        case Read(text) =>
          if text != "" {
            PerformSave(text, settings, timestamp, saved);
          } else {
            alerts := alerts + [EmptyNotice];
          }
      }
    }

    method PerformSave(content: string, settings: Option<seq<string>>, timestamp: string, saved: bool)
      requires Valid()
      modifies this
      ensures Valid() && Model() == M.WithEffects(old(Model()), Capture.PerformSave(content, settings, timestamp, saved))
    {
      match settings {
        case None =>
          alerts := alerts + [SaveFailedNotice];
        case Some(vaults) =>
          var vault := FirstVault(vaults);
          var noteName := NoteName(timestamp);
          saves := saves + [SaveRequest(content, noteName, RootPath, vault, CreateBehavior)];
          if !saved {
            alerts := alerts + [SaveFailedNotice];
          }
      }
    }
  }
}
