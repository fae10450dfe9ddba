# Clipboard toolbar: a verified model of its interaction state machine

The clipboard toolbar is a floating, draggable widget that captures clipboard text into an
Obsidian note. The widget is one class, `ClipboardToolbar`, and its event handlers update a handful of
instance fields. This project models that state machine in Dafny. It covers five parts:

- hover expand/collapse, with its one-second expand timer and three-second collapse timer;
- dragging the toolbar, snapping it back to the right edge, and clamping and storing its top offset;
- the clipboard watcher: the toggle, the seeding read, and change detection on each poll;
- the confirmation dialog, which replaces any earlier dialog and has Yes, No and a five-second
  auto-dismiss;
- capture: manual capture with its notices, and the save request `performSave` builds.

Layout:

- `outcomes.dfy` (`Outcomes`): `Option` and `ClipboardRead`. `ClipboardRead` is the outcome of
  one clipboard read: `Read(text)` or `ReadFailed(error)`.
- `geometry.dfy` (`Geometry`): the vertical clamp `max(0, min(top, viewportHeight - height))`
  and the drag's pointer-follow arithmetic.
- `capture.dfy` (`Capture`): the save request, the vault and note-name choice, and the effects
  of `performSave` and `manualCapture`. Effects are the save requests sent and the `alert`
  notices shown.
- `toolbar_model.dfy` (`ToolbarModel`): the toolbar's state as a value, grouped as `Hover`,
  `Placement`, `Watch` and `Dialog`. It has one function per handler, an `Event` type, `Run`
  over event sequences, and the object invariant `Inv`.
- `clipboard_toolbar.dfy` (`Toolbar`): the class `ClipboardToolbar`. Its fields are updated in
  place by methods that are the handlers. Each method is proved to produce exactly the state
  the matching `ToolbarModel` function gives. Each handler method, and each timer firing, also
  keeps `Valid()`, as does `PerformSave`. Three methods are internal steps that only
  handlers call: `ExpandToolbar`, `CollapseToolbar` and `SnapToRight`. They are specified by
  their effect alone, and `Valid()` is claimed only for the handler that calls them.
- `hover_properties.dfy`, `drag_properties.dfy`, `watch_dialog_properties.dfy`: lemmas about
  the handlers and about sequences of events.

How the outside world appears in the model:

- A timer handle field (`hoverTimeout`, `collapseTimeout`, `intervalId`, `confirmTimeout`) is
  kept as whether it is non-null.
- Beside each handle, a ghost count records how many timers of that kind the browser still
  holds. A leaked or double-booked timer would show as a count above one. For the expand and
  collapse timers and the poll interval, the invariant proves the count is 1 exactly when its
  field is set, and 0 otherwise. The dialog's dismiss-timer count follows the dialog instead:
  it is 1 exactly while a dialog is in the document. `confirmTimeout` stays set after the
  dialog goes, so that handle can be set with no timer behind it.
- A timer firing is an explicit method that requires its timer to be pending.
- Clipboard reads, the stored offset, measured rectangles, the viewport height, the loaded
  vault list, the save outcome and the formatted timestamp are parameters.
- The stored offsets written, the save requests sent and the notices shown are kept in ghost
  logs.

Where the design intent and the code differ, the model follows the code:

- Starting a drag does not cancel a pending expand or collapse timer. It only stops new ones
  from being scheduled. So an expand pending at the press still fires mid-drag
  (`HoverProperties.PendingExpandFiresDuringDrag`).
- A poll's read that completes after watching was turned off is not discarded. `checkClipboard`
  never looks at `autoWatchActive` (`WatchDialogProperties.PollIgnoresWatching`).
- Turning watching off keeps `lastClipboardContent`.
- The dialog's `remove` never resets `confirmTimeout` to null. This has no visible effect,
  because clearing a spent handle cancels nothing.

## Model

| member | source | states |
|---|---|---|
| Geometry.ClampTop | src/clipboard-toolbar.ts:30-31 | the clamped top is at least 0; it is at most `viewportHeight - height` when that is nonnegative; an in-range top is unchanged; a top past the bottom becomes `viewportHeight - height` |
| Geometry.ClampTopIdempotent | src/clipboard-toolbar.ts:212-213 | clamping an already clamped top changes nothing |
| Geometry.GrabAt | src/clipboard-toolbar.ts:170-175 | the recorded offset added to the container's corner gives back the press point |
| Geometry.Follow | src/clipboard-toolbar.ts:189-190 | during a drag the grabbed point stays under the pointer |
| Geometry.FollowTranslates | src/clipboard-toolbar.ts:174-190 | a pointer displacement (dx, dy) from the press point moves the container by exactly (dx, dy) |
| Capture.FirstVault | src/clipboard-toolbar.ts:345 | the vault is the first configured one, or `''` when there are none |
| Capture.NoteName | src/clipboard-toolbar.ts:346-347 | the note name is `"Clipboard "` followed by the timestamp unchanged |
| Capture.PerformSave | src/clipboard-toolbar.ts:342-361 | once settings load, exactly one request goes out: the content, the note name, `'/'`, the first vault, `'create'`; "Failed to save to Obsidian" is shown exactly when loading or saving failed |
| Capture.ManualCapture | src/clipboard-toolbar.ts:328-340 | a save happens iff the read gives non-empty text; an empty read shows "Clipboard is empty"; a failed read saves nothing and shows exactly "Failed to read clipboard: " followed by the error |
| Capture.ManualCaptureRequest | src/clipboard-toolbar.ts:331-356 | a manual capture of non-empty text sends exactly the request with that text, `"Clipboard " + timestamp`, `"/"`, the first vault or `""`, and `"create"` |
| ToolbarModel.StepPreservesInv | src/clipboard-toolbar.ts:121-325 | every handler and timer firing keeps the object invariant |
| ToolbarModel.RunPreservesInv | src/clipboard-toolbar.ts:8-18 | the object invariant holds after any sequence of events |
| ToolbarModel.NoTimerLeaks | src/clipboard-toolbar.ts:121-325 | after any events since construction: at most one expand or collapse timer, never both; the interval runs exactly while watching; at most one dialog, with as many dismiss timers as dialogs |
| HoverProperties.EnterSchedulesOnlyFromIdle | src/clipboard-toolbar.ts:121-132 | mouse-enter cancels a pending collapse; it adds an expand timer exactly when collapsed, none is pending and not dragging |
| HoverProperties.LeaveSchedulesOnlyWhenExpanded | src/clipboard-toolbar.ts:134-145 | mouse-leave cancels a pending expand; it adds a collapse timer exactly when expanded, none is pending and not dragging |
| HoverProperties.EnterIdempotent | src/clipboard-toolbar.ts:121-132 | a second mouse-enter changes nothing |
| HoverProperties.LeaveIdempotent | src/clipboard-toolbar.ts:134-145 | a second mouse-leave changes nothing |
| HoverProperties.RepeatedEnters | src/clipboard-toolbar.ts:121-132 | any run of enters acts as one, so no second expand timer is booked |
| HoverProperties.RepeatedLeaves | src/clipboard-toolbar.ts:134-145 | any run of leaves acts as one, so no second collapse timer is booked |
| HoverProperties.HoverFiringExpands | src/clipboard-toolbar.ts:147-153 | the expand timer firing sets expanded and clears the hover handle, leaving no timer |
| HoverProperties.CollapseFiringCollapses | src/clipboard-toolbar.ts:155-161 | the collapse timer firing clears expanded and the collapse handle, leaving no timer |
| HoverProperties.DragStartKeepsTimers | src/clipboard-toolbar.ts:163-167 | drag start changes only `isDragging` in the hover state; pending timers stay pending |
| HoverProperties.PendingExpandFiresDuringDrag | src/clipboard-toolbar.ts:127-153 | an expand pending at the press still fires and expands the toolbar mid-drag |
| HoverProperties.LeaveDuringDragCancelsExpand | src/clipboard-toolbar.ts:134-140 | a leave during a drag cancels a pending expand and books no collapse |
| HoverProperties.DragStepBooksNoTimer | src/clipboard-toolbar.ts:127-140 | during a drag, no single event other than the release books a hover or collapse timer |
| HoverProperties.DraggingBooksNoTimer | src/clipboard-toolbar.ts:121-167 | over any events without a release, the drag continues and no new timer is booked |
| DragProperties.NonPrimaryPressIgnored | src/clipboard-toolbar.ts:164 | a press with any button but 0 changes nothing |
| DragProperties.PrimaryPressStartsDrag | src/clipboard-toolbar.ts:166-181 | a primary press sets dragging, places the container at its rectangle by left/top and records the press offset; watcher, dialog and logs are untouched |
| DragProperties.MovesFollowPointer | src/clipboard-toolbar.ts:186-194 | after any moves during a drag, the container sits at the last pointer minus the offset, and nothing else changes |
| DragProperties.DragFollowsPointer | src/clipboard-toolbar.ts:170-194 | after a press and moves, the container is displaced from its starting rectangle by exactly the pointer's displacement |
| DragProperties.ReleaseSnapsAndPersists | src/clipboard-toolbar.ts:196-227 | release clears dragging, snaps to the right edge, and stores exactly the clamped top it applies; the hover timers are untouched |
| DragProperties.ReleaseWithoutDragIgnored | src/clipboard-toolbar.ts:196-205 | with no drag under way, a mouse-up reaches no listener |
| DragProperties.DragAndReleasePersistsClamped | src/clipboard-toolbar.ts:163-227 | press, move by (dx, dy) and release store and apply `ClampTop(rect.top + dy)` |
| DragProperties.SnapRestoresSameTop | src/clipboard-toolbar.ts:26-38 | the offset a release stores restores, in the same viewport, to the top the release applied |
| DragProperties.RestoreClamps | src/clipboard-toolbar.ts:26-38 | restore applies a stored offset only when one exists, always clamped; an offset past the bottom restores to `viewportHeight - height` |
| WatchDialogProperties.ToggleFlipsWatching | src/clipboard-toolbar.ts:229-254 | toggle flips watching; activation seeds last-seen only from a successful read and starts one interval; deactivation stops it and keeps last-seen |
| WatchDialogProperties.PollChangesIffNewText | src/clipboard-toolbar.ts:258-268 | a poll changes the state iff it reads non-empty text different from last-seen; it then records that text and shows a dialog for it, touching nothing else |
| WatchDialogProperties.PollIgnoresWatching | src/clipboard-toolbar.ts:258-264 | the poll's effect is the same whether or not watching is still on |
| WatchDialogProperties.StalePollsChangeNothing | src/clipboard-toolbar.ts:258-267 | any number of polls that read nothing new leave the state unchanged |
| WatchDialogProperties.SeedSuppressesPrompt | src/clipboard-toolbar.ts:237-244 | after activation with text T on the clipboard, polls reading T, empty text or failing show no dialog |
| WatchDialogProperties.ShowLeavesOneDialog | src/clipboard-toolbar.ts:270-325 | showing a dialog leaves exactly one dialog, with the new content and one live dismiss timer |
| WatchDialogProperties.TwoChangesOneDialog | src/clipboard-toolbar.ts:258-325 | two quick clipboard changes leave one dialog, for the second text, with one timer |
| WatchDialogProperties.YesSavesOnceAndCloses | src/clipboard-toolbar.ts:301-323 | Yes records the effects of one save of the dialog's content (one request when settings load), then removes the dialog and its timer |
| WatchDialogProperties.NoAndTimeoutSaveNothing | src/clipboard-toolbar.ts:310-325 | No and the dismiss timer each remove the dialog and its timer, with no save |
| WatchDialogProperties.AutoFlowAccept | src/clipboard-toolbar.ts:258-325 | watching with last-seen "A", a read of "B" then Yes sends exactly one save of "B" and leaves no dialog or timer |
| WatchDialogProperties.AutoFlowTimeout | src/clipboard-toolbar.ts:258-325 | watching with last-seen "A", a read of "B" then the dismiss timer saves nothing and leaves no dialog or timer |
| WatchDialogProperties.ManualSaveScenario | src/clipboard-toolbar.ts:328-356 | capturing "Meeting notes" sends it as `"Clipboard " + timestamp` in `"/"` with `"create"` |
| WatchDialogProperties.ManualCaptureWithoutTextSavesNothing | src/clipboard-toolbar.ts:328-339 | an empty or failed read saves nothing and appends exactly one notice: "Clipboard is empty", or "Failed to read clipboard: " followed by the error |
| Toolbar.ClipboardToolbar.constructor | src/clipboard-toolbar.ts:8-24 | the fields start at their declared initial values, and the invariant holds |
| Toolbar.ClipboardToolbar.RestorePosition | src/clipboard-toolbar.ts:26-38 | only `top` changes, to the clamped stored offset when one exists |
| Toolbar.ClipboardToolbar.HandleMouseEnter | src/clipboard-toolbar.ts:121-132 | only the hover state changes, as `MouseEnter` says; afterwards no collapse timer is live and at most one expand timer is |
| Toolbar.ClipboardToolbar.HandleMouseLeave | src/clipboard-toolbar.ts:134-145 | only the hover state changes, as `MouseLeave` says; afterwards no expand timer is live and at most one collapse timer is |
| Toolbar.ClipboardToolbar.ExpandToolbar | src/clipboard-toolbar.ts:147-153 | sets expanded and clears the hover handle |
| Toolbar.ClipboardToolbar.CollapseToolbar | src/clipboard-toolbar.ts:155-161 | clears expanded and the collapse handle |
| Toolbar.ClipboardToolbar.HoverTimerFires | src/clipboard-toolbar.ts:128-130 | the pending expand timer fires: the toolbar is expanded and no expand timer is left |
| Toolbar.ClipboardToolbar.CollapseTimerFires | src/clipboard-toolbar.ts:141-143 | the pending collapse timer fires: the toolbar is collapsed and no collapse timer is left |
| Toolbar.ClipboardToolbar.HandleDragStart | src/clipboard-toolbar.ts:163-185 | a primary press starts a drag as `DragStart` says; any other button changes nothing |
| Toolbar.ClipboardToolbar.OnMouseMove | src/clipboard-toolbar.ts:186-194 | during a drag, only `left`/`top` change, to the pointer minus the grab offset |
| Toolbar.ClipboardToolbar.OnMouseUp | src/clipboard-toolbar.ts:196-202 | ends the drag and snaps; the top applied is the value appended to the stored offsets |
| Toolbar.ClipboardToolbar.SnapToRight | src/clipboard-toolbar.ts:208-227 | stores the clamped top, unsets `left` and applies that top |
| Toolbar.ClipboardToolbar.ToggleAutoWatch | src/clipboard-toolbar.ts:229-256 | flips watching; the interval is set exactly while watching; the seeding follows `ToggleAutoWatch` |
| Toolbar.ClipboardToolbar.CheckClipboard | src/clipboard-toolbar.ts:258-268 | follows `CheckClipboard`: new non-empty text becomes last-seen and gets a dialog; anything else changes nothing |
| Toolbar.ClipboardToolbar.ShowConfirmDialog | src/clipboard-toolbar.ts:270-326 | afterwards exactly one dialog, with the new content, and exactly one live dismiss timer |
| Toolbar.ClipboardToolbar.RemoveDialog | src/clipboard-toolbar.ts:319-323 | the dialog and its live timer are gone |
| Toolbar.ClipboardToolbar.ConfirmYes | src/clipboard-toolbar.ts:301-304 | records one `performSave` of the dialog's content, then removes the dialog |
| Toolbar.ClipboardToolbar.ConfirmNo | src/clipboard-toolbar.ts:306-310 | removes the dialog, with no save |
| Toolbar.ClipboardToolbar.DismissTimerFires | src/clipboard-toolbar.ts:325 | the dialog goes and no dismiss timer is left |
| Toolbar.ClipboardToolbar.ManualCapture | src/clipboard-toolbar.ts:328-340 | adds exactly the effects `Capture.ManualCapture` gives to the logs |
| Toolbar.ClipboardToolbar.PerformSave | src/clipboard-toolbar.ts:342-362 | adds exactly the effects `Capture.PerformSave` gives to the logs |

## Left out

- Styling and DOM construction (`setupUI`, the dialog markup, cursor changes, transitions,
  border radius) are cosmetic. The content container always exists after construction, so the
  early returns in `expandToolbar` and `collapseToolbar` cannot happen and are not modelled.
- `initializeIcons`, `mount` and `mountClipboardToolbar` are not modelled. They are icon
  rendering and a one-time DOM insertion.
- Timer delays (1000, 3000 and 5000 ms, and the 1000 ms poll) are not modelled. Each firing is
  an explicit event that may happen whenever its timer is live. The interval's tick and the
  start of its read are not separate events: `CheckClipboard` is the moment the read completes.
- Async interleavings are not modelled; each handler runs atomically. The source awaits the
  seeding read before it starts the interval, so a second toggle during that await would leave
  an interval running. Yes calls `performSave` without awaiting it, then `remove`; the model
  records the save before the removal.
- `requestAnimationFrame` in `snapToRight` is not modelled as a separate step. The deferred
  style updates are applied at once.
- A second primary press without a release is not modelled faithfully. This can happen when the
  button is released outside the window. The source then adds a second pair of document
  listeners; the model keeps only the latest press's drag. Moves behave the same either way,
  but the source would snap once per pair on the next release.
- Measured rectangles are parameters in whole pixels. Fractional values from
  `getBoundingClientRect` are not modelled, and nothing ties a measured rectangle to the style
  the model holds.
- Local storage access is not modelled beyond its inputs and log. A missing stored offset and a
  failed read are both `None`. Writes are recorded as requests; their failure is only logged by
  the source.
- `console.log`/`console.error` output is not modelled.
- The formatted date is taken as an opaque timestamp string.
- Handle values are not modelled, only whether a field is set. Browsers never return 0 as a
  timer id, so the truthiness tests in the source agree with this.
