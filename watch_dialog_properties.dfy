/** What the clipboard watcher, the confirmation dialog and the capture path guarantee. */
module WatchDialogProperties {
  import opened Outcomes
  import opened Capture
  import opened ToolbarModel

  /** Toggling flips watching. Turning it on seeds the last-seen text from a successful read
      (a failed read keeps the old text) and starts one interval; turning it off stops the
      interval and keeps the last-seen text. */
  lemma ToggleFlipsWatching(w: Watch, read: ClipboardRead)
    requires WatchInv(w)
    ensures var t := ToggleAutoWatch(w, read);
      && t.autoWatchActive == !w.autoWatchActive
      && (!w.autoWatchActive ==>
            && t.lastClipboardContent == (if read.Read? then read.text else w.lastClipboardContent)
            && t.intervalIdSet && t.intervals == 1)
      && (w.autoWatchActive ==>
            && t.lastClipboardContent == w.lastClipboardContent
            && !t.intervalIdSet && t.intervals == 0)
  {
  }

  /** New clipboard text: the read succeeded, is non-empty and differs from the last-seen text. */
  predicate IsNewText(read: ClipboardRead, last: string)
  {
    read.Read? && read.text != "" && read.text != last
  }

  /** A poll changes the toolbar exactly when it reads new text; it then records that text as
      last seen and displays a dialog for it, and touches nothing else. */
  lemma PollChangesIffNewText(s: State, read: ClipboardRead)
    ensures CheckClipboard(s, read) != s <==> IsNewText(read, s.watch.lastClipboardContent)
    ensures IsNewText(read, s.watch.lastClipboardContent) ==>
      var t := CheckClipboard(s, read);
      && t.watch == s.watch.(lastClipboardContent := read.text)
      && t.dialog == ShowConfirmDialog(s.dialog, read.text)
      && t.hover == s.hover && t.place == s.place && t.saves == s.saves && t.alerts == s.alerts
  {
    if IsNewText(read, s.watch.lastClipboardContent) {
      assert CheckClipboard(s, read).watch.lastClipboardContent != s.watch.lastClipboardContent;
    }
  }

  /** A poll does not look at whether watching is on: a read that completes after the toggle
      turned watching off still updates the last-seen text and displays a dialog. */
  lemma PollIgnoresWatching(s: State, read: ClipboardRead)
    ensures CheckClipboard(s.(watch := s.watch.(autoWatchActive := false)), read)
         == var t := CheckClipboard(s, read); t.(watch := t.watch.(autoWatchActive := false))
  {
  }

  /** Poll events for a sequence of results. */
  function Polls(results: seq<ClipboardRead>): (es: seq<Event>)
    ensures |es| == |results|
    ensures forall i :: 0 <= i < |results| ==> es[i] == Poll(results[i])
  {
    if results == [] then [] else [Poll(results[0])] + Polls(results[1..])
  }

  /** Polls that read nothing new change nothing, however many there are. */
  lemma {:induction false} StalePollsChangeNothing(s: State, results: seq<ClipboardRead>)
    requires forall i :: 0 <= i < |results| ==> !IsNewText(results[i], s.watch.lastClipboardContent)
    ensures Run(s, Polls(results)) == s
    decreases |results|
  {
    if results != [] {
      PollChangesIffNewText(s, results[0]);
      assert Polls(results)[1..] == Polls(results[1..]);
      StalePollsChangeNothing(s, results[1..]);
    }
  }

  /** Turning watching on while "text" is on the clipboard suppresses the prompt: as long as the
      clipboard still holds "text" (or is empty, or cannot be read), no poll displays a dialog. */
  lemma SeedSuppressesPrompt(s: State, text: string, results: seq<ClipboardRead>)
    requires !s.watch.autoWatchActive
    requires forall i :: 0 <= i < |results| ==> results[i].ReadFailed? || results[i].text in {"", text}
    ensures Run(s, [Toggle(Read(text))] + Polls(results)) == s.(watch := ToggleAutoWatch(s.watch, Read(text)))
  {
    var s1 := s.(watch := ToggleAutoWatch(s.watch, Read(text)));
    assert ([Toggle(Read(text))] + Polls(results))[1..] == Polls(results);
    StalePollsChangeNothing(s1, results);
  }

  /** Showing a dialog replaces any displayed one: afterwards exactly one dialog is in the
      document, for the new content, with exactly one live dismiss timer. */
  lemma ShowLeavesOneDialog(d: Dialog, content: string)
    requires DialogInv(d)
    ensures var t := ShowConfirmDialog(d, content);
      t.confirmDialog == Some(content) && t.dialogsInDocument == 1 && t.dismissTimers == 1 && DialogInv(t)
  {
  }

  /** Two clipboard changes in quick succession leave one dialog, for the second text, with one
      dismiss timer. */
  lemma TwoChangesOneDialog(s: State, a: string, b: string)
    requires Inv(s)
    requires a != "" && b != "" && a != b && a != s.watch.lastClipboardContent
    ensures var t := Run(s, [Poll(Read(a)), Poll(Read(b))]);
      && t.dialog.confirmDialog == Some(b) && t.dialog.dialogsInDocument == 1 && t.dialog.dismissTimers == 1
      && t.watch.lastClipboardContent == b
  {
    RunTwo(s, Poll(Read(a)), Poll(Read(b)));
  }

  /** Yes on a displayed dialog issues exactly the saves of one `performSave` of its content and
      removes the dialog and its timer. */
  lemma YesSavesOnceAndCloses(s: State, settings: Option<seq<string>>, timestamp: string, saved: bool)
    requires Inv(s) && s.dialog.confirmDialog.Some?
    ensures var t := ConfirmYes(s, settings, timestamp, saved);
      var e := PerformSave(s.dialog.confirmDialog.value, settings, timestamp, saved);
      && t.saves == s.saves + e.saves && t.alerts == s.alerts + e.alerts
      && (settings.Some? ==> |t.saves| == |s.saves| + 1 && t.saves[|s.saves|].content == s.dialog.confirmDialog.value)
      && t.dialog.confirmDialog.None? && t.dialog.dialogsInDocument == 0 && t.dialog.dismissTimers == 0
      && t.hover == s.hover && t.place == s.place && t.watch == s.watch
  {
  }

  /** No, and the dismiss timer, remove the dialog and its timer and save nothing. */
  lemma NoAndTimeoutSaveNothing(d: Dialog)
    requires DialogInv(d) && d.confirmDialog.Some?
    ensures var t := ConfirmNo(d);
      t.confirmDialog.None? && t.dialogsInDocument == 0 && t.dismissTimers == 0
    ensures var t := DismissTimerFires(d);
      t.confirmDialog.None? && t.dialogsInDocument == 0 && t.dismissTimers == 0
  {
  }

  /** Watching, last seen "A", the clipboard changes to "B" and the user accepts: one save of
      "B" goes out, named after the timestamp, in the root folder of the first vault, and no
      dialog or dismiss timer is left. */
  lemma AutoFlowAccept(s: State, vaults: seq<string>, timestamp: string)
    requires Inv(s) && s.watch.autoWatchActive && s.watch.lastClipboardContent == "A"
    ensures var t := Run(s, [Poll(Read("B")), Yes(Some(vaults), timestamp, true)]);
      && t.saves == s.saves + [SaveRequest("B", "Clipboard " + timestamp, "/", FirstVault(vaults), "create")]
      && t.alerts == s.alerts
      && t.dialog.confirmDialog.None? && t.dialog.dismissTimers == 0 && t.dialog.dialogsInDocument == 0
  {
    RunTwo(s, Poll(Read("B")), Yes(Some(vaults), timestamp, true));
  }

  /** The same, but the five seconds pass with no answer: the dialog goes and nothing is saved. */
  lemma AutoFlowTimeout(s: State)
    requires Inv(s) && s.watch.autoWatchActive && s.watch.lastClipboardContent == "A"
    ensures var t := Run(s, [Poll(Read("B")), DismissFires]);
      && t.saves == s.saves && t.alerts == s.alerts
      && t.dialog.confirmDialog.None? && t.dialog.dismissTimers == 0 && t.dialog.dialogsInDocument == 0
  {
    RunTwo(s, Poll(Read("B")), DismissFires);
  }

  /** A manual capture of "Meeting notes" sends it under `"Clipboard " + timestamp`, to the root
      folder, with the create behaviour. */
  lemma ManualSaveScenario(s: State, vaults: seq<string>, timestamp: string, saved: bool)
    ensures var t := Step(s, CaptureClick(Read("Meeting notes"), Some(vaults), timestamp, saved));
      t.saves == s.saves + [SaveRequest("Meeting notes", "Clipboard " + timestamp, "/", FirstVault(vaults), "create")]
  {
  }

  /** A manual capture of an empty clipboard, or one that cannot be read, saves nothing and
      shows one notice: "Clipboard is empty", or "Failed to read clipboard: " followed by the
      error. */
  lemma ManualCaptureWithoutTextSavesNothing(s: State, read: ClipboardRead, settings: Option<seq<string>>,
                                             timestamp: string, saved: bool)
    requires read.ReadFailed? || read.text == ""
    ensures var t := Step(s, CaptureClick(read, settings, timestamp, saved));
      && t.saves == s.saves
      && (read.Read? ==> t.alerts == s.alerts + ["Clipboard is empty"])
      && (read.ReadFailed? ==> t.alerts == s.alerts + ["Failed to read clipboard: " + read.error])
  {
  }
}
