/** Capturing clipboard text into a note: the save request `performSave` builds and the notices
    `manualCapture` and `performSave` show. Both are written here as the effects they produce. */
module Capture {
  import opened Outcomes

  /** The arguments of one `saveToObsidian(content, noteName, path, vault, behavior)` call. */
  datatype SaveRequest = SaveRequest(content: string, noteName: string, path: string, vault: string, behavior: string)

  /** What one capture sends out, in order: save requests and `alert` notices. */
  datatype Effects = Effects(saves: seq<SaveRequest>, alerts: seq<string>)

  const NotePrefix := "Clipboard "
  const RootPath := "/"
  const CreateBehavior := "create"
  const EmptyNotice := "Clipboard is empty"
  const ReadFailedPrefix := "Failed to read clipboard: "
  const SaveFailedNotice := "Failed to save to Obsidian"

  /** The vault a capture goes to: the first configured one, or the empty name when there is none. */
  function FirstVault(vaults: seq<string>): (v: string)
    ensures vaults != [] ==> v == vaults[0]
    ensures vaults == [] ==> v == ""
  {
    if |vaults| > 0 then vaults[0] else ""
  }

  /** The note name for a capture taken at `timestamp` (already formatted as YYYY-MM-DD HH-mm-ss):
      the fixed prefix, then the timestamp unchanged. */
  function NoteName(timestamp: string): (n: string)
    ensures |n| == |NotePrefix| + |timestamp|
    ensures n[..|NotePrefix|] == NotePrefix && n[|NotePrefix|..] == timestamp
  {
    NotePrefix + timestamp
  }

  /** `performSave(content)`: `settings` is what `loadSettings` yields (None when it rejects) and
      `saved` whether `saveToObsidian` resolved. Exactly one request goes out once the settings
      are loaded, and a failure notice is shown exactly when the save did not go through. */
  function PerformSave(content: string, settings: Option<seq<string>>, timestamp: string, saved: bool): (e: Effects)
    ensures settings.None? ==> e.saves == []
    ensures settings.Some? ==> e.saves == [SaveRequest(content, NoteName(timestamp), RootPath, FirstVault(settings.value), CreateBehavior)]
    ensures e.alerts == [] <==> settings.Some? && saved
    ensures e.alerts != [] ==> e.alerts == [SaveFailedNotice]
  {
    match settings
    case None => Effects([], [SaveFailedNotice])
    case Some(vaults) =>
      Effects([SaveRequest(content, NoteName(timestamp), RootPath, FirstVault(vaults), CreateBehavior)],
              if saved then [] else [SaveFailedNotice])
  }

  /** `manualCapture()`: a failed read and an empty clipboard each give one notice and no save;
      any other text goes to `performSave`. */
  function ManualCapture(read: ClipboardRead, settings: Option<seq<string>>, timestamp: string, saved: bool): (e: Effects)
    ensures e.saves != [] <==> read.Read? && read.text != "" && settings.Some?
    ensures read == Read("") ==> e == Effects([], [EmptyNotice])
    ensures read.ReadFailed? ==> e == Effects([], [ReadFailedPrefix + read.error])
    ensures read.Read? && read.text != "" ==> e == PerformSave(read.text, settings, timestamp, saved)
  {
    match read
    case ReadFailed(error) => Effects([], [ReadFailedPrefix + error])
    case Read(text) =>
      if text != "" then PerformSave(text, settings, timestamp, saved)
      else Effects([], [EmptyNotice])
  }

  /** A manual capture of non-empty text with settings loaded issues exactly the request that
      carries that text, `"Clipboard " + timestamp`, the root folder, the first vault or `""`,
      and the create behaviour. */
  lemma ManualCaptureRequest(text: string, vaults: seq<string>, timestamp: string, saved: bool)
    requires text != ""
    ensures ManualCapture(Read(text), Some(vaults), timestamp, saved).saves
         == [SaveRequest(text, "Clipboard " + timestamp, "/", if vaults == [] then "" else vaults[0], "create")]
  {
  }
}
