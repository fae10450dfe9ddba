/** Values that cross the boundary between the toolbar and the services it calls. */
module Outcomes {

  /** An optional value: a stored setting that may be absent, a dialog that may not be shown. */
  datatype Option<T> = None | Some(value: T)

  /** What one `navigator.clipboard.readText()` call delivers: the text on the clipboard, or the
      rejection, kept as the string it turns into when concatenated. */
  datatype ClipboardRead = Read(text: string) | ReadFailed(error: string)
}
