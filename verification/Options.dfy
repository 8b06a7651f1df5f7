/** An optional value, a text with a fallback, and an entry that may be missing. */
module Options {
  datatype Option<+T> = None | Some(value: T)

  function Either(text: string, fallback: string): string { if text != "" then text else fallback }

  function Entry(entries: map<string, string>, key: string): Option<string> {
    if key in entries then Some(entries[key]) else None
  }
}
