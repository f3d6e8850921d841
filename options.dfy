/** The JavaScript `null` of the script's session globals, as an option value. */
module Options {
  datatype Option<+T> = None | Some(value: T)
}
