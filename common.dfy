/** Small shared vocabulary of the scanner model. */
module Common {

  /** A value that may be absent (a JavaScript `null`/`undefined` reference is `None`). */
  datatype Option<T> = None | Some(value: T)

  /** The provenance tag of a scan, the union type `'clipboard' | 'keyboard'`. */
  datatype Channel = Clipboard | Keyboard
}
