/** A value that may be missing: Python's KeyError on a dictionary miss, or a row
    that does not decode. */
module Options {
  datatype Option<+T> = None | Some(value: T)
}
