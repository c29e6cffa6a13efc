/** A value that may be absent: `null`/`undefined` in the source, `NaN`
    for a failed number conversion. */
module Opt {
  datatype Option<T> = None | Some(value: T)
}
