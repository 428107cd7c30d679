/** Swift's `Optional`: a value that may be absent (`nil`). */
module Opt {

  datatype Option<+T> = None | Some(value: T)
}
