/** An optional value: `None` stands for JavaScript's `undefined` (a missing
    configuration key, a missing field of a split result). */
module Wrappers {

  datatype Option<+T> = None | Some(value: T)

}
