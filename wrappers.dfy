/** The Option type that stands for the nullable references of the source. */
module Wrappers {

  /** `None` plays the part of `null`. */
  datatype Option<+T> = None | Some(value: T)
}
