/** The optional-value type used for the optional parts of a forecast. */
module Wrappers {

  /** Absent (`None`) or present (`Some`) value; an absent JavaScript property
      or a falsy one is `None`. */
  datatype Option<+T> = None | Some(value: T)
}
