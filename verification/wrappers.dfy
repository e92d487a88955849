/** The optional values of the configuration: a JavaScript property that may be `undefined`. */
module Wrappers {

  /** `None` stands for an absent (`undefined`) property, `Some` for a present one. */
  datatype Option<+T> = None | Some(value: T)
}
