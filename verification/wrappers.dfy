/** The optional-value type used for form fields and for the provider's message. */
module Wrappers {

  /** A value that may be absent: a form field that was not sent, or a
      message the provider did not supply. */
  datatype Option<+T> = None | Some(value: T)
}
