/** The optional value used for PHP's `null` (an unset option, an absent field value). */
module Wrappers {

  datatype Option<+T> = None | Some(value: T)
}
