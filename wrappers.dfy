/** The optional value used wherever the pages hold `null` or a JavaScript `NaN`. */
module Wrappers {

  datatype Option<+T> = None | Some(value: T)

}
