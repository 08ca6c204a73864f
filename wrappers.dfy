/** The optional value used throughout the model: a JavaScript `null`,
    `undefined` or "no request emitted" is `None`. */
module Wrappers {

  datatype Option<+T> = None | Some(value: T)
}
