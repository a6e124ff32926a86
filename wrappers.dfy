/** The optional value shared by the modules of the model: JavaScript's
    `null` / `undefined` on one side, a present value on the other. */
module Wrappers {

  datatype Option<+T> = None | Some(value: T)
}
