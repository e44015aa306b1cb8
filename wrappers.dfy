/** The optional value used wherever a component keeps "nothing" (a null id, an
    undefined prop) beside a real value. */
module Wrappers {

  datatype Option<+T> = None | Some(value: T)

}
