/** The optional-value datatype shared by the modules of this model
    (a null pointer or an absent value in the original). */
module Wrappers {

  datatype Option<+T> = None | Some(value: T)

}
