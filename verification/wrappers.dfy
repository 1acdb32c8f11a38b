/** The optional-value datatype shared by every module of the model.
    It stands for TypeScript's `T | null` and `T | undefined`. */
module Wrappers {

  datatype Option<+T> = None | Some(value: T)
}
