/** Failure-carrying results shared by every module of the model. */
module Wrappers {

  datatype Option<T> = None | Some(value: T)

  /** The run-time errors the modelled scripts can raise. */
  datatype Fault =
    | KeyError(key: string)                               // Python: subscript of a missing dict key
    | IndexError(what: string)                            // Python: list index or pop out of range
    | UnpackError(text: string, expected: nat, got: nat)  // Python: tuple unpacking of the wrong size
    | TypeError(what: string)                             // JavaScript: member access on undefined, reduce of []

  datatype Result<T> = Ok(value: T) | Err(fault: Fault)
}
