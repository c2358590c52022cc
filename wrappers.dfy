/** Failure-carrying values shared by the models of the three scripts. */
module Wrappers {

  datatype Option<+T> = None | Some(value: T)

  /** The Python exceptions the modelled code can raise; every one of them ends the script. */
  datatype Exception =
    | IndexError   // a list index or a numpy index out of range
    | KeyError     // a dictionary lookup of a missing key
    | ValueError   // `float` of a malformed token, `min`/`max` of an empty sequence
    | TypeError    // unpacking `None` into a tuple

  /** The outcome of a step: a value, or the exception that stopped the script. */
  datatype Result<+T> = Ok(value: T) | Err(error: Exception)
}
