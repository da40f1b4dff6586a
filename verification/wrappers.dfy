/** Option, Result and Outcome, with the failures the client library can raise. */
module Wrappers {

  datatype Option<+T> = None | Some(value: T)

  /** The exceptions raised by the modelled code, one constructor per kind. */
  datatype Failure =
    | InvalidValue(allowed: set<string>) // BaseDevice.raise_invalid_value
    | Raised(message: string)            // a plain Exception with its message
    | TypeError                          // arithmetic on None or on a string
    | AttributeError                     // a method looked up on None or on a number
    | KeyError(key: string)              // a missing key in a response dictionary
    | External(reason: string)           // raised inside the network or AWS client; the `Backend`
                                         // functions of the client return it, or any other failure

  datatype Result<+T> = Ok(value: T) | Err(error: Failure)

  datatype Outcome = Pass | Fail(error: Failure)
}
