/** Option and Result values, and the exceptions that the browser built-ins used by the
    codec throw. */
module Wrappers {

  datatype Option<+T> = None | Some(value: T)

  datatype Result<+T, +E> = Ok(value: T) | Err(error: E)

  /** DOMException names and JavaScript errors raised by atob, the Int16Array
      constructor and AudioContext.createBuffer. */
  datatype Exception =
    | InvalidCharacterError   // atob / btoa given a character outside their input alphabet
    | RangeError              // an Int16Array view over an odd number of bytes
    | NotSupportedError       // createBuffer with zero channels or zero frames
}
