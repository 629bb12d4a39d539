/** Failure-carrying values shared by the parser, the scene and the topology. */
module Wrappers {

  /** Python's `None` or a present value. */
  datatype Maybe<+T> = None | Some(value: T)

  /** The exceptions the source raises, by the Python exception class that carries them. */
  datatype Error =
    | KeyError(key: string)         // a dict lookup with `d[k]` on a missing key
    | AttributeError(attr: string)  // an attribute read or method call on a value that lacks it
    | IndexError                    // `matches[i]` past the end of the children
    | ValueError(text: string)      // `int()` or the `ipaddress` constructors rejecting their input
    | Raised(message: string)       // an explicit `raise Exception(...)` in the source

  datatype Result<+T> = Ok(value: T) | Err(error: Error)

  datatype Outcome = Pass | Fail(error: Error)
}
