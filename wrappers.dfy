/** Result and Option types shared by every module, and the Python exceptions the
    modelled code can raise, as values instead of control flow. */
module Wrappers {

  datatype Option<+T> = None | Some(value: T)

  /** The exception classes the modelled code raises (or lets escape). */
  datatype PyError =
    | ValueError          // int() of a non-numeric text, list.remove of a missing item
    | IndexError          // indexing past the end of a list or string
    | KeyError            // dict lookup of a missing key
    | RuntimeError        // raised explicitly by the code
    | ArgumentError       // the patched ArgumentParser.error
    | UnboundLocalError   // a local assigned only on some branches, then read
    | IOError             // open() of a file that does not exist
    | AttributeError      // attribute lookup on an object that lacks it
    | RecursionError      // unbounded recursion

  datatype Result<+T> = Ok(value: T) | Err(error: PyError)
}
