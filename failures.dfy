/** Optional values, results, and the exceptions the skill can raise. */
module Failures {

  datatype Option<+T> = None | Some(value: T)

  /** The Python exceptions that can escape a step of the skill, by kind. */
  datatype Failure =
    | KeyError(key: string)      // a dictionary key is absent
    | IndexError                 // random.choice of an empty sequence
    | NotText(key: string)       // a list-valued prompt used where text is required
    | NameError(name: string)    // a global name that is not defined
    | FileError(path: string)    // open or json.load of a language file failed
    | TypeError                  // slicing a locale that is None
    | NoHandlerFound             // no registered request handler accepts the request
    | ClientError                // the address service failed other than with a ServiceException

  datatype Result<+T> = Ok(value: T) | Err(error: Failure)

  /** How a step ended: it returned normally, or it raised. */
  datatype Outcome = Returned | Raised(failure: Failure)
}
