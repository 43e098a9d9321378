/** Optional values and the exceptions the modelled code can raise, as values. */
module Outcomes {

  datatype Option<T> = None | Some(value: T)

  /** The Python exceptions that leave the modelled operations. */
  datatype Failure =
    | NotImplemented(message: string)  // `NotImplementedError` for an unsupported mode
    | LlmUnavailable                   // the language-model call raised
    | ZeroDivision                     // `x % 0`
    | NoCandidates                     // a vote over an empty list: `max([])` or `events[0]`
    | NoStages                         // `script['stages'][0]` on a script without stages

  datatype Result<T> = Ok(value: T) | Raised(failure: Failure)
}
