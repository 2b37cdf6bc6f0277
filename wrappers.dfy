/** Failure-carrying results and the errors the simulator raises. */
module Wrappers {

  datatype Option<+T> = None | Some(value: T)

  /** Each constructor stands for one exception the Python code can raise. */
  datatype Error =
    | DuplicateAgent(handle: int)          // assert in RegisterAgent
    | UnknownAgent(handle: int)            // assert in LocalOperation / Observable
    | IncorrectLocalOperation(handle: int) // wrong parameter count in LocalOperation
    | NoOperationSlot(handle: int)         // agent has no slot in the prepared state (IndexError)
    | NotPrepared                          // Observe before any Prepare (AttributeError)
    | NotObserved(handle: int)             // Observable before Observe (AttributeError / IndexError)
    | ZeroSliceStep                        // quantum Prepare with no agents: slice step 0 (ValueError)
    | StateMismatch                        // quantum Observe after agents joined since Prepare (IndexError)
    | ObservableTooLarge                   // assert at the end of quantum Observe
    | EmptyNesting                         // game descent reached an empty list, or the game is a number
    | MisdefinedGame(lengths: seq<nat>)    // nesting depth is neither N+1 nor 2N+1
    | MalformedGame                        // indexing or contracting a ragged game (IndexError / TypeError)
    | NotChosen                            // Remember before any Choose (AttributeError)
    | NoCandidates                         // max() over no candidate strategies (ValueError)

  datatype Result<+T> = Ok(value: T) | Err(error: Error)

  /** The result of a call that returns nothing in Python. */
  datatype Outcome = Pass | Fail(error: Error)
}
