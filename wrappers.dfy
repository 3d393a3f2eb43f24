/** The two wrapper datatypes of the model: `Option` for a Python argument or
    attribute that may be `None`, and `Attempt` for a call that either returns
    a value or raises an exception. */
module Wrappers {

  datatype Option<+T> = None | Some(value: T)

  datatype Attempt<+T, +E> = Returned(value: T) | Raised(error: E)
}
