/** The few facts about the host language runtime that the model needs:
    optional values, the exception classes the modelled code can raise,
    and results that carry either a value or such an exception. */
module PyRuntime {

  datatype Option<+T> = None | Some(value: T)

  /** Host exceptions raised by the modelled code. */
  datatype PyError =
    | KeyError        // a dict subscript with a missing key
    | TypeError       // subscripting a value that is not a dict
    | ValueError      // malformed JSON text, or a negative __len__
    | AttributeError  // an attribute that the object's class does not define

  datatype Result<+T> = Ok(value: T) | Err(error: PyError)

  /** The outcome of a call that returns nothing useful but may raise. */
  datatype Outcome = Pass | Fail(error: PyError)
}
