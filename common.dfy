/** Option and Result shapes shared by every module of the model. */
module Common {

  /** An optional value; `None` stands for Python's `None`. */
  datatype Option<+T> = None | Some(value: T)

  /** The exceptions the modelled Python code can raise. */
  datatype PyError =
    | TypeError
    | KeyError(key: string)
    | AttributeError

  /** Either a value or the exception the Python code raised instead. */
  datatype Result<+T> = Ok(value: T) | Raised(error: PyError)
}
