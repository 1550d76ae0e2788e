/** Option and Result wrappers shared by every module of the model. */
module Wrappers {
  datatype Option<T> = None | Some(value: T)

  /** The exceptions raised by the modelled code, by their Python names. */
  datatype Error = ValueError | IndexError | TypeError | ZeroDivisionError | OverflowError | MemoryError

  datatype Result<T> = Ok(value: T) | Err(error: Error)
}
