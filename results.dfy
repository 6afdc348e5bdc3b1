/** Option and Result values, used where the application returns `None` or raises. */
module Results {

  datatype Option<+T> = None | Some(value: T)

  /** A value, or the message of the exception the application raises instead. */
  datatype Result<+T> = Ok(value: T) | Error(message: string)
}
