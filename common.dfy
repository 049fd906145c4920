/** Small value types shared by every module of the model. */
module Common {

  /** A value that may be absent: a missing dictionary key, a missing header, Python's None. */
  datatype Option<T> = None | Some(value: T)

  /** The `(is_valid, error_message)` pair returned by the validators. */
  datatype Check = Pass | Fail(message: string)

  /** A service answer: the `(result_dict, status_code)` pair of the services,
      either a success payload or an `{'error': ...}` body. */
  datatype Response<T> = Ok(status: int, value: T) | Err(status: int, error: string)
}
