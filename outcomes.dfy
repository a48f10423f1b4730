/** Failure-carrying results shared by every module of the hull model. */
module Outcomes {

  datatype Option<T> = None | Some(value: T)

  /** The ways a call of the hull code can end without a value: the two Python
      exceptions the code can raise (ZeroDivisionError, IndexError), and
      OutOfFuel, which stands for a loop that had not returned within the
      step bound the model was given. */
  datatype Error = ZeroDivision | IndexError | OutOfFuel

  datatype Result<T> = Ok(value: T) | Err(error: Error)
}
