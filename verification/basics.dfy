/**
 * Values shared by every part of the model: the two exceptions the
 * bookkeeping of the training script can raise, an error-carrying result,
 * an optional value, and the binary label.
 */
module Basics {

  /** The exceptions the modelled code can raise. */
  datatype Error =
    | ZeroDivision    // ZeroDivisionError: dividing by an empty loader or by zero examples
    | UnboundCounter  // NameError: `counter += 1` before `counter` was ever assigned

  datatype Result<T> = Ok(value: T) | Err(error: Error)

  datatype Option<T> = None | Some(value: T)

  /** A true label or a thresholded prediction; the tensors hold 0.0 or 1.0. */
  type Label = x: int | 0 <= x <= 1
}
