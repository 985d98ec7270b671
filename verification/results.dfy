/** Error kinds raised by the modelled code, and the wrappers that carry them. */
module Results {

  datatype Error =
    | InvalidArgument   // C++ std::invalid_argument
    | OutOfRange        // C++ std::out_of_range
    | LengthError       // C++ std::length_error
    | ValueError        // Python ValueError
    | IndexError        // Python IndexError
    | RuntimeError      // Python RuntimeError
    | TfInvalidArgument // TensorFlow InvalidArgumentError

  /** The value of an operation that may raise. */
  datatype Result<+T> = Ok(value: T) | Err(error: Error)

  /** The outcome of an operation that returns nothing but may raise. */
  datatype Status = Done | Failed(error: Error)

  datatype Option<+T> = None | Some(value: T)
}
