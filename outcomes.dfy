/** Failures the engine can raise, and the result type that carries them. */
module Outcomes {

  /** The exceptions the Python engine raises, by cause. */
  datatype Error =
    | ShapeMismatch        // numpy refuses a dot product or an elementwise operation
    | IndexOutOfRange      // a list or array index outside the container (IndexError)
    | DivisionByZero       // a float divided by a zero length (ZeroDivisionError)
    | EmptyArgmax          // np.argmax of an empty array (ValueError)
    | ZeroStep             // xrange with a step of zero (ValueError)
    | NoEvaluationData     // monitoring evaluation data that is None or empty
    | UnknownCostFunction  // a cost name that names neither cost class

  datatype Result<T> = Ok(value: T) | Err(error: Error)

  datatype Option<T> = None | Some(value: T)
}
