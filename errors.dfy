/** The exceptions thrown by euclidean_vector, as values. Each carries the payload its
    message reports (dimensions or index); the message text itself is not modelled. */
module Errors {

  datatype Error =
    | DimensionMismatch(lhs: int, rhs: int)  // std::invalid_argument from +=, -=, +, -, dot
    | OutOfRange(index: int)                 // std::out_of_range from at
    | DivisionByZero                         // std::logic_error from /=, /
    | UnitNoDimensions                       // std::invalid_argument from unit, dimension 0
    | UnitZeroNorm                           // std::invalid_argument from unit, norm 0

  /** A value-returning operation: its result or the exception it throws. */
  datatype Result<+T> = Success(value: T) | Failure(error: Error)

  /** An operation whose result is the receiver itself (compound assignment, at used
      as a store): either it completes or it throws. */
  datatype Outcome = Pass | Fail(error: Error)
}
