/** Error and optional values shared by the sensitivity model. */
module Errors {

  /** The ways an index or interval computation can fail. */
  datatype SensitivityError =
    /** Fewer than two replicates: the block mean or the divisor `size - 1` is undefined. */
    | SampleTooSmall(size: nat)
    /** A block B or E_p column has zero standard deviation, so it cannot be standardized. */
    | DegenerateBlock
    /** The asymptotic interval needs at least four replicates. */
    | AsymptoticSampleTooSmall(size: nat)
    /** Input `index` gives a correlation outside [-1, 1], where the Fisher transform has no value at all. */
    | CorrelationOutOfDomain(index: nat)

  datatype Result<T> = Success(value: T) | Failure(error: SensitivityError)

  datatype Option<T> = None | Some(value: T)
}
