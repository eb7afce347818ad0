/** The driver's error kinds and its two result shapes. */
module Errors {

  datatype Error =
    | InvalidDeviceCount
    | InvalidDeviceIndex
    | InvalidScanLimit
    | InvalidIntensity
    | InvalidDigit
      /** The transport rejected a transfer. */
    | Spi

  /** The outcome of an operation that produces no value (`Result<()>`). */
  datatype Status = Ok | Err(error: Error)

  /** The outcome of an operation that produces a value. */
  datatype Result<T> = Success(value: T) | Failure(error: Error)
}
