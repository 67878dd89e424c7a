/** The part of absl::Status and absl::StatusOr that the calculator uses:
    an OK status, or an error carrying a canonical code and a message. */
module AbslStatus {

  /** The canonical error codes the calculator can produce. */
  datatype StatusCode = InvalidArgument | Internal

  datatype Error = Error(code: StatusCode, message: string)

  /** absl::Status: OK, or an error. */
  datatype Status = OkStatus | ErrorStatus(error: Error)

  /** absl::StatusOr<T>: a value, or the error that prevented computing one. */
  datatype StatusOr<+T> = Success(value: T) | Failure(error: Error)
}
