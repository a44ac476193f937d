/**
 * The gRPC status-code vocabulary. In Go a `codes.Code` is a `uint32`; the
 * seventeen canonical codes are 0 (OK) through 16 (Unauthenticated), and any
 * other 32-bit value is a code this middleware does not know by name.
 */
module Codes {

  newtype Code = n: int | 0 <= n < 0x1_0000_0000

  const OK: Code := 0
  const Canceled: Code := 1
  const Unknown: Code := 2
  const InvalidArgument: Code := 3
  const DeadlineExceeded: Code := 4
  const NotFound: Code := 5
  const AlreadyExists: Code := 6
  const PermissionDenied: Code := 7
  const ResourceExhausted: Code := 8
  const FailedPrecondition: Code := 9
  const Aborted: Code := 10
  const OutOfRange: Code := 11
  const Unimplemented: Code := 12
  const Internal: Code := 13
  const Unavailable: Code := 14
  const DataLoss: Code := 15
  const Unauthenticated: Code := 16

  /** One of the seventeen codes the gRPC protocol names. */
  predicate IsCanonical(code: Code) {
    code <= Unauthenticated
  }
}
