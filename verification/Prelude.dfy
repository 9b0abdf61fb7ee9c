/** Shared vocabulary: optional values, thrown errors and 64-bit unsigned words. */
module Prelude {

  datatype Option<+T> = None | Some(value: T)

  /** The standard exception classes the simulator throws. */
  datatype Error = LogicError | InvalidArgument | LengthError | OverflowError | HandlerFailure

  /** A call that returns or throws. */
  datatype Result<+T> = Ok(value: T) | Throw(error: Error)

  const U64_MAX: nat := 0xFFFF_FFFF_FFFF_FFFF

  /** `std::uint64_t`; every arithmetic result of this type is proved to stay in range. */
  newtype uint64 = x: int | 0 <= x <= 0xFFFF_FFFF_FFFF_FFFF

  lemma Scale(a: int, b: int, d: nat)
    ensures a <= b ==> a * d <= b * d
  {
    if a <= b {
      assert (b - a) * d >= 0;
    }
  }
}
