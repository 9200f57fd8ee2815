/** Machine integer types and the error-carrying result shared by every module. */
module Base {

  const TwoTo16: int := 0x1_0000
  const TwoTo32: int := 0x1_0000_0000

  type uint16 = x: int | 0 <= x < TwoTo16
  type uint32 = x: int | 0 <= x < TwoTo32
  type byte = bv8

  /** Conversion of any integer to `uint32` as C++ does it: modulo 2^32. */
  function AsUint32(x: int): (r: uint32)
    ensures (r - x) % TwoTo32 == 0
    ensures 0 <= x < TwoTo32 ==> r == x
  {
    x % TwoTo32
  }

  /** The exception classes the renderer throws. */
  datatype Error =
    | SetupError(message: string)       // vulkan_setup_error
    | InvalidArgument(message: string)  // std::invalid_argument
    | RuntimeError(message: string)     // std::runtime_error / std::exception

  datatype Result<+T> = Ok(value: T) | Err(error: Error)

  datatype Option<+T> = None | Some(value: T)

  /** The outcome of an operation that returns nothing but may throw. */
  datatype Outcome = Pass | Fail(error: Error)
}
