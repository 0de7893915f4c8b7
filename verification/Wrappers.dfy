/** Types shared by all parts. */
module Wrappers {

  datatype Option<T> = None | Some(value: T)

  /** One more than the largest 256-bit number. */
  const U256_LIMIT: nat := 0x1_00000000_00000000_00000000_00000000_00000000_00000000_00000000_00000000
}
