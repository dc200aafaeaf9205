/** The program's constants and the bounds of the Rust integer types it uses. */
module Units {
  /** `ONE_THOUSAND` and `ONE_MILLION` of src/main.rs: milliseconds per second, nanoseconds per millisecond. */
  const ONE_THOUSAND: nat := 1000
  const ONE_MILLION: nat := 1000000

  /** Exclusive upper bounds of Rust's `u128` and of `usize` on a 64-bit target. */
  const U128_LIMIT: nat := 0x1_0000_0000_0000_0000_0000_0000_0000_0000
  const USIZE_LIMIT: nat := 0x1_0000_0000_0000_0000
}
