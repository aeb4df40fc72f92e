/** Constants and arithmetic of C types. */
module CTypes {
  const SIZE_MODULUS: nat := 0x1_0000_0000_0000_0000
  const INT32_MAX: nat := 0x7FFF_FFFF

  /** `size_t` addition. */
  function AddSize(a: nat, b: int): nat {
    (a + b) % SIZE_MODULUS
  }
}
