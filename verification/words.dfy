/** Machine words shared by every part of the model. */
module Words {

  /** The modulus of 32-bit unsigned arithmetic. */
  const Modulus: int := 0x1_0000_0000

  /**
    A `uint32_t` value as held in a register or an address. Arithmetic on
    it is written out modulo `Modulus` wherever the source wraps.
   */
  type Word = w: int | 0 <= w < 0x1_0000_0000

  /** An `int32_t` value, as a C function returns it. */
  type Int32 = x: int | -0x8000_0000 <= x < 0x8000_0000

  /** An optional value, used where a decoder can reject its input. */
  datatype Option<T> = None | Some(value: T)
}
