/** Fixed-width C integer types and the function-pointer type shared by the drivers. */
module CTypes {

  /** uint8_t */
  newtype u8 = x: int | 0 <= x < 0x100

  /** uint16_t */
  newtype u16 = x: int | 0 <= x < 0x1_0000

  /** uint32_t */
  newtype u32 = x: int | 0 <= x < 0x1_0000_0000

  /** A `void (*)(void)` callback pointer: NULL, or some application function
      identified by an opaque name. */
  datatype FuncPtr = Null | Fn(id: nat)

  datatype Option<T> = None | Some(value: T)
}
