/**
 * The fixed-width value types that the record's fields have on the managed side:
 * `int` is a 32-bit two's-complement integer and `IntPtr` a native-sized signed
 * address, taken here at its 64-bit width.
 */
module Interop {

  /** A 32-bit signed integer (C# `int`). */
  newtype Int32 = x: int | -0x8000_0000 <= x < 0x8000_0000

  /** A native-sized signed address (C# `IntPtr`), 64 bits wide. */
  newtype IntPtr = x: int | -0x8000_0000_0000_0000 <= x < 0x8000_0000_0000_0000

  /** The null address, `IntPtr.Zero`. */
  const Zero: IntPtr := 0
}
