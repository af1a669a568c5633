/** The fixed-width Java value types the model needs. Dafny integers are
    unbounded, so every field the source declares as `int`, `Integer`,
    `long` or `Long` carries its range explicitly. */
module Primitives {

  /** Java `int` / `Integer`: two's-complement 32-bit. */
  type Int32 = x: int | -0x8000_0000 <= x < 0x8000_0000

  /** Java `long` / `Long`: two's-complement 64-bit. */
  type Int64 = x: int | -0x8000_0000_0000_0000 <= x < 0x8000_0000_0000_0000

  /** One element of a Java `byte[]`, seen as its eight bits. */
  type byte = bv8
}
