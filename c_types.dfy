/** The C integer types of cpu.h and main.c. Registers and port latches are
    bit-vectors, so that C's `&`, `|`, `<<`, `>>` and the truncating
    conversions are Dafny's own operators on them; the 16-bit program
    counter and stack pointer are used as addresses and are integers below
    0x10000, and where the program counter advances its wrap-around is
    written out. */
module CTypes {

  /** `uint8_t` */
  type byte = bv8

  /** `uint16_t` as an operand of bitwise expressions */
  type word = bv16

  /** C's `int`, to which every operand of a shift or a bitwise operator is
      promoted. No value the handlers compute is negative or anywhere near
      2^31, so 32 unsigned bits behave as the signed type does. */
  type cint = bv32

  /** `uint16_t` registers that hold addresses */
  type address = x: int | 0 <= x < 0x1_0000

  /** Conversion of an `int` to `uint8_t`: the low 8 bits. A value that
      already fits is kept as it is, and the result never exceeds 0xff. */
  function ToU8(x: cint): (r: byte)
    ensures x <= 0xff ==> r as cint == x
  {
    (x & 0xff) as byte
  }

  /** Conversion of an `int` to `uint16_t`: the low 16 bits. A value that
      already fits is kept as it is. */
  function ToU16(x: cint): (r: word)
    ensures x <= 0xffff ==> r as cint == x
  {
    (x & 0xffff) as word
  }
}
