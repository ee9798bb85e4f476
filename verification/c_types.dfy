/** Constants and widths of the C code. */
module CTypes {
  const NUL: char := 0 as char
  const WORD32: nat := 0x1_0000_0000
  const WORD64: nat := 0x1_0000_0000_0000_0000

  type U32 = n: nat | n < 0x1_0000_0000 witness 0
}
