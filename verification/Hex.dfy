/** Hexadecimal digits as hydracom/hydra.c and ddz/zm.c write and read them.  Both
    readers subtract and test the range afterwards, so the ten characters in front of
    'a' are read as digits too. */
module Hex {
  import opened Crc

  function HexDigit(n: byte): byte { if n < 10 then n + 48 else n + 87 }

  const BAD_DIGIT: byte := 255

  function Digit(b: byte): byte {
    if 48 <= b <= 57 then b - 48 else if 87 <= b <= 102 then b - 87 else BAD_DIGIT
  }
}
