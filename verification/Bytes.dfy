/** Fixed-width integers of the emulator and the conversions C performs on them. */
module Bytes {

  type u8 = x: int | 0 <= x < 0x100
  type u16 = x: int | 0 <= x < 0x1_0000
  type u32 = x: int | 0 <= x < 0x1_0000_0000

  /** The signed cells `snes_ram` stores its bytes in. */
  newtype i8 = x: int | -0x80 <= x < 0x80

  datatype Option<+T> = None | Some(value: T)

  /** The low and high halves of the `value16` / `value8_low` / `value8_high` union. */
  function Low(v: u16): u8 { v % 0x100 }

  function High(v: u16): u8 { v / 0x100 }

  function Word(low: u8, high: u8): u16 { low + 0x100 * high }

  /** Conversion of any C integer to `uint8_t`, `uint16_t` or `uint32_t`. */
  function Trunc8(x: int): u8 { x % 0x100 }

  function Trunc16(x: int): u16 { x % 0x1_0000 }

  function Trunc32(x: int): u32 { x % 0x1_0000_0000 }

  /** `(int8_t)` and `(int16_t)` of an unsigned value. */
  function Signed8(x: u8): int { if x < 0x80 then x else x - 0x100 }

  function Signed16(x: u16): int { if x < 0x8000 then x else x - 0x1_0000 }

  /** The conversion `int8_t data` of a byte handed to `snes_ram_write`, and back on reading. */
  function ToCell(x: u8): i8 { Signed8(x) as i8 }

  function FromCell(c: i8): (x: u8)
    ensures ToCell(x) == c
  {
    Trunc8(c as int)
  }

  lemma CellRoundTrip(x: u8)
    ensures FromCell(ToCell(x)) == x
  {
  }

  lemma WordParts(low: u8, high: u8)
    ensures Low(Word(low, high)) == low && High(Word(low, high)) == high
  {
  }

  /** A slice of a slice. */
  lemma SubSlice(s: seq<u8>, o: nat, n: nat, i: nat, k: nat)
    requires o + n <= |s| && i <= k <= n
    ensures s[o..o + n][i..k] == s[o + i..o + k]
  {
    var a, b := s[o..o + n][i..k], s[o + i..o + k];
    forall j | 0 <= j < |a|
      ensures a[j] == b[j]
    {
      assert s[o..o + n][i + j] == s[o + (i + j)];
    }
  }

  lemma MulMono(x: int, y: int, p: nat)
    requires x <= y
    ensures x * p <= y * p
  {
  }
}
