// Character classes shared by the scanner and the emitter
// (crates/yamluna-scanner/src/char_traits.rs).
module CharTraits {

  const NUL := '\0'

  predicate IsZ(c: char) {
    c == NUL
  }

  predicate IsBreak(c: char) {
    c == '\n' || c == '\r'
  }

  predicate IsBreakz(c: char) {
    IsBreak(c) || IsZ(c)
  }

  predicate IsBlank(c: char) {
    c == ' ' || c == '\t'
  }

  predicate IsBlankOrBreakz(c: char) {
    IsBlank(c) || IsBreakz(c)
  }

  predicate IsDigit(c: char) {
    '0' <= c <= '9'
  }

  predicate IsFlow(c: char) {
    c == ',' || c == '[' || c == ']' || c == '{' || c == '}'
  }

  predicate IsHex(c: char) {
    IsDigit(c) || 'a' <= c <= 'f' || 'A' <= c <= 'F'
  }

  // The value of a hexadecimal digit, whatever its case.
  function AsHex(c: char): (n: nat)
    requires IsHex(c)
    ensures n < 16
  {
    if IsDigit(c) then c as int - '0' as int
    else if 'a' <= c <= 'f' then c as int - 'a' as int + 10
    else c as int - 'A' as int + 10
  }

  // The digit the emitter's `{:x}` format writes for `n`.
  function HexDigit(n: nat): (c: char)
    requires n < 16
    ensures IsHex(c) && AsHex(c) == n
    ensures !('A' <= c <= 'F')
  {
    if n < 10 then ('0' as int + n) as char else ('a' as int + n - 10) as char
  }

  // Whether `n` is a Unicode scalar value, i.e. something `char::from_u32` accepts.
  predicate IsScalarValue(n: int) {
    0 <= n < 0xD800 || 0xE000 <= n < 0x11_0000
  }
}
