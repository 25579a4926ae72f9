/**
 * Byte strings, as Go's `string` holds them, and the few operations of Go's
 * `strings` package that the generator applies to file names.
 */
module Bytes {

  newtype byte = b: int | 0 <= b < 256

  type Bytes = seq<byte>

  /** The bytes of a string literal written in ASCII (each character taken modulo 256). */
  function Ascii(s: string): (r: Bytes)
    ensures |r| == |s|
  {
    seq(|s|, i requires 0 <= i < |s| => (s[i] as int % 256) as byte)
  }

  predicate IsAscii(b: byte) { b < 0x80 }

  predicate IsUpper(b: byte) { 'A' as byte <= b <= 'Z' as byte }

  /** `suffix` is a trailing part of `s` (strings.HasSuffix). */
  predicate HasSuffix(s: Bytes, suffix: Bytes) {
    |suffix| <= |s| && s[|s| - |suffix|..] == suffix
  }

  /** strings.TrimSuffix: `s` without one trailing `suffix`, or `s` itself when it has none. */
  function TrimSuffix(s: Bytes, suffix: Bytes): (r: Bytes)
    ensures HasSuffix(s, suffix) ==> r + suffix == s
    ensures !HasSuffix(s, suffix) ==> r == s
  {
    if HasSuffix(s, suffix) then s[..|s| - |suffix|] else s
  }

  /** UTF-8 encoding of U+FFFD, which Go writes in place of a byte that is not valid UTF-8. */
  const Replacement: Bytes := [0xEF, 0xBF, 0xBD]

  /**
   * strings.ToLower applied to the one-byte string `[b]`: an ASCII capital letter
   * becomes its small letter, any other ASCII byte stays, and a byte of 0x80 or
   * more, being no valid UTF-8 on its own, comes back as the replacement character.
   */
  function ToLowerByte(b: byte): (r: Bytes)
    ensures IsAscii(b) ==> |r| == 1 && IsAscii(r[0]) && !IsUpper(r[0])
    ensures IsAscii(b) && !IsUpper(b) ==> r == [b]
    ensures IsUpper(b) ==> r[0] as int - b as int == 'a' as int - 'A' as int
    ensures !IsAscii(b) ==> r == Replacement
  {
    if IsUpper(b) then [b + 32]
    else if IsAscii(b) then [b]
    else Replacement
  }
}
