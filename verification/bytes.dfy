/**
 * Bytes and "binary strings": strings of one character per byte, which is
 * how `atob`, `btoa`, `String.fromCharCode` and `charCodeAt` carry bytes.
 */
module Bytes {

  /** An element of a `Uint8Array`. */
  type Byte = b: int | 0 <= b < 256

  /** Every character of `s` has a code below 256, so `s` can stand for bytes. */
  predicate IsBinaryString(s: string) {
    forall k | 0 <= k < |s| :: s[k] as int < 256
  }

  /**
   * The string built by appending `String.fromCharCode(bytes[i])` for each
   * byte in order: one character per byte, whose code is the byte.
   */
  function FromCharCodes(bytes: seq<Byte>): (s: string)
    ensures |s| == |bytes|
    ensures forall k | 0 <= k < |s| :: s[k] as int == bytes[k]
    ensures IsBinaryString(s)
  {
    seq(|bytes|, k requires 0 <= k < |bytes| => bytes[k] as char)
  }

  /**
   * The bytes stored by `u8[i] = s.charCodeAt(i)` for each index: a
   * `Uint8Array` keeps each code modulo 256.
   */
  function CharCodes(s: string): (bytes: seq<Byte>)
    ensures |bytes| == |s|
    ensures forall k | 0 <= k < |s| :: bytes[k] == (s[k] as int) % 256
    ensures IsBinaryString(s) ==> forall k | 0 <= k < |s| :: bytes[k] == s[k] as int
  {
    seq(|s|, k requires 0 <= k < |s| => (s[k] as int) % 256)
  }

  /** Reading the codes of a string built from bytes gives the bytes back. */
  lemma CharCodesOfFromCharCodes(bytes: seq<Byte>)
    ensures CharCodes(FromCharCodes(bytes)) == bytes
  {
  }

  /** A binary string is rebuilt exactly from its codes. */
  lemma FromCharCodesOfCharCodes(s: string)
    requires IsBinaryString(s)
    ensures FromCharCodes(CharCodes(s)) == s
  {
  }
}
