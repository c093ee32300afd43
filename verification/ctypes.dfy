/** The C++ value types the core works with, with their widths written out. */
module CTypes {

  datatype Option<T> = None | Some(value: T)

  /** `unsigned char`: one byte of a `std::string`. */
  newtype byte = b: int | 0 <= b < 0x100

  /** A `std::string` seen as the bytes it holds (UTF-8 text is several bytes per character). */
  type Bytes = seq<byte>

  /** `int` on the target platform: 32 bits, two's complement. */
  newtype int32 = x: int | -0x8000_0000 <= x < 0x8000_0000

  /** `size_t`: 64 bits, arithmetic modulo 2^64. */
  const SIZE_MODULUS: int := 0x1_0000_0000_0000_0000

  /** `a - b` on `size_t` operands: wraps around below zero. */
  function SizeMinus(a: nat, b: nat): (r: nat)
    requires a < SIZE_MODULUS && b < SIZE_MODULUS
    ensures r < SIZE_MODULUS
    ensures b <= a ==> r == a - b
    ensures a < b ==> r == SIZE_MODULUS - (b - a)
  {
    (a - b) % SIZE_MODULUS
  }

  /** `s.substr(pos, count)`: at most `count` bytes starting at `pos`
      (the library throws when `pos > |s|`, which callers here never pass). */
  function Substr(s: Bytes, pos: nat, count: nat): (r: Bytes)
    requires pos <= |s|
    ensures |r| == if count < |s| - pos then count else |s| - pos
    ensures forall k :: 0 <= k < |r| ==> r[k] == s[pos + k]
  {
    if count < |s| - pos then s[pos..pos + count] else s[pos..]
  }
}
