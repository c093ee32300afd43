/** Byte classes and the identifier rule shared by the member and product services. */
module Text {
  import opened CTypes

  const HYPHEN: byte := 0x2D      // '-'
  const UNDERSCORE: byte := 0x5F  // '_'
  const SPACE: byte := 0x20       // ' '

  /** `std::isalnum` in the "C" locale: ASCII digits and letters only, so no byte
      of a multi-byte UTF-8 character counts. */
  predicate IsAlnum(b: byte) {
    (0x30 <= b <= 0x39) || (0x41 <= b <= 0x5A) || (0x61 <= b <= 0x7A)
  }

  /** A byte allowed in a member or product id. */
  predicate IsIdByte(b: byte) {
    IsAlnum(b) || b == HYPHEN || b == UNDERSCORE
  }

  /** The id rule of `validateId`: 1 to 50 bytes, each an ASCII letter or digit, `-` or `_`. */
  predicate ValidId(id: Bytes) {
    1 <= |id| <= 50 && forall i :: 0 <= i < |id| ==> IsIdByte(id[i])
  }

  /** An id accepted by the rule can be pasted between the quotes of an SQL string literal
      without closing it: it holds no quote, backslash or space. */
  lemma ValidIdHasNoQuote(id: Bytes)
    requires ValidId(id)
    ensures forall i :: 0 <= i < |id| ==> id[i] != 0x27 && id[i] != 0x22 && id[i] != 0x5C && id[i] != SPACE
  {
  }
}
