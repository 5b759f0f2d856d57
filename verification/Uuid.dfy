/** The canonical text of a UUID: lower-case hexadecimal in groups of 8, 4, 4, 4 and 12. */
module Uuid {
  predicate IsHex(c: char) {
    '0' <= c <= '9' || 'a' <= c <= 'f'
  }

  predicate IsDashPosition(k: int) {
    k == 8 || k == 13 || k == 18 || k == 23
  }

  predicate IsCanonical(s: string) {
    |s| == 36 && forall k | 0 <= k < 36 :: if IsDashPosition(k) then s[k] == '-' else IsHex(s[k])
  }
}
