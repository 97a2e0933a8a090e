/** The one test of identifiers that the cache and normalization share. */
module Ids {
  const MAX_ID: nat := 64

  predicate IdChar(c: char) {
    'a' <= c <= 'z' || 'A' <= c <= 'Z' || '0' <= c <= '9' || c == '_' || c == '-'
  }

  // Each such character is one byte, so characters are counted where the bound is on bytes.
  predicate ValidId(s: string) { 1 <= |s| <= MAX_ID && forall i :: 0 <= i < |s| ==> IdChar(s[i]) }
}
