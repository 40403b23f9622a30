/** The digest the ledger and the cache rely on. SHA-256 stays a parameter: any function from
    texts to digests. Nothing assumes that it is injective (no function onto 64 hexadecimal
    characters is); the theorems say which two texts would have to collide instead. */
module Hashing {

  predicate IsHex(c: char) {
    '0' <= c <= '9' || 'a' <= c <= 'f'
  }

  predicate IsDigest(s: string) {
    |s| == 64 && forall i :: 0 <= i < |s| ==> IsHex(s[i])
  }

  /** Lower-case hexadecimal text of 32 bytes. */
  type Digest = s: string | IsDigest(s)
    witness seq(64, _ => '0')

  type Hash = string -> Digest

  /** Two different texts with one digest. */
  predicate Collide(h: Hash, a: string, b: string) {
    a != b && h(a) == h(b)
  }
}
