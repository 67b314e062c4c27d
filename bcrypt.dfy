/**
 * A stand-in for bcrypt. Salts and the cost factor are not modelled: a digest is
 * a fixed header followed by the plaintext, which gives the single property the
 * backend relies on, that a plaintext matches the digest of exactly itself.
 */
module Bcrypt {

  /** The header bcrypt writes before a digest of cost 10. */
  const Header: string := "$2b$10$"

  /** `bcrypt.hash(plain, 10)`. */
  function Hash(plain: string): (digest: string)
    ensures |digest| == |Header| + |plain|
  {
    Header + plain
  }

  /** `bcrypt.compare(plain, digest)` for a digest that is present. */
  predicate Compare(plain: string, digest: string) {
    digest == Hash(plain)
  }

  /** A plaintext matches the hash of another string exactly when the two are equal. */
  lemma CompareHash(plain: string, other: string)
    ensures Compare(plain, Hash(other)) <==> plain == other
  {
    if Compare(plain, Hash(other)) {
      assert plain == Hash(plain)[|Header|..];
      assert other == Hash(other)[|Header|..];
    }
  }

  /**
   * Hashing a digest a second time leaves a value that the original plaintext no
   * longer matches; only the first digest, used as a password, would match it.
   */
  lemma RehashLocksOut(plain: string)
    ensures !Compare(plain, Hash(Hash(plain)))
    ensures Compare(Hash(plain), Hash(Hash(plain)))
  {
    CompareHash(plain, Hash(plain));
  }
}
