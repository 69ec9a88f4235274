/**
 * The password hasher the authentication controller calls (BCrypt in the
 * source). A stored hash embeds the salt it was derived with, so that a
 * later verification can re-derive the digest from the plaintext alone.
 * The key-derivation function itself is a parameter: every property below
 * holds for every choice of it.
 */
module PasswordHasher {

  /** Length of the salt field at the front of a stored hash string. */
  const SaltLength: nat := 22

  /** A per-credential salt: drawn at random by the library, a parameter here. */
  type Salt = s: string | |s| == SaltLength witness "......................"

  /** The slow one-way function from a plaintext and a salt to a digest. */
  type Kdf = (string, Salt) -> string

  /** The stored form of a password: its salt followed by the derived digest. */
  function HashPassword(derive: Kdf, password: string, salt: Salt): (stored: string)
    ensures WellFormed(stored) && SaltOf(stored) == salt
    ensures stored[SaltLength..] == derive(password, salt)
  {
    salt + derive(password, salt)
  }

  /** A stored hash long enough to carry a salt. */
  predicate WellFormed(stored: string)
  {
    |stored| >= SaltLength
  }

  /** The salt embedded in a well-formed stored hash. */
  function SaltOf(stored: string): Salt
    requires WellFormed(stored)
  {
    stored[..SaltLength]
  }

  /**
   * Whether `password` is the plaintext behind `stored`: re-derive with the
   * embedded salt and compare. A malformed stored hash never verifies.
   */
  predicate Verify(derive: Kdf, password: string, stored: string): (ok: bool)
    ensures !WellFormed(stored) ==> !ok
    ensures ok ==> stored == HashPassword(derive, password, SaltOf(stored))
  {
    WellFormed(stored) && derive(password, SaltOf(stored)) == stored[SaltLength..]
  }

  /** Hashing then verifying the same plaintext succeeds, whatever the salt. */
  lemma HashThenVerify(derive: Kdf, password: string, salt: Salt)
    ensures Verify(derive, password, HashPassword(derive, password, salt))
  {
  }

  /**
   * Verification succeeds exactly when the stored hash is what hashing the
   * plaintext with the stored salt would produce.
   */
  lemma VerifyIffRehash(derive: Kdf, password: string, stored: string)
    ensures Verify(derive, password, stored)
        <==> WellFormed(stored) && stored == HashPassword(derive, password, SaltOf(stored))
  {
  }

  /**
   * Hashing one plaintext with two different salts gives two different
   * stored hashes, and both of them verify that plaintext.
   */
  lemma FreshSaltsGiveDistinctHashes(derive: Kdf, password: string, s1: Salt, s2: Salt)
    requires s1 != s2
    ensures HashPassword(derive, password, s1) != HashPassword(derive, password, s2)
    ensures Verify(derive, password, HashPassword(derive, password, s1))
    ensures Verify(derive, password, HashPassword(derive, password, s2))
  {
  }
}
