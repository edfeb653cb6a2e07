/** An abstraction of password hashing. A digest embeds the salt it was made with, as a bcrypt
    digest does, so that comparing needs only the candidate and the digest. */
module Bcrypt {

  /** Length of a salt as `genSalt` produces it (`$2a$10$` and 22 characters). */
  const SaltLength: nat := 29

  type Salt = s: string | |s| == SaltLength witness "$2a$10$abcdefghijklmnopqrstuv"

  function Hash(salt: Salt, plain: string): (h: string)
    ensures |h| >= SaltLength && h[..SaltLength] == salt
  {
    salt + plain
  }

  /** `bcrypt.compare(candidate, digest)`: hash the candidate with the digest's own salt. */
  predicate Compare(candidate: string, digest: string)
  {
    |digest| >= SaltLength && digest == Hash(digest[..SaltLength], candidate)
  }

  /** A digest accepts the password it was made from, on every salt, and no other. */
  lemma CompareHash(salt: Salt, plain: string, candidate: string)
    ensures Compare(plain, Hash(salt, plain))
    ensures Compare(candidate, Hash(salt, plain)) <==> candidate == plain
  {
    var h := Hash(salt, plain);
    assert h[..SaltLength] == salt;
    if Compare(candidate, h) {
      assert h[SaltLength..] == plain;
      assert Hash(salt, candidate)[SaltLength..] == candidate;
    }
  }
}
