/** The password-hashing collaborator (argon2), as a symbolic primitive.

    A digest is a term built from the salt and the plaintext. Nothing in the
    service ever looks inside it: it is only stored and handed back to
    `Verify`, which is how a one-way function is treated in a symbolic
    protocol model. The salt, drawn at random by the library, is an input. */
module Argon2 {

  datatype Digest = Argon2id(salt: string, preimage: string)

  /** `argon2.hash(password)` with the salt the library drew. */
  function Hash(password: string, salt: string): (h: Digest)
    ensures forall attempt :: Verify(h, attempt) <==> attempt == password
  {
    Argon2id(salt, password)
  }

  /** `argon2.verify(hash, password)`: whether hashing `password` again
      under the salt stored in the digest reproduces the digest. */
  predicate Verify(h: Digest, password: string): (ok: bool)
    ensures ok <==> h == Argon2id(h.salt, password)
  {
    h.preimage == password
  }
}
