/**
 * The argon2 library as the services use it. Its internals (salting, the
 * memory-hard function, constant-time comparison) are not modelled: a Hasher
 * is any pair of functions, and Sound() states what the session logic relies on.
 */
module Hashing {
  /** The random salt argon2 draws on every call; a parameter of the model. */
  type Salt = nat

  /** `hash(secret, salt)` is the encoded digest stored in the database;
      `verify(digest, secret)` checks a presented secret against it. */
  datatype Hasher = Hasher(hash: (string, Salt) -> string, verify: (string, string) -> bool)
  {
    /** A digest accepts exactly the secret it was made from, whatever salt
        was drawn, and is never the secret itself. */
    ghost predicate Sound() {
      && (forall secret, salt, candidate :: verify(hash(secret, salt), candidate) <==> candidate == secret)
      && (forall secret, salt :: hash(secret, salt) != secret)
    }
  }
}
