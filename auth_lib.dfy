/** The helpers the handlers import from lib/auth. Their code is not part of
    this model, so each is an arbitrary function handed to the handlers. */
module AuthLib {
  import opened Js

  /** What a verified token asserts: the id of the user it was issued for. */
  datatype Claims = Claims(userId: string)

  datatype Helpers = Helpers(
    /** The token in an `Authorization` header value (null when absent). */
    extractToken: Option<string> -> Option<string>,
    /** The claims of a token whose signature and expiry check out. */
    verifyToken: string -> Option<Claims>,
    /** Signs a token for a user id; None stands for the signer throwing. */
    generateToken: string -> Option<string>,
    /** The stored digest of a password. */
    hashPassword: Json -> string,
    /** Whether a password matches a stored digest. */
    comparePasswords: (Json, string) -> bool
  )

  /** The contract the hashing helpers are meant to keep: a password matches
      its own digest. Handlers do not rely on it; the lemma that registering
      makes logging in possible does. */
  predicate HashRoundTrips(lib: Helpers, password: Json) {
    lib.comparePasswords(password, lib.hashPassword(password))
  }
}
