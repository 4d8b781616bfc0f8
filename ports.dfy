/**
 * The ports the use cases depend on, with their adapters left abstract:
 * the password hasher and the token signer/verifier are arbitrary functions.
 */
module Ports {
  import opened Wrappers

  /** Password hashing: `hash(plain)` and `compare(plain, hash)`. */
  datatype HashService = HashService(hash: string -> string, compare: (string, string) -> bool)

  /** The claims a token carries. */
  datatype TokenPayload = TokenPayload(sub: string, email: string)

  /** Token issuance and verification; `verify` gives `None` when it would throw. */
  datatype TokenService = TokenService(sign: TokenPayload -> string, verify: string -> Option<TokenPayload>)

  /** A password always matches its own hash. */
  ghost predicate HashAgreement(h: HashService) {
    forall plain :: h.compare(plain, h.hash(plain))
  }

  /** Signed tokens are non-empty and verify back to exactly the payload that was signed. */
  ghost predicate TokenRoundTrip(t: TokenService) {
    forall p :: t.sign(p) != "" && t.verify(t.sign(p)) == Some(p)
  }

  /** What the store needs to insert a user. */
  datatype CreateUserInput = CreateUserInput(email: string, passwordHash: string, firstName: string, lastName: string)

  /** A partial profile update; `None` is an absent (or null) field. */
  datatype UpdateUserProfileInput = UpdateUserProfileInput(firstName: Option<string>, lastName: Option<string>)
}
