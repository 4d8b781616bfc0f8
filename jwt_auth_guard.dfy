/**
 * The bearer-token guard: extract the credential from an
 * `Authorization: Bearer <token>` header (the header form of section 2.1 of
 * RFC 6750, matched case-sensitively), verify it, and attach the principal.
 */
module JwtAuthGuard {
  import opened Wrappers
  import opened Text
  import opened Ports
  import opened Http

  const BearerPrefix := "Bearer "
  const TokenMissing := "Token não informado"
  const TokenInvalid := "Token inválido ou expirado"

  /** The authenticated identity attached to a request. */
  datatype Principal = Principal(userId: string, email: string)

  /** The three ends of the guard: no credential, a rejected one, or a verified principal. */
  datatype GuardOutcome = NoCredential | Rejected | Verified(principal: Principal)

  /** The token: the header after its first 7 characters, when it starts with exactly "Bearer ". */
  function BearerToken(authorization: Option<string>): (token: Option<string>)
    ensures token.Some? <==> authorization.Some? && StartsWith(authorization.value, BearerPrefix)
    ensures token.Some? ==> authorization.value == BearerPrefix + token.value
  {
    if authorization.Some? && StartsWith(authorization.value, BearerPrefix) then
      Some(authorization.value[|BearerPrefix|..])
    else
      None
  }

  /** A header built as "Bearer " followed by a token gives that token back. */
  lemma BearerTokenRoundTrip(token: string)
    ensures BearerToken(Some(BearerPrefix + token)) == Some(token)
  {
    assert (BearerPrefix + token)[..|BearerPrefix|] == BearerPrefix;
  }

  /**
   * The decision `canActivate` makes: an absent or empty token is
   * NoCredential; otherwise the token is Rejected when `verify` fails and
   * Verified with `{userId: sub, email}` when it succeeds.
   */
  function Authorize(authorization: Option<string>, tokens: TokenService): (o: GuardOutcome)
    ensures o.NoCredential? <==> BearerToken(authorization) in {None, Some("")}
    ensures !o.NoCredential? ==> (o.Rejected? <==> tokens.verify(BearerToken(authorization).value).None?)
    ensures o.Verified? ==>
      var payload := tokens.verify(BearerToken(authorization).value).value;
      o.principal == Principal(payload.sub, payload.email)
  {
    match BearerToken(authorization)
    case None => NoCredential
    case Some(token) =>
      if token == "" then NoCredential
      else
        match tokens.verify(token)
        case None => Rejected
        case Some(payload) => Verified(Principal(payload.sub, payload.email))
  }

  /** A token the token service signed, presented as a bearer header, verifies to its own claims. */
  lemma SignedTokenVerifies(tokens: TokenService, payload: TokenPayload)
    requires TokenRoundTrip(tokens)
    ensures Authorize(Some(BearerPrefix + tokens.sign(payload)), tokens) == Verified(Principal(payload.sub, payload.email))
  {
    BearerTokenRoundTrip(tokens.sign(payload));
  }

  /** A header that does not start with exactly "Bearer " (another scheme, or "bearer ") carries no credential. */
  lemma OtherSchemeHasNoCredential(header: string, tokens: TokenService)
    requires !StartsWith(header, BearerPrefix)
    ensures Authorize(Some(header), tokens) == NoCredential
  {
  }

  /** An incoming request: its Authorization header and the `user` the guard may attach. */
  class Request {
    const authorization: Option<string>
    var user: Option<Principal>

    constructor (authorization: Option<string>)
      ensures this.authorization == authorization && user == None
    {
      this.authorization := authorization;
      user := None;
    }
  }

  /**
   * `canActivate`: returns true or throws, never false; the principal is
   * attached to the request only after a successful verification.
   */
  method CanActivate(request: Request, tokens: TokenService) returns (r: Result<bool, HttpException>)
    modifies request
    ensures r.Success? ==> r.value
    ensures match Authorize(request.authorization, tokens)
      case NoCredential =>
        r == Failure(HttpException(UNAUTHORIZED, TokenMissing)) && request.user == old(request.user)
      case Rejected =>
        r == Failure(HttpException(UNAUTHORIZED, TokenInvalid)) && request.user == old(request.user)
      case Verified(p) =>
        r == Success(true) && request.user == Some(p)
  {
    var token := BearerToken(request.authorization);
    if token.None? || token.value == "" {
      return Failure(HttpException(UNAUTHORIZED, TokenMissing));
    }
    var payload := tokens.verify(token.value);
    if payload.None? {
      return Failure(HttpException(UNAUTHORIZED, TokenInvalid));
    }
    request.user := Some(Principal(payload.value.sub, payload.value.email));
    r := Success(true);
  }
}
