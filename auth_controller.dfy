/**
 * The auth routes: forward validated input to the use cases, translate the
 * domain errors they expect into HTTP exceptions, and act on the principal
 * the guard attached.
 */
module AuthController {
  import opened Wrappers
  import opened DomainErrors
  import opened Text
  import opened UserEntity
  import opened Ports
  import opened Http
  import opened UserRepository
  import opened JwtAuthGuard
  import opened DomainExceptionFilter
  import opened Validation
  import RegisterDto
  import LoginDto
  import UpdateProfileDto
  import RegisterUserUseCase
  import LoginUseCase
  import GetProfileUseCase
  import UpdateProfileUseCase

  const InternalServerError := "Internal server error"

  /** What a route throws: an HTTP exception, or a domain error passed on unchanged. */
  datatype Thrown = Http(exception: HttpException) | Domain(error: DomainError)

  /** `register`'s catch: a ConflictError becomes a 409 exception with its message; anything else is rethrown. */
  function TranslateRegisterError(e: DomainError): (t: Thrown)
    ensures InstanceOf(e, Conflict) ==> t == Http(HttpException(CONFLICT, e.message))
    ensures !InstanceOf(e, Conflict) ==> t == Domain(e)
  {
    if InstanceOf(e, Conflict) then Http(HttpException(CONFLICT, e.message)) else Domain(e)
  }

  /** `loginRoute`'s catch: an UnauthorizedError becomes a 401 exception with its message; anything else is rethrown. */
  function TranslateLoginError(e: DomainError): (t: Thrown)
    ensures InstanceOf(e, Unauthorized) ==> t == Http(HttpException(UNAUTHORIZED, e.message))
    ensures !InstanceOf(e, Unauthorized) ==> t == Domain(e)
  {
    if InstanceOf(e, Unauthorized) then Http(HttpException(UNAUTHORIZED, e.message)) else Domain(e)
  }

  /**
   * The response for what a route throws, with the domain filter installed
   * globally: HTTP exceptions keep their status and message, the errors the
   * filter catches go through it, and any other error is a generic 500.
   */
  function Respond(t: Thrown): (r: HttpResponse)
    ensures r.body.statusCode == r.status
    ensures t.Http? ==> r.status == t.exception.status && r.body.message == t.exception.message
    ensures t.Domain? && Catches(t.error) ==> r == Catch(t.error)
    ensures t.Domain? && !Catches(t.error) ==> r.status == INTERNAL_SERVER_ERROR && r.body.message == InternalServerError
  {
    match t
    case Http(ex) => HttpResponse(ex.status, ErrorBody(ex.status, ex.message))
    case Domain(e) =>
      if Catches(e) then Catch(e)
      else HttpResponse(INTERNAL_SERVER_ERROR, ErrorBody(INTERNAL_SERVER_ERROR, InternalServerError))
  }

  /** The routes' own translations give the same status and message the global filter would. */
  lemma TranslationsAgreeWithFilter(e: DomainError)
    ensures Respond(TranslateRegisterError(e)) == Respond(Domain(e))
    ensures Respond(TranslateLoginError(e)) == Respond(Domain(e))
  {
  }

  /**
   * `register`: the four validated fields go to the use case unchanged; a
   * taken email ends in a 409 exception and nothing is written.
   */
  method Register(store: UserStore, hasher: HashService, tokens: TokenService, dto: RegisterDto.Dto, a: Assigned)
    returns (r: Result<AuthOutput, Thrown>)
    requires store.Valid()
    requires a.id !in store.rows
    modifies store
    ensures store.Valid()
    ensures r.Failure? <==> HasLiveEmail(old(store.rows), dto.email)
    ensures r.Failure? ==>
      && r.error == Http(HttpException(CONFLICT, RegisterUserUseCase.EmailTaken))
      && store.rows == old(store.rows)
    ensures r.Success? ==>
      var row := NewRow(CreateUserInput(dto.email, hasher.hash(dto.password), dto.firstName, dto.lastName), a);
      && store.rows == old(store.rows)[a.id := row]
      && r.value == AuthOutput(ToAuthUser(ToDomain(row)), tokens.sign(TokenPayload(a.id, Lower(dto.email))))
  {
    var input := RegisterUserUseCase.RegisterUserInput(dto.email, dto.password, dto.firstName, dto.lastName);
    var out := RegisterUserUseCase.Execute(store, hasher, tokens, input, a);
    match out
    case Success(v) => r := Success(v);
    case Failure(e) => r := Failure(TranslateRegisterError(e));
  }

  /** `loginRoute`: forwards email and password; both login failures end in the same 401 exception. */
  function LoginRoute(t: Table, hasher: HashService, tokens: TokenService, dto: LoginDto.Dto): (r: Result<AuthOutput, Thrown>)
    requires LiveEmailsUnique(t)
    ensures r.Failure? ==> r.error == Http(HttpException(UNAUTHORIZED, LoginUseCase.InvalidCredentials))
    ensures r.Success? <==> LoginUseCase.Execute(t, hasher, tokens, LoginUseCase.LoginInput(dto.email, dto.password)).Success?
    ensures r.Success? ==> r.value == LoginUseCase.Execute(t, hasher, tokens, LoginUseCase.LoginInput(dto.email, dto.password)).value
  {
    match LoginUseCase.Execute(t, hasher, tokens, LoginUseCase.LoginInput(dto.email, dto.password))
    case Success(v) => Success(v)
    case Failure(e) => Failure(TranslateLoginError(e))
  }

  /** `me`: the profile of the user the guard authenticated, or a 404 when that user is gone. */
  function Me(t: Table, principal: Principal): (r: Result<AuthUser, Thrown>)
    requires KeysAreIds(t)
    ensures r.Success? <==> principal.userId in t && Live(t[principal.userId])
    ensures r.Success? ==> r.value.id == principal.userId && r.value == ToAuthUser(ToDomain(t[principal.userId]))
    ensures r.Failure? ==> Respond(r.error) == HttpResponse(NOT_FOUND, ErrorBody(NOT_FOUND, GetProfileUseCase.UserNotFound))
  {
    match GetProfileUseCase.Execute(t, principal.userId)
    case Success(p) => Success(p)
    case Failure(e) => Failure(Domain(e))
  }

  /** `updateMe`'s partial input: a name is passed only when it is neither null nor absent. */
  function PartialOf(b: UpdateProfileDto.Body): (p: UpdateUserProfileInput)
    requires UpdateProfileDto.OptionalName(b.firstName) && UpdateProfileDto.OptionalName(b.lastName)
    ensures p.firstName.None? <==> b.firstName.Missing? || b.firstName.Null?
    ensures p.firstName.Some? ==> b.firstName == Str(p.firstName.value)
    ensures p.lastName.None? <==> b.lastName.Missing? || b.lastName.Null?
    ensures p.lastName.Some? ==> b.lastName == Str(p.lastName.value)
  {
    UpdateUserProfileInput(
      if b.firstName.Str? then Some(b.firstName.s) else None,
      if b.lastName.Str? then Some(b.lastName.s) else None)
  }

  /**
   * `updateMe`: updates the authenticated user's own row with the names the
   * body supplies, or ends in a 404 with nothing written when that user is gone.
   */
  method UpdateMe(store: UserStore, principal: Principal, b: UpdateProfileDto.Body, now: Timestamp)
    returns (r: Result<AuthUser, Thrown>)
    requires store.Valid()
    requires UpdateProfileDto.OptionalName(b.firstName) && UpdateProfileDto.OptionalName(b.lastName)
    modifies store
    ensures store.Valid()
    ensures r.Failure? <==> FindById(old(store.rows), principal.userId).None?
    ensures r.Failure? ==>
      && Respond(r.error) == HttpResponse(NOT_FOUND, ErrorBody(NOT_FOUND, GetProfileUseCase.UserNotFound))
      && store.rows == old(store.rows)
    ensures r.Success? ==>
      && r.value.id == principal.userId
      && store.rows == old(store.rows)[principal.userId := ApplyProfileUpdate(old(store.rows)[principal.userId], PartialOf(b), now)]
      && r.value == ToAuthUser(ToDomain(store.rows[principal.userId]))
  {
    var out := UpdateProfileUseCase.Execute(store, principal.userId, PartialOf(b), now);
    match out
    case Success(p) => r := Success(p);
    case Failure(e) => r := Failure(Domain(e));
  }

  /**
   * End to end: the token a registration returns, sent back as a bearer
   * header, authenticates the new user, and `me` then returns that user's profile.
   */
  lemma {:induction false} RegisteredTokenOpensProfile(t: Table, hasher: HashService, tokens: TokenService,
                                                       input: RegisterUserUseCase.RegisterUserInput, a: Assigned)
    requires TableInvariant(t)
    requires a.id !in t
    requires !HasLiveEmail(t, input.email)
    requires TokenRoundTrip(tokens)
    ensures
      var row := NewRow(RegisterUserUseCase.CreateInputOf(input, hasher), a);
      var t' := t[a.id := row];
      var token := tokens.sign(TokenPayload(row.id, row.email));
      && KeysAreIds(t')
      && Authorize(Some(BearerPrefix + token), tokens) == Verified(Principal(a.id, row.email))
      && Me(t', Principal(a.id, row.email)) == Success(ToAuthUser(ToDomain(row)))
  {
    var data := RegisterUserUseCase.CreateInputOf(input, hasher);
    var row := NewRow(data, a);
    InsertKeepsInvariant(t, data, a, input.email);
    SignedTokenVerifies(tokens, TokenPayload(row.id, row.email));
  }
}
