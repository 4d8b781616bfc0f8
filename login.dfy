/** Login: look the user up by email, check the password against the stored hash, sign a token. */
module LoginUseCase {
  import opened Wrappers
  import opened Text
  import opened DomainErrors
  import opened UserEntity
  import opened Ports
  import opened UserRepository

  const InvalidCredentials := "Credenciais inválidas"

  datatype LoginInput = LoginInput(email: string, password: string)

  /**
   * `execute`: succeeds exactly when a live user has the email and `compare`
   * accepts (supplied password, stored hash); every failure is the same
   * UnauthorizedError. Reading the table only, it never writes.
   */
  function Execute(t: Table, hasher: HashService, tokens: TokenService, input: LoginInput): (r: Result<AuthOutput, DomainError>)
    requires LiveEmailsUnique(t)
    ensures r.Failure? ==> r.error == NewUnauthorizedError(InvalidCredentials)
    ensures r.Success? <==>
      FindByEmail(t, input.email).Some? && hasher.compare(input.password, FindByEmail(t, input.email).value.password)
    ensures r.Success? ==>
      var u := FindByEmail(t, input.email).value;
      r.value == AuthOutput(ToAuthUser(u), tokens.sign(TokenPayload(u.id, u.email)))
  {
    match FindByEmail(t, input.email)
    case None => Failure(NewUnauthorizedError(InvalidCredentials))
    case Some(user) =>
      if !hasher.compare(input.password, user.password) then
        Failure(NewUnauthorizedError(InvalidCredentials))
      else
        var token := tokens.sign(TokenPayload(user.id, user.email));
        Success(AuthOutput(ToAuthUser(user), token))
  }

  /** An unknown email and a wrong password fail identically, so a caller cannot tell them apart. */
  lemma FailuresIndistinguishable(t: Table, hasher: HashService, tokens: TokenService, unknown: LoginInput, wrong: LoginInput)
    requires LiveEmailsUnique(t)
    requires !HasLiveEmail(t, unknown.email)
    requires HasLiveEmail(t, wrong.email)
    requires !hasher.compare(wrong.password, FindByEmail(t, wrong.email).value.password)
    ensures Execute(t, hasher, tokens, unknown).Failure?
    ensures Execute(t, hasher, tokens, unknown) == Execute(t, hasher, tokens, wrong)
  {
  }

  /**
   * A freshly registered user can log in with the same password and any case
   * variant of the email, and receives a token for the new id and stored email.
   */
  lemma {:induction false} LoginAfterRegistration(t: Table, hasher: HashService, tokens: TokenService,
                                                  data: CreateUserInput, password: string, a: Assigned, input: LoginInput)
    requires TableInvariant(t)
    requires a.id !in t
    requires !HasLiveEmail(t, data.email)
    requires HashAgreement(hasher)
    requires data.passwordHash == hasher.hash(password)
    requires Lower(input.email) == Lower(data.email) && input.password == password
    ensures TableInvariant(t[a.id := NewRow(data, a)])
    ensures Execute(t[a.id := NewRow(data, a)], hasher, tokens, input)
         == Success(AuthOutput(ToAuthUser(ToDomain(NewRow(data, a))),
                               tokens.sign(TokenPayload(a.id, Lower(data.email)))))
  {
    InsertKeepsInvariant(t, data, a, input.email);
    assert hasher.compare(password, hasher.hash(password));
  }
}
