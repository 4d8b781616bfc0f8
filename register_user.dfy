/** Registration: refuse a taken email, otherwise hash, insert and sign. */
module RegisterUserUseCase {
  import opened Wrappers
  import opened Text
  import opened DomainErrors
  import opened UserEntity
  import opened Ports
  import opened UserRepository

  const EmailTaken := "Email já cadastrado"

  datatype RegisterUserInput = RegisterUserInput(email: string, password: string, firstName: string, lastName: string)

  /** What `execute` hands to `create`: the email and names as given, the password hashed. */
  function CreateInputOf(input: RegisterUserInput, hasher: HashService): (c: CreateUserInput)
    ensures c.email == input.email && c.passwordHash == hasher.hash(input.password)
    ensures c.firstName == input.firstName && c.lastName == input.lastName
  {
    CreateUserInput(input.email, hasher.hash(input.password), input.firstName, input.lastName)
  }

  /**
   * `execute`: a live user with the same (lower-cased) email is a conflict and
   * nothing is written; otherwise exactly one row is inserted and the result is
   * its profile with a token signed for its id and stored email.
   */
  method Execute(store: UserStore, hasher: HashService, tokens: TokenService, input: RegisterUserInput, a: Assigned)
    returns (r: Result<AuthOutput, DomainError>)
    requires store.Valid()
    requires a.id !in store.rows
    modifies store
    ensures store.Valid()
    ensures r.Failure? <==> HasLiveEmail(old(store.rows), input.email)
    ensures r.Failure? ==> r.error == NewConflictError(EmailTaken) && store.rows == old(store.rows)
    ensures r.Success? ==>
      var row := NewRow(CreateInputOf(input, hasher), a);
      && store.rows == old(store.rows)[a.id := row]
      && r.value.user == ToAuthUser(ToDomain(row))
      && r.value.token == tokens.sign(TokenPayload(a.id, Lower(input.email)))
  {
    var existing := FindByEmail(store.rows, input.email);
    if existing.Some? {
      return Failure(NewConflictError(EmailTaken));
    }
    var passwordHash := hasher.hash(input.password);
    var user := store.Create(CreateUserInput(input.email, passwordHash, input.firstName, input.lastName), a);
    var token := tokens.sign(TokenPayload(user.id, user.email));
    r := Success(AuthOutput(ToAuthUser(user), token));
  }

  /**
   * Registering twice: once a user is registered, registering any case
   * variant of the same email again is a conflict.
   */
  lemma SecondRegistrationConflicts(t: Table, hasher: HashService, first: RegisterUserInput, a: Assigned, second: RegisterUserInput)
    requires TableInvariant(t)
    requires a.id !in t
    requires !HasLiveEmail(t, first.email)
    requires Lower(second.email) == Lower(first.email)
    ensures HasLiveEmail(t[a.id := NewRow(CreateInputOf(first, hasher), a)], second.email)
  {
    InsertKeepsInvariant(t, CreateInputOf(first, hasher), a, second.email);
  }
}
