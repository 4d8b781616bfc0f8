/** The login request body: a well-formed email and a non-empty password. */
module LoginDto {
  import opened Wrappers
  import opened Validation

  const PasswordRequired := "Senha é obrigatória"

  datatype Body = Body(email: Field, password: Field)

  /** A body that passed validation. */
  datatype Dto = Dto(email: string, password: string)

  const EmailRules := [Rule(IsEmail, None)]
  const PasswordRules := [Rule(IsString, None), Rule(MinLength(1), Some(PasswordRequired))]

  /** Every violation of the body's declared constraints. */
  function Violations(b: Body, emailFormat: string -> bool): (vs: set<Violation>)
    ensures vs == {} <==> b.email.Str? && emailFormat(b.email.s) && b.password.Str? && b.password.s != ""
  {
    MeetsOne(b.email, EmailRules[0], emailFormat);
    MeetsTwo(b.password, PasswordRules[0], PasswordRules[1], emailFormat);
    CheckProperty("email", b.email, false, EmailRules, emailFormat)
    + CheckProperty("password", b.password, false, PasswordRules, emailFormat)
  }

  /** The validation pipe for the login route: accepted exactly for a well-formed email and a non-empty string password. */
  function Validate(b: Body, emailFormat: string -> bool): (r: Result<Dto, set<Violation>>)
    ensures r.Success? <==> b.email.Str? && emailFormat(b.email.s) && b.password.Str? && b.password.s != ""
    ensures r.Success? ==> b == Body(Str(r.value.email), Str(r.value.password))
    ensures r.Failure? ==> r.error != {}
  {
    var vs := Violations(b, emailFormat);
    if vs == {} then Success(Dto(b.email.s, b.password.s)) else Failure(vs)
  }

  /** An empty password is rejected with the message "Senha é obrigatória". */
  lemma EmptyPasswordMessage(b: Body, emailFormat: string -> bool)
    requires b.password == Str("")
    ensures Validate(b, emailFormat).Failure?
    ensures Violation("password", MinLength(1), Some(PasswordRequired)) in Validate(b, emailFormat).error
  {
    assert !Satisfies(b.password, PasswordRules[1].constraint, emailFormat);
  }
}
