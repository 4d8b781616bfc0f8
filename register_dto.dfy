/** The register request body: email, password of at least 6, names of at most 100, all required. */
module RegisterDto {
  import opened Wrappers
  import opened Validation

  datatype Body = Body(email: Field, password: Field, firstName: Field, lastName: Field)

  /** A body that passed validation. */
  datatype Dto = Dto(email: string, password: string, firstName: string, lastName: string)

  const EmailRules := [Rule(IsEmail, None)]
  const PasswordRules := [Rule(IsString, None), Rule(MinLength(6), None)]
  const NameRules := [Rule(IsString, None), Rule(MaxLength(100), None)]

  /** Every violation of the body's declared constraints. */
  function Violations(b: Body, emailFormat: string -> bool): (vs: set<Violation>)
    ensures vs == {} <==>
      && b.email.Str? && emailFormat(b.email.s)
      && b.password.Str? && |b.password.s| >= 6
      && b.firstName.Str? && |b.firstName.s| <= 100
      && b.lastName.Str? && |b.lastName.s| <= 100
  {
    MeetsOne(b.email, EmailRules[0], emailFormat);
    MeetsTwo(b.password, PasswordRules[0], PasswordRules[1], emailFormat);
    MeetsTwo(b.firstName, NameRules[0], NameRules[1], emailFormat);
    MeetsTwo(b.lastName, NameRules[0], NameRules[1], emailFormat);
    CheckProperty("email", b.email, false, EmailRules, emailFormat)
    + CheckProperty("password", b.password, false, PasswordRules, emailFormat)
    + CheckProperty("firstName", b.firstName, false, NameRules, emailFormat)
    + CheckProperty("lastName", b.lastName, false, NameRules, emailFormat)
  }

  /**
   * The validation pipe for the register route: the body is accepted exactly
   * when all four fields are strings, the email is well-formed, the password
   * has at least 6 characters and each name at most 100.
   */
  function Validate(b: Body, emailFormat: string -> bool): (r: Result<Dto, set<Violation>>)
    ensures r.Success? <==>
      && b.email.Str? && emailFormat(b.email.s)
      && b.password.Str? && |b.password.s| >= 6
      && b.firstName.Str? && |b.firstName.s| <= 100
      && b.lastName.Str? && |b.lastName.s| <= 100
    ensures r.Success? ==> b == Body(Str(r.value.email), Str(r.value.password), Str(r.value.firstName), Str(r.value.lastName))
    ensures r.Failure? ==> r.error != {}
  {
    var vs := Violations(b, emailFormat);
    if vs == {} then Success(Dto(b.email.s, b.password.s, b.firstName.s, b.lastName.s))
    else Failure(vs)
  }

  /** None of the four fields is optional: leaving any out is a violation on that field. */
  lemma AllFieldsRequired(b: Body, emailFormat: string -> bool)
    requires b.email.Missing? || b.password.Missing? || b.firstName.Missing? || b.lastName.Missing?
    ensures Validate(b, emailFormat).Failure?
    ensures b.password.Missing? ==> Violation("password", IsString, None) in Validate(b, emailFormat).error
  {
    if b.password.Missing? {
      assert !Satisfies(b.password, PasswordRules[0].constraint, emailFormat);
    }
  }
}
