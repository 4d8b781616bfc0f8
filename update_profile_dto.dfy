/** The profile-update request body: two optional names of at most 100 characters. */
module UpdateProfileDto {
  import opened Wrappers
  import opened Validation

  datatype Body = Body(firstName: Field, lastName: Field)

  const NameRules := [Rule(IsString, None), Rule(MaxLength(100), None)]

  /** An optional name: absent, null, or a string of at most 100 characters. */
  predicate OptionalName(v: Field) {
    v.Missing? || v.Null? || (v.Str? && |v.s| <= 100)
  }

  /** Every violation of the body's declared constraints; the body is valid exactly when both names are acceptable. */
  function Violations(b: Body): (vs: set<Violation>)
    ensures vs == {} <==> OptionalName(b.firstName) && OptionalName(b.lastName)
  {
    MeetsTwo(b.firstName, NameRules[0], NameRules[1], _ => false);
    MeetsTwo(b.lastName, NameRules[0], NameRules[1], _ => false);
    CheckProperty("firstName", b.firstName, true, NameRules, _ => false)
    + CheckProperty("lastName", b.lastName, true, NameRules, _ => false)
  }

  /** An empty body is valid. */
  lemma EmptyBodyValid()
    ensures Violations(Body(Missing, Missing)) == {}
  {
  }
}
