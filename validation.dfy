/**
 * Declarative per-property validation of a request body: each property
 * carries a list of constraints, and every failed constraint is a violation.
 */
module Validation {
  import opened Wrappers

  /** A property of the JSON body as received. */
  datatype Field = Missing | Null | Str(s: string) | NotString

  datatype Constraint = IsEmail | IsString | MinLength(min: nat) | MaxLength(max: nat)

  /** A failed constraint on a property, with the declared message (`None`: the validator's default text). */
  datatype Violation = Violation(property: string, constraint: Constraint, message: Option<string>)

  /** A decorator on a property: the constraint and its custom message, if any. */
  datatype Rule = Rule(constraint: Constraint, message: Option<string>)

  /** Whether a value meets a constraint; `emailFormat` stands for the validator's email grammar. */
  predicate Satisfies(v: Field, c: Constraint, emailFormat: string -> bool) {
    match c
    case IsEmail => v.Str? && emailFormat(v.s)
    case IsString => v.Str?
    case MinLength(n) => v.Str? && |v.s| >= n
    case MaxLength(n) => v.Str? && |v.s| <= n
  }

  /** True when the value meets every rule's constraint. */
  predicate MeetsAll(v: Field, rules: seq<Rule>, emailFormat: string -> bool) {
    forall k :: 0 <= k < |rules| ==> Satisfies(v, rules[k].constraint, emailFormat)
  }

  /** `x` is the violation some failed rule of the property reports. */
  ghost predicate FromFailedRule(x: Violation, name: string, v: Field, rules: seq<Rule>, emailFormat: string -> bool) {
    exists k :: 0 <= k < |rules| && !Satisfies(v, rules[k].constraint, emailFormat)
      && x == Violation(name, rules[k].constraint, rules[k].message)
  }

  /** One violation, naming the property, for each rule the value fails; none for the rules it meets. */
  function CheckRules(name: string, v: Field, rules: seq<Rule>, emailFormat: string -> bool): (vs: set<Violation>)
    ensures vs == {} <==> MeetsAll(v, rules, emailFormat)
    ensures forall k :: 0 <= k < |rules| && !Satisfies(v, rules[k].constraint, emailFormat) ==>
      Violation(name, rules[k].constraint, rules[k].message) in vs
    ensures forall x :: x in vs ==> x.property == name && FromFailedRule(x, name, v, rules, emailFormat)
  {
    if rules == [] then {}
    else
      var rest := CheckRules(name, v, rules[1..], emailFormat);
      assert forall x :: x in rest ==> FromFailedRule(x, name, v, rules, emailFormat) by {
        forall x | x in rest
          ensures FromFailedRule(x, name, v, rules, emailFormat)
        {
          var j :| 0 <= j < |rules| - 1 && !Satisfies(v, rules[1..][j].constraint, emailFormat)
            && x == Violation(name, rules[1..][j].constraint, rules[1..][j].message);
          assert rules[j + 1] == rules[1..][j];
          assert !Satisfies(v, rules[j + 1].constraint, emailFormat)
            && x == Violation(name, rules[j + 1].constraint, rules[j + 1].message);
        }
      }
      (if Satisfies(v, rules[0].constraint, emailFormat) then {}
       else {Violation(name, rules[0].constraint, rules[0].message)}) + rest
  }

  /** Validates one property: an optional property that is null or absent is skipped, otherwise every rule is checked. */
  function CheckProperty(name: string, v: Field, optional: bool, rules: seq<Rule>, emailFormat: string -> bool): (vs: set<Violation>)
    ensures vs == {} <==> (optional && (v.Missing? || v.Null?)) || MeetsAll(v, rules, emailFormat)
    ensures !(optional && (v.Missing? || v.Null?)) ==> vs == CheckRules(name, v, rules, emailFormat)
  {
    if optional && (v.Missing? || v.Null?) then {} else CheckRules(name, v, rules, emailFormat)
  }

  /** A property with two rules meets them all exactly when it meets both. */
  lemma MeetsTwo(v: Field, r1: Rule, r2: Rule, emailFormat: string -> bool)
    ensures MeetsAll(v, [r1, r2], emailFormat) <==>
      Satisfies(v, r1.constraint, emailFormat) && Satisfies(v, r2.constraint, emailFormat)
  {
    assert [r1, r2][0] == r1 && [r1, r2][1] == r2;
  }

  /** A property with one rule meets them all exactly when it meets that one. */
  lemma MeetsOne(v: Field, r: Rule, emailFormat: string -> bool)
    ensures MeetsAll(v, [r], emailFormat) <==> Satisfies(v, r.constraint, emailFormat)
  {
    assert [r][0] == r;
  }
}
