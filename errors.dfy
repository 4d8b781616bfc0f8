/**
 * The shared domain-error taxonomy: a base `DomainError` and its three
 * subclasses, modelled as one tagged value whose tag is the concrete class.
 */
module DomainErrors {

  /** The concrete class an error was constructed as; `Base` is `DomainError` itself. */
  datatype ErrorClass = Base | Conflict | NotFound | Unauthorized

  /** An error value: the class it was constructed as and its `message`. */
  datatype DomainError = DomainError(cls: ErrorClass, message: string)

  /** `e instanceof C`: every error is a `DomainError`, and a subclass instance only of its own class. */
  predicate InstanceOf(e: DomainError, c: ErrorClass) {
    c == Base || c == e.cls
  }

  /** The `name` property each constructor assigns. */
  function Name(e: DomainError): string {
    match e.cls
    case Base => "DomainError"
    case Conflict => "ConflictError"
    case NotFound => "NotFoundError"
    case Unauthorized => "UnauthorizedError"
  }

  /** `new DomainError(message)`. */
  function NewDomainError(message: string): (e: DomainError)
    ensures e.message == message
    ensures Name(e) == "DomainError"
    ensures forall c :: InstanceOf(e, c) <==> c == Base
  {
    DomainError(Base, message)
  }

  /** `new ConflictError(message)`. */
  function NewConflictError(message: string): (e: DomainError)
    ensures e.message == message
    ensures Name(e) == "ConflictError"
    ensures forall c :: InstanceOf(e, c) <==> c in {Base, Conflict}
  {
    DomainError(Conflict, message)
  }

  /** `new NotFoundError(message)`. */
  function NewNotFoundError(message: string): (e: DomainError)
    ensures e.message == message
    ensures Name(e) == "NotFoundError"
    ensures forall c :: InstanceOf(e, c) <==> c in {Base, NotFound}
  {
    DomainError(NotFound, message)
  }

  /** `new UnauthorizedError(message)`. */
  function NewUnauthorizedError(message: string): (e: DomainError)
    ensures e.message == message
    ensures Name(e) == "UnauthorizedError"
    ensures forall c :: InstanceOf(e, c) <==> c in {Base, Unauthorized}
  {
    DomainError(Unauthorized, message)
  }

  /** Every error is a `DomainError`; one of the three subclasses is an instance of exactly one of them. */
  lemma ExactlyOneSubclass(e: DomainError)
    requires e.cls != Base
    ensures InstanceOf(e, Base)
    ensures InstanceOf(e, Conflict) || InstanceOf(e, NotFound) || InstanceOf(e, Unauthorized)
    ensures !(InstanceOf(e, Conflict) && InstanceOf(e, NotFound))
    ensures !(InstanceOf(e, Conflict) && InstanceOf(e, Unauthorized))
    ensures !(InstanceOf(e, NotFound) && InstanceOf(e, Unauthorized))
  {
  }

  /** The `name` of an error determines its class and the class determines the name. */
  lemma NameIdentifiesClass(e1: DomainError, e2: DomainError)
    ensures Name(e1) == Name(e2) <==> e1.cls == e2.cls
  {
  }
}
