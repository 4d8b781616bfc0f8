/** The exception filter that turns the three domain errors into HTTP responses. */
module DomainExceptionFilter {
  import opened DomainErrors
  import opened Http

  /** The JSON body written: `{statusCode, message}`. */
  datatype ErrorBody = ErrorBody(statusCode: int, message: string)

  datatype HttpResponse = HttpResponse(status: int, body: ErrorBody)

  /** `@Catch(ConflictError, NotFoundError, UnauthorizedError)`: the errors this filter receives. */
  predicate Catches(e: DomainError) {
    InstanceOf(e, Conflict) || InstanceOf(e, NotFound) || InstanceOf(e, Unauthorized)
  }

  /**
   * `catch`: ConflictError is 409, UnauthorizedError 401, anything else 404;
   * the body repeats the status and passes the message through verbatim.
   */
  function Catch(e: DomainError): (r: HttpResponse)
    ensures r.status == CONFLICT <==> InstanceOf(e, Conflict)
    ensures r.status == UNAUTHORIZED <==> InstanceOf(e, Unauthorized)
    ensures r.status == NOT_FOUND <==> !InstanceOf(e, Conflict) && !InstanceOf(e, Unauthorized)
    ensures r.body == ErrorBody(r.status, e.message)
  {
    var status :=
      if InstanceOf(e, Conflict) then CONFLICT
      else if InstanceOf(e, Unauthorized) then UNAUTHORIZED
      else NOT_FOUND;
    HttpResponse(status, ErrorBody(status, e.message))
  }

  /** The error class an HTTP status stands for. */
  function ClassOfStatus(status: int): ErrorClass {
    if status == CONFLICT then Conflict
    else if status == UNAUTHORIZED then Unauthorized
    else NotFound
  }

  /** On the errors it catches the filter loses nothing: the status gives back the class, the body the message. */
  lemma CatchIsLossless(e: DomainError)
    requires Catches(e)
    ensures DomainError(ClassOfStatus(Catch(e).status), Catch(e).body.message) == e
  {
  }

  /** The base DomainError is not among the caught classes. */
  lemma BaseNotCaught(message: string)
    ensures !Catches(NewDomainError(message))
  {
  }
}
