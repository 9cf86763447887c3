/** The classification the filters are meant to implement, written as an
    ordered rule list that is independent of the switch tables: the first
    rule that matches decides, and the last rule always matches. */
module Rules {
  import opened Text
  import opened Response

  /** The decision for one raised error: answer with an HTTP exception of the
      given kind, or forward the raised error to the framework unchanged. */
  datatype Outcome = Respond(kind: HttpException) | Forward

  /** The rules, top to bottom:
      1. a not-found type name is 404;
      2. a domain-validation type name is 400;
      3. PermissionDeniedError is 403;
      4. QueryFailedError is 409 when its message reports a duplicate key, 500 otherwise;
      5. any other type name is forwarded when it contains "Exception", 500 otherwise. */
  function Classify(err: RaisedError): Outcome {
    if err.typeName in NotFoundNames then Respond(NotFoundException)
    else if err.typeName in BadRequestNames then Respond(BadRequestException)
    else if err.typeName == PermissionDeniedName then Respond(ForbiddenException)
    else if err.typeName == QueryFailedName then
      if Includes(err.message, DuplicateKeyMarker) then Respond(ConflictException)
      else Respond(InternalServerErrorException)
    else if Includes(err.typeName, ExceptionMarker) then Forward
    else Respond(InternalServerErrorException)
  }

  /** The one `super.catch` call that carries out an outcome under a policy. */
  function Render(o: Outcome, policy: Policy, err: RaisedError): Emission {
    match o
    case Respond(kind) => Build(policy, kind, err)
    case Forward => Passthrough(err)
  }
}
