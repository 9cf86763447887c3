/** The data the exception filters of src/lib/filter.ts work on: the raised
    error, the choice of filter class, the HTTP exceptions they construct
    and the `super.catch` calls they make, with the constants of the rule
    table. */
module Response {

  datatype Option<+T> = None | Some(value: T)

  /** What the filter reads from the raised error: `exception.constructor.name`
      and `exception.message`. */
  datatype RaisedError = RaisedError(typeName: string, message: string)

  /** Which filter class is installed. `Verbose` is AllExceptionWithMessageFilter,
      whose bodies also carry the message and the name; `Terse` is
      AllExceptionFilter, whose bodies carry the status code and label only. */
  datatype Policy = Verbose | Terse

  /** The framework's HTTP exception classes the filter constructs. */
  datatype HttpException =
    | NotFoundException
    | BadRequestException
    | ForbiddenException
    | ConflictException
    | InternalServerErrorException
  {
    /** The `statusCode` the filter writes into the body of this exception. */
    function StatusCode(): int {
      match this
      case NotFoundException => 404
      case BadRequestException => 400
      case ForbiddenException => 403
      case ConflictException => 409
      case InternalServerErrorException => 500
    }

    /** The `error` label the filter writes into the body of this exception. */
    function Label(): string {
      match this
      case NotFoundException => "Not found"
      case BadRequestException => "Bad request"
      case ForbiddenException => "Forbidden"
      case ConflictException => "Conflict"
      case InternalServerErrorException => "Internal Server Error"
    }
  }

  /** The diagnostic part of a verbose body: `message` and `name`. */
  datatype Detail = Detail(message: string, name: string)

  /** One call of `super.catch`: either a freshly built HTTP exception with
      body `{ statusCode, error, [message], [name] }`, or the raised error
      itself, passed on unchanged. */
  datatype Emission =
    | Envelope(exception: HttpException, statusCode: int, error: string, detail: Option<Detail>)
    | Passthrough(original: RaisedError)

  const NotFoundNames: set<string> := {"NotFoundError", "EntityNotFoundError"}

  const BadRequestNames: set<string> := {
    "SubtaskAlreadySubmittedError",
    "AlreadySubmittedSubtaskError",
    "EntityAlreadyExistError",
    "MaximumNumberOfGrabbedTasksExceededError",
    "JsonWebTokenError",
    "LanguageRuleError"
  }

  const PermissionDeniedName: string := "PermissionDeniedError"

  const QueryFailedName: string := "QueryFailedError"

  /** Every type name that has a case label of its own, in both classes. */
  const ExplicitNames: set<string> :=
    NotFoundNames + BadRequestNames + {PermissionDeniedName, QueryFailedName}

  /** The database driver's text for a unique-constraint violation. */
  const DuplicateKeyMarker: string := "duplicate key value violates unique constraint"

  /** A type name containing this is trusted to be an HTTP exception already. */
  const ExceptionMarker: string := "Exception"

  /** `new <kind>({ statusCode, error, ... })`: the verbose class adds the
      raised error's message and type name, the terse class adds nothing. */
  function Build(policy: Policy, kind: HttpException, err: RaisedError): (e: Emission)
    ensures e.Envelope? && e.exception == kind
    ensures e.statusCode == kind.StatusCode() && e.error == kind.Label()
    ensures policy == Verbose <==> e.detail.Some?
    ensures e.detail.Some? ==> e.detail.value.message == err.message && e.detail.value.name == err.typeName
  {
    var detail := match policy
      case Verbose => Some(Detail(err.message, err.typeName))
      case Terse => None;
    Envelope(kind, kind.StatusCode(), kind.Label(), detail)
  }

  /** The same emission with the verbose-only fields, `message` and `name`, dropped. */
  function Redact(e: Emission): Emission {
    match e
    case Envelope(kind, status, text, _) => Envelope(kind, status, text, None)
    case Passthrough(_) => e
  }

  function RedactAll(r: seq<Emission>): (d: seq<Emission>)
    ensures |d| == |r|
  {
    seq(|r|, i requires 0 <= i < |r| => Redact(r[i]))
  }

  /** The terse body is the verbose body with `message` and `name` dropped,
      for every exception kind and every raised error; and nothing but those
      two fields tells them apart. */
  lemma VerboseBuildRedactsToTerse(kind: HttpException, err: RaisedError)
    ensures Redact(Build(Verbose, kind, err)) == Build(Terse, kind, err)
    ensures Build(Verbose, kind, err) != Build(Terse, kind, err)
  {
  }
}
