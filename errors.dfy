/** The error taxonomy of `OpenAIAPI`: one base class `Error` under `StandardError` and nine
    sibling subclasses, of which only `ContentFilterError` carries a payload. */
module Errors {
  import opened Wrappers
  import opened Wire

  /** The nine specific error classes. */
  datatype Kind =
    | Connection | Timeout | Authentication | RateLimit | DeploymentNotFound
    | NotFound | ContentFilter | InvalidRequest | UnexpectedResponse

  /** An instance of one of the nine classes. Every one has a message; `ContentFilterError` is
      built from a message and its `content_filters` and is the only one with a second field. */
  datatype ApiError =
    | ConnectionError(message: string)
    | TimeoutError(message: string)
    | AuthenticationError(message: string)
    | RateLimitError(message: string)
    | DeploymentNotFoundError(message: string)
    | NotFoundError(message: string)
    | ContentFilterError(message: string, contentFilters: Details)
    | InvalidRequestError(message: string)
    | UnexpectedResponseError(message: string)
  {
    function Kind(): Kind {
      match this
      case ConnectionError(_) => Connection
      case TimeoutError(_) => Timeout
      case AuthenticationError(_) => Authentication
      case RateLimitError(_) => RateLimit
      case DeploymentNotFoundError(_) => DeploymentNotFound
      case NotFoundError(_) => NotFound
      case ContentFilterError(_, _) => ContentFilter
      case InvalidRequestError(_) => InvalidRequest
      case UnexpectedResponseError(_) => UnexpectedResponse
    }
  }

  /** A raised Ruby exception: one of the taxonomy, or a core Ruby or library error that escapes
      the client (named by its class). */
  datatype Exception = Api(error: ApiError) | Foreign(className: string)

  const ArgumentErrorName := "ArgumentError"
  const NoMethodErrorName := "NoMethodError"
  const ParserErrorName := "JSON::ParserError"

  /** A Ruby value that is either returned or raised. */
  datatype Outcome<+R> = Returned(value: R) | Raised(exception: Exception)

  /** The exception classes a `rescue` clause can name. */
  datatype RubyClass =
    | StandardErrorClass
    | ErrorClass                                      // OpenAIAPI::Error
    | KindClass(kind: Kind)                           // OpenAIAPI::<kind>Error
    | ForeignClass(name: string)                      // a class outside the taxonomy

  function Superclass(c: RubyClass): Option<RubyClass> {
    match c
    case StandardErrorClass => None
    case ErrorClass => Some(StandardErrorClass)
    case KindClass(_) => Some(ErrorClass)
    case ForeignClass(_) => Some(StandardErrorClass)
  }

  function Depth(c: RubyClass): nat {
    match c
    case StandardErrorClass => 0
    case ErrorClass => 1
    case KindClass(_) => 2
    case ForeignClass(_) => 1
  }

  /** `c <= ancestor`: the class is the ancestor or inherits from it, which is when
      `rescue ancestor` catches an instance of `c`. */
  predicate IsA(c: RubyClass, ancestor: RubyClass)
    decreases Depth(c)
  {
    c == ancestor || (Superclass(c).Some? && IsA(Superclass(c).value, ancestor))
  }

  function ClassOf(e: Exception): RubyClass {
    match e
    case Api(err) => KindClass(err.Kind())
    case Foreign(name) => ForeignClass(name)
  }

  /** Whether a `rescue` clause listing `handlers` catches `e`, trying the classes in order. */
  predicate Rescues(handlers: seq<RubyClass>, e: Exception)
    decreases |handlers|
  {
    |handlers| > 0 && (IsA(ClassOf(e), handlers[0]) || Rescues(handlers[1..], e))
  }

  /** A `rescue` clause catches `e` exactly when one of the classes it lists is a class of `e`. */
  lemma {:induction false} RescuesSome(handlers: seq<RubyClass>, e: Exception)
    ensures Rescues(handlers, e) <==> exists i :: 0 <= i < |handlers| && IsA(ClassOf(e), handlers[i])
    decreases |handlers|
  {
    if |handlers| > 0 {
      RescuesSome(handlers[1..], e);
      if Rescues(handlers[1..], e) {
        var i :| 0 <= i < |handlers[1..]| && IsA(ClassOf(e), handlers[1..][i]);
        assert IsA(ClassOf(e), handlers[i + 1]);
      }
      if exists i :: 0 <= i < |handlers| && IsA(ClassOf(e), handlers[i]) {
        var i :| 0 <= i < |handlers| && IsA(ClassOf(e), handlers[i]);
        if i > 0 {
          assert IsA(ClassOf(e), handlers[1..][i - 1]);
        }
      }
    }
  }

  /** Every specific class is an `OpenAIAPI::Error`, so `rescue OpenAIAPI::Error` catches exactly
      the taxonomy's exceptions, and all of them are `StandardError`s. */
  lemma ErrorCatchesTheTaxonomy(e: Exception)
    ensures Rescues([ErrorClass], e) <==> e.Api?
    ensures Rescues([StandardErrorClass], e)
  {
    assert IsA(ClassOf(e), [StandardErrorClass][0]);
    if e.Api? {
      assert IsA(ClassOf(e), [ErrorClass][0]);
    } else {
      assert !IsA(StandardErrorClass, ErrorClass);
      assert !IsA(ClassOf(e), [ErrorClass][0]);
    }
  }

  /** The nine specific classes are siblings: rescuing one never catches another (so rescuing
      `NotFoundError` does not catch `DeploymentNotFoundError`). */
  lemma KindsAreSiblings(k1: Kind, k2: Kind)
    ensures IsA(KindClass(k1), KindClass(k2)) <==> k1 == k2
  {
  }

  /** `raise OpenAIAPI::<kind>Error, message`: Ruby builds the exception with `new(message)`.
      `ContentFilterError`'s constructor takes two arguments, so for that class the call itself
      fails with an `ArgumentError`. */
  function Raise(kind: Kind, message: string): (e: Exception)
    ensures e.Api? <==> kind != ContentFilter
    ensures e.Api? ==> e.error.Kind() == kind && e.error.message == message
    ensures e.Foreign? ==> e.className == ArgumentErrorName
  {
    match kind
    case Connection => Api(ConnectionError(message))
    case Timeout => Api(TimeoutError(message))
    case Authentication => Api(AuthenticationError(message))
    case RateLimit => Api(RateLimitError(message))
    case DeploymentNotFound => Api(DeploymentNotFoundError(message))
    case NotFound => Api(NotFoundError(message))
    case ContentFilter => Foreign(ArgumentErrorName)
    case InvalidRequest => Api(InvalidRequestError(message))
    case UnexpectedResponse => Api(UnexpectedResponseError(message))
  }

  /** The classification table, read as a table: the kind a non-200 status gives, with the
      error body's "code" member as the only other discriminator. */
  function Routing(status: int, code: Option<string>): Kind {
    match status
    case 400 => if code == Some("content_filter") then ContentFilter else InvalidRequest
    case 401 => Authentication
    case 404 => if code == Some("DeploymentNotFound") then DeploymentNotFound else NotFound
    case 429 => RateLimit
    case _ => UnexpectedResponse
  }

  /** The rescue of Faraday's transport failures in `chat` and `embed`: they become the
      taxonomy's Connection and Timeout errors, whatever the HTTP status. */
  function TransportError(failure: TransportFailure): (e: ApiError)
    ensures failure.ConnectionFailed? ==> e.Kind() == Connection && e.message == "Connection to API failed: " + failure.detail
    ensures failure.TimedOut? ==> e.Kind() == Timeout && e.message == "API request timed out: " + failure.detail
  {
    match failure
    case ConnectionFailed(detail) => ConnectionError("Connection to API failed: " + detail)
    case TimedOut(detail) => TimeoutError("API request timed out: " + detail)
  }
}
