/**
 * The HTTP statuses the global exception handler answers with, as the
 * constants of Spring's `HttpStatus` enum: the constant's name and its code.
 */
module Http {

  import Strings

  datatype HttpStatus =
    | BadRequest
    | Unauthorized
    | Forbidden
    | NotFound
    | MethodNotAllowed
    | UnsupportedMediaType
    | UnprocessableEntity
    | InternalServerError
  {
    /** `HttpStatus.name()`: the Java constant's name. */
    function Name(): string
    {
      match this
      case BadRequest => "BAD_REQUEST"
      case Unauthorized => "UNAUTHORIZED"
      case Forbidden => "FORBIDDEN"
      case NotFound => "NOT_FOUND"
      case MethodNotAllowed => "METHOD_NOT_ALLOWED"
      case UnsupportedMediaType => "UNSUPPORTED_MEDIA_TYPE"
      case UnprocessableEntity => "UNPROCESSABLE_ENTITY"
      case InternalServerError => "INTERNAL_SERVER_ERROR"
    }

    /** `HttpStatus.value()`: the numeric status code. */
    function Code(): int
    {
      match this
      case BadRequest => 400
      case Unauthorized => 401
      case Forbidden => 403
      case NotFound => 404
      case MethodNotAllowed => 405
      case UnsupportedMediaType => 415
      case UnprocessableEntity => 422
      case InternalServerError => 500
    }
  }

  /** Every constant name is upper case and starts with a letter. */
  lemma NameIsUpperCase(s: HttpStatus)
    ensures Strings.NoLowerCase(s.Name())
    ensures |s.Name()| > 0 && Strings.IsUpper(s.Name()[0])
  {
  }

  /** Distinct statuses have distinct names and distinct codes. */
  lemma NameAndCodeIdentify(s: HttpStatus, t: HttpStatus)
    ensures s.Name() == t.Name() ==> s == t
    ensures s.Code() == t.Code() ==> s == t
  {
  }
}
