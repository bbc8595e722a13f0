/**
 * The API-level error type. It is the union of the variants declared in
 * `RusterApiError` and the three the handlers use (`BadRequest`,
 * `ServerError`, `EndpointGenerationError`).
 */
module Errors {

  /** `DatabaseError` and `IoError` wrap a library error; the model keeps its display text. */
  datatype ApiError =
    | ConfigError(msg: string)
    | DatabaseError(msg: string)
    | EntityNotFound(msg: string)
    | ValidationError(msg: string)
    | AuthError(msg: string)
    | IoError(msg: string)
    | BadRequest(msg: string)
    | ServerError(msg: string)
    | EndpointGenerationError(msg: string)

  /** The derived `Display` text of an error. */
  function Display(e: ApiError): string {
    match e
    case ConfigError(m) => "Configuration error: " + m
    case DatabaseError(m) => "Database error: " + m
    case EntityNotFound(m) => "Entity not found: " + m
    case ValidationError(m) => "Validation error: " + m
    case AuthError(m) => "Authentication error: " + m
    case IoError(m) => "I/O error: " + m
    case BadRequest(m) => "Bad request: " + m
    case ServerError(m) => "Server error: " + m
    case EndpointGenerationError(m) => "Endpoint generation error: " + m
  }

  /** The fixed text that precedes the payload in `Display`. */
  function Prefix(e: ApiError): (p: string)
    ensures |p| >= 3
    ensures Display(e) == p + e.msg
  {
    match e
    case ConfigError(_) => "Configuration error: "
    case DatabaseError(_) => "Database error: "
    case EntityNotFound(_) => "Entity not found: "
    case ValidationError(_) => "Validation error: "
    case AuthError(_) => "Authentication error: "
    case IoError(_) => "I/O error: "
    case BadRequest(_) => "Bad request: "
    case ServerError(_) => "Server error: "
    case EndpointGenerationError(_) => "Endpoint generation error: "
  }

  /** Every error's display text ends with its payload, so the payload is visible to the client. */
  lemma DisplayEndsWithPayload(e: ApiError)
    ensures |Display(e)| > |e.msg|
    ensures Display(e)[|Display(e)| - |e.msg|..] == e.msg
  {
    var p := Prefix(e);
    assert Display(e)[|p|..] == e.msg;
  }

  /** The first three characters of a prefix already tell the variants apart. */
  lemma PrefixHeadDistinct(e1: ApiError, e2: ApiError)
    requires Prefix(e1)[0] == Prefix(e2)[0] && Prefix(e1)[1] == Prefix(e2)[1] && Prefix(e1)[2] == Prefix(e2)[2]
    ensures Prefix(e1) == Prefix(e2)
  {
  }

  /** Two errors display alike only when they are the same error: the display loses nothing. */
  lemma DisplayInjective(e1: ApiError, e2: ApiError)
    requires Display(e1) == Display(e2)
    ensures e1 == e2
  {
    var p1, p2 := Prefix(e1), Prefix(e2);
    assert p1[0] == Display(e1)[0] == p2[0];
    assert p1[1] == Display(e1)[1] == p2[1];
    assert p1[2] == Display(e1)[2] == p2[2];
    PrefixHeadDistinct(e1, e2);
    assert e1.msg == Display(e1)[|p1|..];
    assert e2.msg == Display(e2)[|p2|..];
  }
}
