/**
 * Go's `error` values as the library tells them apart. Go tells them apart
 * by type assertion; here every kind the library produces or inspects is a
 * constructor of one datatype, and the `UserError` capability (an error
 * with `HTTPStatus()` and `ResponseObject()`) is the predicate IsUserError.
 */
module Errors {
  import opened Encoding

  const StatusBadRequest: int := 400

  datatype Error =
      /** Any error with no `UserError` methods (for instance from `fmt.Errorf`). */
    | Internal(message: string)
      /** `*json.SyntaxError`, carrying the parser's message. */
    | Syntax(message: string)
      /** `*json.UnmarshalTypeError`: `Type.Name()`, `Field` and `Value`. */
    | TypeMismatch(typeName: string, field: string, value: string)
      /** `simpleError`; `Status` is tagged `json:"-"`, `Message` is `json:"error"`. */
    | Simple(status: int, message: string)
      /** `ParameterMissingError` */
    | ParameterMissing(key: string)
      /** `ValidationError` */
    | Validation(key: string, issue: string)
      /** Any other type of the application's that implements `UserError`. */
    | Custom(status: int, response: Json)

  /**
   * `_, ok := err.(UserError)`: every kind except plain errors and the two
   * JSON decoding failures has both methods.
   */
  function IsUserError(e: Error): (ok: bool)
    ensures ok <==> !(e.Internal? || e.Syntax? || e.TypeMismatch?)
  {
    e.Simple? || e.ParameterMissing? || e.Validation? || e.Custom?
  }

  /** The `HTTPStatus()` method of each user-facing kind. */
  function HTTPStatus(e: Error): (status: int)
    requires IsUserError(e)
    ensures e.ParameterMissing? || e.Validation? ==> status == 400
    ensures e.Simple? || e.Custom? ==> status == e.status
  {
    match e
    case Simple(status, _) => status
    case ParameterMissing(_) => StatusBadRequest
    case Validation(_, _) => StatusBadRequest
    case Custom(status, _) => status
  }

  /**
   * The JSON image of the `ResponseObject()` method of each user-facing kind.
   * A `simpleError` returns itself and its only encoded field is `error`.
   */
  function ResponseObject(e: Error): (j: Json)
    requires IsUserError(e)
    ensures e.Custom? ==> j == e.response
    ensures !e.Custom? ==> j.JObject? && j.fields.Keys == {"error"} && j.fields["error"].JString?
    ensures e.Simple? ==> j.fields["error"].s == e.message
    ensures e.ParameterMissing? ==> j.fields["error"].s == e.key + " is required"
    ensures e.Validation? ==> j.fields["error"].s == e.key + " " + e.issue
  {
    match e
    case Simple(_, message) => ErrorObject(message)
    case ParameterMissing(key) => ErrorObject(key + " is required")
    case Validation(key, issue) => ErrorObject(key + " " + issue)
    case Custom(_, response) => response
  }

  /** A `simpleError` reports its own status, and its body names only its message. */
  lemma SimpleErrorView(status: int, message: string)
    ensures IsUserError(Simple(status, message))
    ensures HTTPStatus(Simple(status, message)) == status
    ensures ResponseObject(Simple(status, message)).fields.Keys == {"error"}
    ensures ResponseObject(Simple(status, message)).fields["error"] == JString(message)
  {
  }

  /** Both lookup errors are 400 whatever the key or issue, with the fixed body shapes. */
  lemma LookupErrorsView(key: string, issue: string)
    ensures IsUserError(ParameterMissing(key)) && IsUserError(Validation(key, issue))
    ensures HTTPStatus(ParameterMissing(key)) == 400
    ensures HTTPStatus(Validation(key, issue)) == 400
    ensures ResponseObject(ParameterMissing(key)) == JObject(map["error" := JString(key + " is required")])
    ensures ResponseObject(Validation(key, issue)) == JObject(map["error" := JString(key + " " + issue)])
  {
  }

  /** JSON decoding failures carry no `UserError` methods of their own. */
  lemma DecodeErrorsAreNotUserErrors(message: string, typeName: string, field: string, value: string)
    ensures !IsUserError(Syntax(message))
    ensures !IsUserError(TypeMismatch(typeName, field, value))
    ensures !IsUserError(Internal(message))
  {
  }
}
