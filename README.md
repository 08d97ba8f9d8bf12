# jserve: response dispatch and typed parameter lookup

This project models the two decision procedures of the `jserve` Go helper
library and proves properties of them.

- **Typed parameter lookup** (`varmap.go`). `VarMap.String(key)` reads a
  request's string-to-string parameter map. It fails with a
  `ParameterMissingError` naming the key. `VarMap.UInt64(key)` chains that
  lookup with `strconv.ParseUint(val, 10, 64)` and turns a parse failure into
  a `ValidationError`. Both error kinds are user-facing: status 400, with a
  single-field `{"error": ...}` body.
- **Response dispatch** (`wrap.go`). `Wrap` turns a function returning
  `(interface{}, error)` into an HTTP handler. A non-nil error goes to
  `SendError`. A user-facing error supplies its own status and body. Any
  other error is logged and answered with 500 and a fixed body. On success,
  `SendObject` runs in this order: a returned `http.Handler` is delegated to,
  nil gives 204 with no body, and anything else is JSON-encoded with status
  200. `GenericUserError` builds a `simpleError`. `JSONError` turns JSON
  syntax and type-mismatch failures into 400 user errors and returns every
  other error unchanged.

Layout, one module per file:

- `core.dfy` (`Core`): `Option` and `Result`.
- `encoding.dfy` (`Encoding`): the JSON image of Go values (`Json`) and what a
  response body holds (`Body`: nothing, literal bytes, or an encoded value).
- `decimal.dfy` (`Decimal`): a decimal parser standing in for
  `strconv.ParseUint(s, 10, 64)`, with a reference definition of its verdict.
- `errors.dfy` (`Errors`): Go's `error` values as one tagged datatype. The
  `UserError` type assertion is the predicate `IsUserError`, and each kind's
  `HTTPStatus`/`ResponseObject` methods are functions on it.
- `varmap.dfy` (`VarMap`): `String` and `UInt64`.
- `wrap.dfy` (`Wrap`): `SendError`, `SendObject`, `Wrap`, `GenericUserError`, `JSONError`.

The response writer is not an object here. Each request's handling is an
`Outcome`: either `Delegated(h)`, meaning the writer was handed untouched to the
returned handler, or `Written(status, body, logged)`. A returned handler is known
only by its identity, `Handler(id)`. The request is a type parameter, because none
of this code inspects it.

The parser follows Go's left-to-right scan, where the first failure decides.
A digit that takes the value to 2^64 or beyond is a range error, and a
non-digit is a syntax error. `Decimal.Reference` states the same verdict
from the input's leading digit run.

## Model

| member | source | states |
|---|---|---|
| `Decimal.ParseUint` | varmap.go:60 | The empty input is a syntax error; otherwise the verdict is `Reference`: a range error if the leading digit run denotes 2^64 or more, else a syntax error if a non-digit follows, else the run's value; every error names the input |
| `Decimal.Scan` | varmap.go:60 | The digit-by-digit scan, given the value of the digits already read, reaches exactly the reference verdict |
| `Decimal.ParseUintSucceedsIff` | varmap.go:60-68 | The parse succeeds if and only if the input is non-empty, all digits, and below 2^64; it then returns the decimal's value |
| `Decimal.ParseUintRejectsNonDigit` | varmap.go:60-66 | Any non-digit anywhere (sign, underscore, space) makes the parse fail |
| `Decimal.ParseUintLeadingZero` | varmap.go:60 | A leading zero changes neither acceptance nor the value |
| `Decimal.ParseUintExamples` | varmap.go:60 | `""`, `"-1"`, `"+1"` and `"1_0"` are syntax errors; `"123"` is 123 |
| `Errors.IsUserError` | wrap.go:36 | The `err.(UserError)` assertion holds for every error kind except plain errors and the two JSON decoding failures |
| `Errors.HTTPStatus` | varmap.go:20-22 | Both lookup errors report 400; a `simpleError` and any other user error report their own status (also wrap.go:77-79 and varmap.go:36-38) |
| `Errors.ResponseObject` | varmap.go:23-27 | Every user error of the library has a body with the single string field `error`: `key + " " + issue` for a validation error, `key + " is required"` for a missing parameter (varmap.go:39-43), the message for a `simpleError` (wrap.go:80-82); any other user error supplies its own |
| `Errors.SimpleErrorView` | wrap.go:69-82 | A `simpleError` is user-facing, reports its own `Status`, and its body has the single field `error`, holding `Message` |
| `Errors.LookupErrorsView` | varmap.go:20-43 | Both lookup errors are user-facing with status 400 for every key and issue; the bodies are `{"error": key + " is required"}` and `{"error": key + " " + issue}` |
| `Errors.DecodeErrorsAreNotUserErrors` | wrap.go:12-15 | Syntax, type-mismatch and plain errors do not have the `UserError` methods |
| `VarMap.String` | varmap.go:45-53 | No error exactly when the key is present, and then the stored value; otherwise `""` and a missing-parameter error carrying that key |
| `VarMap.UInt64` | varmap.go:55-69 | An absent key gives 0 and the lookup's own error; otherwise there is no error exactly when the value is a decimal below 2^64, the result is then its value, and on failure the result is 0 and a validation error with the same key and the parse error's text |
| `VarMap.NumErrorText` | varmap.go:64 | The validation issue is the parse error's text: the `strconv.ParseUint: parsing "` prefix, then the rejected input, then the reason (`invalid syntax` or `value out of range`) at the end |
| `VarMap.LookupFailuresAreBadRequest` | varmap.go:20-43 | Every failed lookup, of either method, is a user error with status 400 whose message starts with the key |
| `VarMap.LookupFailureResponse` | wrap.go:35-51 | Sending a failed lookup's error writes 400 with that error's body and logs nothing |
| `VarMap.LookupExamples` | varmap.go:45-69 | A missing key, a non-numeric value and `"42"` give the missing-parameter error, the `invalid syntax` validation error and 42 |
| `Wrap.SendError` | wrap.go:35-51 | A user error writes its own status and the encoding of its response object, without logging; any other error writes 500 with the fixed `{"error":"Unknown Server Error"}` body and is logged; it never delegates |
| `Wrap.SendObject` | wrap.go:53-67 | Delegates, with the same handler, exactly when the response is a handler; nil writes 204 with no body; any other value writes the given status and its encoding; nothing is logged |
| `Wrap.Wrap` | wrap.go:22-33 | A non-nil error is answered by `SendError`, otherwise the response by `SendObject` with status 200 |
| `Wrap.WrapOutcome` | wrap.go:22-67 | Stated on the handler's reply alone: delegation happens only on success with a handler value; logging happens exactly on a non-user error; user errors, payloads (200) and nil (204) give the stated responses |
| `Wrap.ErrorIgnoresResponse` | wrap.go:25-31 | When the handler returns an error, the response value returned beside it plays no part |
| `Wrap.InternalErrorsIndistinguishable` | wrap.go:36-45 | Any two internal errors produce the same response, so no internal message reaches the client |
| `Wrap.GenericUserError` | wrap.go:85-90 | The error is user-facing with the given status and body `{"error": message}` |
| `Wrap.JSONError` | wrap.go:93-107 | nil stays nil; a syntax error becomes a 400 user error carrying the parser's message; a type mismatch becomes a 400 user error with `Expecting <type> for field <field>, got <value>`; any other error is returned unchanged |
| `Wrap.TypeMismatchMessage` | wrap.go:103 | The message starts with `Expecting `, then names the type, then ` for field <field>, got `, and ends with the value |
| `Wrap.JSONErrorIdempotent` | wrap.go:93-107 | Translating an already translated error changes nothing |
| `Wrap.JSONErrorUserFacingIff` | wrap.go:93-107 | After translation an error is user-facing exactly when it was a decoding failure or already user-facing; anything else is still answered as an internal 500 error |
| `Wrap.WrapperHappy` | wrap_test.go:12-29 | A handler returning `{"key":123}` gets 200 with that value encoded |
| `Wrap.WrapperErrors` | wrap_test.go:32-63 | `Unknown Error` gives 500 with the fixed body and is logged; `GenericUserError(400, "Special Error Message")` gives 400 with `{"error":"Special Error Message"}` |
| `Wrap.JSONErrors` | wrap_test.go:65-106 | A syntax error whose message mentions `invalid character 'B'`, and the mismatch of `"string"` against field `key` of type `int`, both become 400 user errors whose messages contain the expected text |

## Left out

- `VersionMiddleware` (middleware.go) only adds the `X-Version` and `X-Application` headers and delegates. It has no decision logic.
- Health and not-found handlers, and any hostname header, are outside what is modelled.
- The `Error()` methods of `ValidationError`, `ParameterMissingError` and `simpleError` are never called by this library: `SendError` calls `err.Error()` only on an error that is not a `UserError`. Logging is recorded as a flag. The logger reached through `logger.FromContext` is an outside collaborator.
- If writing the 500 body fails, the source logs a second entry. That failure on the response writer is not modelled.
- JSON encoding is abstract: a body is `Encoded(v)` for the value `v` handed to the encoder. The encoder's own failures and the trailing newline it adds are not modelled. The fixed 500 body is the only literal byte string.
- `GenericUserError`'s printf-style formatting (`fmt.Sprintf`) is not modelled: the formatted message is its input.
- Decimal.ParseUint: the value Go returns beside a range error (the largest uint64) is not modelled, because `UInt64` replaces it with 0.
- VarMap.NumErrorText: places the input between plain double quotes, while Go's `strconv.Quote` also escapes quotes, backslashes and non-printable characters.
- The messages of `json.SyntaxError` and the `reflect.Type.Name()` of a type mismatch are opaque strings.
- Go's `response == nil` is true only for the untyped nil. A typed nil pointer of a type that is not an `http.Handler` is encoded as `null` with status 200, which here is `Payload(JNull)`.
- What a delegated handler writes (`ServeHTTP`) is not modelled. Neither is net/http's own treatment of invalid status codes.
- Concurrent requests are not modelled: no state is shared between requests.
