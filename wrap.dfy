/**
 * Wrap, SendError and SendObject: how a handler's `(response, error)` pair
 * becomes the status line and body of an HTTP response; and the error
 * constructors GenericUserError and JSONError.
 *
 * A response is an Outcome: either the writer was handed, untouched, to a
 * handler the function returned, or a status was written, then a body, and
 * possibly one log entry.
 */
module Wrap {
  import opened Core
  import opened Encoding
  import opened Errors

  const StatusOK: int := 200
  const StatusNoContent: int := 204
  const StatusInternalServerError: int := 500

  /** The fixed body of every internal error. */
  const UnknownServerErrorBody: string := "{\"error\":\"Unknown Server Error\"}"

  /** The identity of an `http.Handler` value; what it does when served is not modelled. */
  datatype Handler = Handler(id: nat)

  /**
   * The `interface{}` a wrapped function returns on success: a value that is
   * itself an `http.Handler`, the untyped nil, or any other value, seen
   * through its JSON image.
   */
  datatype Response = Delegate(handler: Handler) | Nil | Payload(value: Json)

  /** What a wrapped function returns: `(interface{}, error)`. */
  datatype Reply = Reply(response: Response, err: Option<Error>)

  /** What one request's handling did to the response writer. */
  datatype Outcome =
    | Delegated(handler: Handler)
    | Written(status: int, body: Body, logged: bool)

  /** Whether an outcome wrote the status of an internal error and logged it. */
  predicate IsInternalFailure(o: Outcome)
  {
    o == Written(StatusInternalServerError, Raw(UnknownServerErrorBody), true)
  }

  /** `SendError(rw, req, err)` */
  function SendError(err: Error): (o: Outcome)
    ensures o.Written?
    ensures IsUserError(err) ==> o == Written(HTTPStatus(err), Encoded(ResponseObject(err)), false)
    ensures !IsUserError(err) ==> IsInternalFailure(o)
    ensures o.logged <==> !IsUserError(err)
  {
    if !IsUserError(err) then
      Written(StatusInternalServerError, Raw(UnknownServerErrorBody), true)
    else
      Written(HTTPStatus(err), Encoded(ResponseObject(err)), false)
  }

  /** `SendObject(rw, req, status, response)` */
  function SendObject(status: int, response: Response): (o: Outcome)
    ensures o.Delegated? <==> response.Delegate?
    ensures o.Delegated? ==> o.handler == response.handler
    ensures response.Nil? ==> o == Written(StatusNoContent, NoBody, false)
    ensures response.Payload? ==> o == Written(status, Encoded(response.value), false)
    ensures o.Written? ==> !o.logged
  {
    match response
    case Delegate(h) => Delegated(h)
    case Nil => Written(StatusNoContent, NoBody, false)
    case Payload(v) => Written(status, Encoded(v), false)
  }

  /** What `Wrap(handler).ServeHTTP(rw, req)` does for one request. */
  function Wrap<Req>(handler: Req -> Reply, req: Req): (o: Outcome)
    ensures handler(req).err.Some? ==> o == SendError(handler(req).err.value)
    ensures handler(req).err.None? ==> o == SendObject(StatusOK, handler(req).response)
  {
    var reply := handler(req);
    if reply.err.Some? then SendError(reply.err.value) else SendObject(StatusOK, reply.response)
  }

  /**
   * Every outcome of a wrapped handler, stated on the handler's reply alone:
   * it is delegated only on success with a handler value; it logs exactly
   * when the error is not user-facing; and user errors and payloads reach
   * the client with their own status and encoding.
   */
  lemma WrapOutcome<Req>(handler: Req -> Reply, req: Req)
    ensures var r := handler(req);
            Wrap(handler, req).Delegated? <==> r.err.None? && r.response.Delegate?
    ensures var r := handler(req);
            Wrap(handler, req).Written? ==>
              (Wrap(handler, req).logged <==> r.err.Some? && !IsUserError(r.err.value))
    ensures var r := handler(req);
            r.err.Some? && IsUserError(r.err.value) ==>
              Wrap(handler, req) == Written(HTTPStatus(r.err.value), Encoded(ResponseObject(r.err.value)), false)
    ensures var r := handler(req);
            r.err.None? && r.response.Payload? ==>
              Wrap(handler, req) == Written(StatusOK, Encoded(r.response.value), false)
    ensures var r := handler(req);
            r.err.None? && r.response.Nil? ==> Wrap(handler, req) == Written(StatusNoContent, NoBody, false)
  {
  }

  /** An error wins over whatever response the handler returned beside it. */
  lemma ErrorIgnoresResponse<Req>(h1: Req -> Reply, h2: Req -> Reply, req: Req)
    requires h1(req).err.Some? && h1(req).err == h2(req).err
    ensures Wrap(h1, req) == Wrap(h2, req)
  {
  }

  /** The client learns nothing of an internal error: any two give the same response. */
  lemma InternalErrorsIndistinguishable(e1: Error, e2: Error)
    requires !IsUserError(e1) && !IsUserError(e2)
    ensures SendError(e1) == SendError(e2)
  {
  }

  /** `GenericUserError(status, message, params...)`; the formatted message is taken as given. */
  function GenericUserError(status: int, formatted: string): (e: Error)
    ensures IsUserError(e)
    ensures HTTPStatus(e) == status
    ensures ResponseObject(e) == ErrorObject(formatted)
  {
    Simple(status, formatted)
  }

  /** The message JSONError builds for a type mismatch. */
  function TypeMismatchMessage(typeName: string, field: string, value: string): (m: string)
    ensures |m| == 10 + |typeName| + 11 + |field| + 6 + |value|
    ensures m[..10] == "Expecting "
    ensures OccursAt(m, typeName, 10)
    ensures OccursAt(m, " for field " + field + ", got ", 10 + |typeName|)
    ensures m[|m| - |value|..] == value
  {
    "Expecting " + typeName + " for field " + field + ", got " + value
  }

  /** `JSONError(err)`; `None` is a nil error. */
  function JSONError(err: Option<Error>): (r: Option<Error>)
    ensures err.None? ==> r.None?
    ensures err.Some? && err.value.Syntax? ==>
              && r.Some? && IsUserError(r.value)
              && HTTPStatus(r.value) == StatusBadRequest
              && ResponseObject(r.value) == ErrorObject(err.value.message)
    ensures err.Some? && err.value.TypeMismatch? ==>
              && r.Some? && IsUserError(r.value)
              && HTTPStatus(r.value) == StatusBadRequest
              && ResponseObject(r.value) ==
                 ErrorObject(TypeMismatchMessage(err.value.typeName, err.value.field, err.value.value))
    ensures err.Some? && !err.value.Syntax? && !err.value.TypeMismatch? ==> r == err
  {
    match err
    case Some(Syntax(message)) => Some(Simple(StatusBadRequest, message))
    case Some(TypeMismatch(typeName, field, value)) =>
      Some(Simple(StatusBadRequest, TypeMismatchMessage(typeName, field, value)))
    case _ => err
  }

  /** Translating twice is translating once. */
  lemma JSONErrorIdempotent(err: Option<Error>)
    ensures JSONError(JSONError(err)) == JSONError(err)
  {
  }

  /**
   * After JSONError, an error is user-facing exactly when it was a decoding
   * failure or was user-facing already; anything else still reaches the
   * client as an internal error, not as a 400.
   */
  lemma JSONErrorUserFacingIff(e: Error)
    ensures JSONError(Some(e)).Some?
    ensures IsUserError(JSONError(Some(e)).value) <==> e.Syntax? || e.TypeMismatch? || IsUserError(e)
    ensures !e.Syntax? && !e.TypeMismatch? && !IsUserError(e) ==>
              IsInternalFailure(SendError(JSONError(Some(e)).value))
  {
  }

  /** wrap_test.go, TestWrapperHappy: `{"key":123}` comes back with 200. */
  lemma WrapperHappy()
    ensures var payload := JObject(map["key" := JNumber(123)]);
            var h: string -> Reply := _ => Reply(Payload(payload), None);
            Wrap(h, "http://test.com/path") == Written(200, Encoded(payload), false)
  {
  }

  /** wrap_test.go, TestWrapperErrors: an unknown error and a generic user error. */
  lemma WrapperErrors()
    ensures var h: string -> Reply := _ => Reply(Nil, Some(Internal("Unknown Error")));
            Wrap(h, "http://test.com/path") == Written(500, Raw("{\"error\":\"Unknown Server Error\"}"), true)
    ensures var h: string -> Reply := _ => Reply(Nil, Some(GenericUserError(400, "Special Error Message")));
            Wrap(h, "http://test.com/path") == Written(400, Encoded(JObject(map["error" := JString("Special Error Message")])), false)
  {
  }

  /** wrap_test.go, TestJSONErrors: both decoding failures become 400 with the expected message. */
  lemma JSONErrors(parserMessage: string)
    requires Contains(parserMessage, "invalid character 'B'")
    ensures var r := JSONError(Some(Syntax(parserMessage)));
            && r.Some? && IsUserError(r.value) && HTTPStatus(r.value) == 400
            && Contains(ResponseObject(r.value).fields["error"].s, "invalid character 'B'")
    ensures var r := JSONError(Some(TypeMismatch("int", "key", "string")));
            && r.Some? && IsUserError(r.value) && HTTPStatus(r.value) == 400
            && Contains(ResponseObject(r.value).fields["error"].s, "int for field key, got string")
  {
    var msg := TypeMismatchMessage("int", "key", "string");
    var tail := "int" + " for field " + "key" + ", got " + "string";
    assert msg == "Expecting " + tail;
    assert msg[10..] == tail;
    assert tail == "int for field key, got string";
    assert OccursAt(msg, "int for field key, got string", 10);
  }
}
