/**
 * VarMap: typed lookups in a request's string-keyed parameters. The map is
 * a value; neither lookup can change it.
 */
module VarMap {
  import opened Core
  import opened Encoding
  import opened Errors
  import Decimal
  import Wrap

  type VarMap = map<string, string>

  /** A Go `(value, error)` return pair; `err == None` is a nil error. */
  datatype Returned<T> = Returned(value: T, err: Option<Error>)

  /** `VarMap.String(key)` */
  function String(vm: VarMap, key: string): (r: Returned<string>)
    ensures r.err.None? <==> key in vm
    ensures key in vm ==> r.value == vm[key]
    ensures key !in vm ==> r.value == "" && r.err == Some(ParameterMissing(key))
  {
    if key !in vm then Returned("", Some(ParameterMissing(key))) else Returned(vm[key], None)
  }

  /** The text Go's NumError gives each reason. */
  function ReasonText(reason: Decimal.Reason): string
  {
    match reason
    case ErrSyntax => "invalid syntax"
    case ErrRange => "value out of range"
  }

  const NumErrorPrefix: string := "strconv.ParseUint: parsing \""

  /**
   * The text of Go's NumError for ParseUint, the `Issue` of the validation
   * error: `strconv.ParseUint: parsing "<input>": <reason>`.
   */
  function NumErrorText(e: Decimal.NumError): (text: string)
    ensures |text| == |NumErrorPrefix| + |e.num| + 3 + |ReasonText(e.reason)|
    ensures text[..|NumErrorPrefix|] == NumErrorPrefix
    ensures text[|NumErrorPrefix|..|NumErrorPrefix| + |e.num|] == e.num
    ensures text[|text| - |ReasonText(e.reason)|..] == ReasonText(e.reason)
  {
    NumErrorPrefix + e.num + "\": " + ReasonText(e.reason)
  }

  /** `VarMap.UInt64(key)` */
  function UInt64(vm: VarMap, key: string): (r: Returned<Decimal.uint64>)
    ensures key !in vm ==> r == Returned(0, String(vm, key).err)
    ensures key in vm ==> (r.err.None? <==> Decimal.IsUint64Decimal(vm[key]))
    ensures key in vm && r.err.None? ==> Decimal.AllDigits(vm[key]) && r.value == Decimal.Value(vm[key])
    ensures r.err.Some? ==> r.value == 0
    ensures key in vm && r.err.Some? ==>
              && Decimal.ParseUint(vm[key]).Err?
              && r.err == Some(Validation(key, NumErrorText(Decimal.ParseUint(vm[key]).error)))
  {
    var s := String(vm, key);
    if s.err.Some? then
      Returned(0, s.err)
    else
      Decimal.ParseUintSucceedsIff(s.value);
      match Decimal.ParseUint(s.value)
      case Err(e) => Returned(0, Some(Validation(key, NumErrorText(e))))
      case Ok(n) => Returned(n, None)
  }

  /** A lookup that fails, of either kind, is a user error reported as 400 with an `error` message naming the key. */
  lemma LookupFailuresAreBadRequest(vm: VarMap, key: string)
    ensures String(vm, key).err.Some? ==>
              && IsUserError(String(vm, key).err.value)
              && HTTPStatus(String(vm, key).err.value) == 400
              && ResponseObject(String(vm, key).err.value) == ErrorObject(key + " is required")
    ensures UInt64(vm, key).err.Some? ==>
              && IsUserError(UInt64(vm, key).err.value)
              && HTTPStatus(UInt64(vm, key).err.value) == 400
              && ResponseObject(UInt64(vm, key).err.value).fields["error"].s[..|key| + 1] == key + " "
  {
    if UInt64(vm, key).err.Some? {
      var e := UInt64(vm, key).err.value;
      var msg := if e.ParameterMissing? then key + " is required" else key + " " + e.issue;
      assert ResponseObject(e) == ErrorObject(msg);
      assert msg[..|key| + 1] == key + " ";
    }
  }

  /**
   * A handler that returns a failed lookup's error gets a 400 response with
   * the error's `{"error": ...}` body and logs nothing.
   */
  lemma LookupFailureResponse(vm: VarMap, key: string)
    requires UInt64(vm, key).err.Some?
    ensures var e := UInt64(vm, key).err.value;
            Wrap.SendError(e) == Wrap.Written(400, Encoded(ResponseObject(e)), false)
    ensures key !in vm ==>
              Wrap.SendError(UInt64(vm, key).err.value) == Wrap.Written(400, Encoded(ErrorObject(key + " is required")), false)
  {
    LookupFailuresAreBadRequest(vm, key);
  }

  /** Examples: a missing key, a non-numeric value, a small decimal. */
  lemma LookupExamples()
    ensures String(map[], "id") == Returned("", Some(ParameterMissing("id")))
    ensures UInt64(map["id" := "abc"], "id").err == Some(Validation("id", "strconv.ParseUint: parsing \"abc\": invalid syntax"))
    ensures UInt64(map["id" := "42"], "id") == Returned(42, None)
  {
    var bad := map["id" := "abc"];
    assert Decimal.DigitRun("abc", 0) == 0;
    assert Decimal.ParseUint("abc") == Core.Err(Decimal.NumError("abc", Decimal.ErrSyntax));
    assert "id" in bad && bad["id"] == "abc";
    assert NumErrorText(Decimal.NumError("abc", Decimal.ErrSyntax)) == "strconv.ParseUint: parsing \"abc\": invalid syntax";
    assert Decimal.DigitRun("42", 0) == 2;
    assert "42"[..2] == "42" && "42"[..1] == "4";
  }
}
