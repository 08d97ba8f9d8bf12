/**
 * Values as the JSON encoder sees them, and the bytes a response carries.
 * Encoding itself is not modelled: a body that the source produces with
 * `json.NewEncoder(rw).Encode(v)` is `Encoded(v)`.
 */
module Encoding {

  /** The JSON image of a Go value. */
  datatype Json =
    | JNull
    | JBool(b: bool)
    | JNumber(n: int)
    | JString(s: string)
    | JArray(items: seq<Json>)
    | JObject(fields: map<string, Json>)

  /** What was written after the status line. */
  datatype Body =
    | NoBody
    | Raw(text: string)     // bytes written literally with `rw.Write`
    | Encoded(value: Json)  // the encoder's rendering of `value`

  /** The one-field object `{"error": message}` every error body in the library uses. */
  function ErrorObject(message: string): (j: Json)
    ensures j.JObject? && j.fields.Keys == {"error"} && j.fields["error"] == JString(message)
  {
    JObject(map["error" := JString(message)])
  }

  /** `t` occurs in `s` starting at index `i`. */
  predicate OccursAt(s: string, t: string, i: int)
  {
    0 <= i <= |s| - |t| && s[i..i + |t|] == t
  }

  /** `t` occurs in `s` (Go's strings.Contains). */
  predicate Contains(s: string, t: string)
  {
    exists i :: 0 <= i <= |s| && OccursAt(s, t, i)
  }
}
