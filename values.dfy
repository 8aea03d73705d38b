/**
 * The loosely typed JSON values a request's parameter list holds, with
 * fallible accessors. Each accessor stands for one Go type assertion or
 * slice index of the validator: where Go would panic, the accessor
 * returns a Fault.
 */
module Values {
  import opened Wrappers

  /** A decoded JSON value (encoding/json into interface{}). */
  datatype Value =
    | Null
    | Bool(b: bool)
    | Number(n: real)
    | Str(s: string)
    | Array(elems: seq<Value>)
    | Object(fields: map<string, Value>)

  /** Why a decoding step failed; every one of them surfaces as a decode error. */
  datatype Fault =
    | IndexOutOfRange(index: nat, length: nat)
    | NotAnObject
    | NotAString
    | Undecodable

  /** `xs[i]`, or the fault Go raises for an index past the end. */
  function At<T>(xs: seq<T>, i: nat): (r: Result<T, Fault>)
    ensures r.Success? <==> i < |xs|
    ensures r.Success? ==> r.value == xs[i]
    ensures r.Failure? ==> r.error == IndexOutOfRange(i, |xs|)
  {
    if i < |xs| then Success(xs[i]) else Failure(IndexOutOfRange(i, |xs|))
  }

  /** The assertion `v.(map[string]interface{})`. */
  function AsObject(v: Value): (r: Result<map<string, Value>, Fault>)
    ensures r.Success? <==> v.Object?
    ensures r.Success? ==> r.value == v.fields
    ensures r.Failure? ==> r.error == NotAnObject
  {
    if v.Object? then Success(v.fields) else Failure(NotAnObject)
  }

  /** The assertion `v.(string)`. */
  function AsString(v: Value): (r: Result<string, Fault>)
    ensures r.Success? <==> v.Str?
    ensures r.Success? ==> r.value == v.s
    ensures r.Failure? ==> r.error == NotAString
  {
    if v.Str? then Success(v.s) else Failure(NotAString)
  }

  /** Reading a key of a JSON object: a missing key reads as null, as in Go. */
  function Member(fields: map<string, Value>, key: string): (v: Value)
    ensures key in fields ==> v == fields[key]
    ensures key !in fields ==> v == Null
  {
    if key in fields then fields[key] else Null
  }
}
