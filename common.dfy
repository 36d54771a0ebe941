/** Values shared by every service: optional values, decoded JSON, and the
    three ways an outgoing HTTP call can end. */
module Common {

  datatype Option<+T> = None | Some(value: T)
  {
    function GetOr(default: T): T
    {
      match this
      case Some(v) => v
      case None => default
    }
  }

  /** A decoded JSON document, as PHP's json_decode(..., true) gives it. */
  datatype Json =
    | JNull
    | JBool(b: bool)
    | JNum(n: real)
    | JStr(s: string)
    | JList(items: seq<Json>)
    | JObject(fields: map<string, Json>)

  /** `$response->json(key)`: the field of an object body, or null. */
  function Field(body: Json, key: string): (r: Json)
    ensures r != JNull ==> body.JObject? && key in body.fields && r == body.fields[key]
    ensures body.JObject? && key in body.fields ==> r == body.fields[key]
  {
    if body.JObject? && key in body.fields then body.fields[key] else JNull
  }

  /** How an outgoing HTTP call ends: a reply with a status and a JSON body,
      or a transport exception (timeout, connection refused). */
  datatype HttpResult =
    | Reply(status: int, body: Json)
    | Thrown(message: string)

  /** Laravel's `$response->successful()`: a 2xx status. */
  predicate Successful(r: HttpResult)
  {
    r.Reply? && 200 <= r.status < 300
  }

  /** PHP's strtolower on ASCII letters. */
  function LowerChar(c: char): (l: char)
    ensures 'A' <= c <= 'Z' ==> 'a' <= l <= 'z' && l as int - c as int == 32
    ensures !('A' <= c <= 'Z') ==> l == c
  {
    if 'A' <= c <= 'Z' then (c as int + 32) as char else c
  }

  function Lower(s: string): (l: string)
    ensures |l| == |s|
    ensures forall i :: 0 <= i < |s| ==> l[i] == LowerChar(s[i])
  {
    if s == [] then [] else [LowerChar(s[0])] + Lower(s[1..])
  }

  /** Sum of a sequence of reals. */
  function SumReals(s: seq<real>): real
  {
    if s == [] then 0.0 else SumReals(s[..|s| - 1]) + s[|s| - 1]
  }
}
