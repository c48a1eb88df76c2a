/**
 * What the AI posts to a room when a provider request completes: the choice of
 * reply text from a parsed JSON response, and the chat message each provider
 * outcome produces. The HTTP exchange itself is not modelled; its outcome is an
 * input here.
 */
module Reply {
  import Decimal

  /** A parsed JSON value. Numbers are kept as reals; only whether they are zero matters here. */
  datatype Json =
    | JNull
    | JBool(b: bool)
    | JNumber(n: real)
    | JString(s: string)
    | JArray(items: seq<Json>)
    | JObject(fields: map<string, Json>)

  /**
   * JavaScript truthiness of a parsed JSON value: the falsy values are exactly
   * `null`, `false`, `0` and `""`; arrays and objects, even empty ones, are truthy.
   */
  function Truthy(v: Json): (t: bool)
    ensures !t <==> v == JNull || v == JBool(false) || v == JNumber(0.0) || v == JString("")
    ensures v.JArray? || v.JObject? ==> t
  {
    match v
    case JNull => false
    case JBool(b) => b
    case JNumber(n) => n != 0.0
    case JString(s) => s != ""
    case JArray(_) => true
    case JObject(_) => true
  }

  const GENERATED_TEXT := "generated_text"

  /** The longest fallback reply: the serialized response is cut to this many characters. */
  const MAX_FALLBACK_LENGTH: nat := 1000

  /**
   * `v.generated_text` is present and truthy. Only objects carry that property;
   * on strings, numbers, arrays and null it reads as `undefined`.
   */
  predicate HasText(v: Json) {
    v.JObject? && GENERATED_TEXT in v.fields && Truthy(v.fields[GENERATED_TEXT])
  }

  /** `data` is an array whose first element has a truthy `generated_text`. */
  predicate FirstHasText(data: Json) {
    data.JArray? && |data.items| > 0 && HasText(data.items[0])
  }

  /** `s.slice(0, n)`. */
  function Prefix(s: string, n: nat): (r: string)
    ensures |r| <= n && r <= s
    ensures |s| <= n ==> r == s
    ensures |s| > n ==> |r| == n
  {
    if |s| <= n then s else s[..n]
  }

  /**
   * The reply text chosen from a truthy parsed response, taking the first case
   * that applies: the first element's `generated_text`, the response's own
   * `generated_text`, the response itself when it is a string, and otherwise at
   * most 1000 characters of its serialization `stringify(data)`.
   */
  function ReplyText(data: Json, stringify: Json -> string): (r: Json)
    requires Truthy(data)
    ensures FirstHasText(data) ==> r == data.items[0].fields[GENERATED_TEXT]
    ensures data.JObject? ==>
              r == if HasText(data) then data.fields[GENERATED_TEXT]
                   else JString(Prefix(stringify(data), MAX_FALLBACK_LENGTH))
    ensures data.JString? ==> r == data
    ensures !FirstHasText(data) && !HasText(data) && !data.JString? ==>
              r == JString(Prefix(stringify(data), MAX_FALLBACK_LENGTH))
    ensures Truthy(r) || r == JString(Prefix(stringify(data), MAX_FALLBACK_LENGTH))
  {
    if FirstHasText(data) then data.items[0].fields[GENERATED_TEXT]
    else if HasText(data) then data.fields[GENERATED_TEXT]
    else if data.JString? then data
    else JString(Prefix(stringify(data), MAX_FALLBACK_LENGTH))
  }

  /** What the provider exchange ended with, as the drain step observes it. */
  datatype Outcome =
    | Threw                                // the request, or reading its body, raised an exception
    | NotOk(status: nat, body: string)     // a response with a non-success status, and its text
    | NotJson(raw: string)                 // a success response whose body is not JSON, and its text
    | Parsed(data: Json)                   // a success response with a JSON body

  const FAILURE_TEXT := "Error: AI failed to respond."

  /**
   * The message posted for a non-success response: a fixed lead, the status in
   * canonical decimal digits, "): ", then the response text unchanged.
   */
  function HttpErrorText(status: nat, body: string): (r: string)
    ensures |r| >= 17 + |body| && r[..14] == "HF API Error ("
    ensures r[|r| - |body| - 3..] == "): " + body
    ensures Decimal.AllDigits(r[14..|r| - |body| - 3]) && Decimal.Value(r[14..|r| - |body| - 3]) == status
    ensures r[14..|r| - |body| - 3] == Decimal.Render(status)
  {
    var digits := Decimal.Render(status);
    Decimal.ValueOfRender(status);
    var r := "HF API Error (" + digits + "): " + body;
    assert r[14..|r| - |body| - 3] == digits;
    assert r[|r| - |body| - 3..] == "): " + body;
    r
  }

  /**
   * The messages the AI posts to the room for one outcome: one message, except
   * for a parsed response that is falsy (`null`, `false`, `0`, `""`), for which
   * nothing is posted.
   */
  function AiReplies(o: Outcome, stringify: Json -> string): (r: seq<Json>)
    ensures |r| <= 1
    ensures r == [] <==> o.Parsed? && !Truthy(o.data)
    ensures o.Threw? ==> r == [JString(FAILURE_TEXT)]
    ensures o.NotOk? ==> r == [JString(HttpErrorText(o.status, o.body))]
    ensures o.NotJson? ==> r == [JString(o.raw)]
    ensures o.Parsed? && Truthy(o.data) ==> r == [ReplyText(o.data, stringify)]
  {
    match o
    case Threw => [JString(FAILURE_TEXT)]
    case NotOk(status, body) => [JString(HttpErrorText(status, body))]
    case NotJson(raw) => [JString(raw)]
    case Parsed(data) => if Truthy(data) then [ReplyText(data, stringify)] else []
  }
}
