/** What both barcode lookup proxy handlers see of the upstream product
    service, and what they send back to their caller. */
module Upstream {
  import opened Common

  /** A parsed JSON document. Object members keep their insertion order,
      as `JSON.stringify` writes them. */
  datatype Json =
    | JNull
    | JBool(b: bool)
    | JNumber(n: int)
    | JString(s: string)
    | JArray(items: seq<Json>)
    | JObject(members: seq<(string, Json)>)

  /** An HTTP status code: three digits, 100 to 599 (section 15 of RFC 9110). */
  type StatusCode = s: int | 100 <= s <= 599 witness 200

  /** The "ok status" of the WHATWG Fetch Standard: `response.ok`. */
  predicate IsOk(status: int) {
    200 <= status <= 299
  }

  /** The class of a thrown JavaScript value, as `instanceof` sees it. */
  datatype ErrorClass =
    | TypeErrorClass   // `instanceof TypeError` (and so also `instanceof Error`)
    | OtherErrorClass  // `instanceof Error` but not a TypeError: SyntaxError, AbortError, ...
    | NotAnError       // anything thrown that is not an Error object

  /** A thrown value: its class and its `message`. */
  datatype Thrown = Thrown(cls: ErrorClass, message: string)

  /** What `await response.json()` yields: a document, or the error it rejects with. */
  datatype Body = Parsed(json: Json) | ParseFailed(error: Thrown)

  /** The one upstream exchange: a response (status, status text, the
      `content-type` header if present, and the body as it would parse), or
      an error thrown by `fetch` itself (network failure, timeout, ...). */
  datatype Outcome =
    | Response(status: StatusCode, statusText: string, contentType: Option<string>, body: Body)
    | Threw(error: Thrown)

  /** What a handler sends: `res.status(status).json(body)`. */
  datatype Reply = Reply(status: int, body: Json)

  /** The upstream lookup address for a barcode, interpolated as is. */
  const UpstreamBase := "https://products-test-aci.onrender.com/api/product/"

  function LookupUrl(barcode: string): string {
    UpstreamBase + barcode
  }

  /** The message both handlers send when their catch block gives up. */
  const InternalError := "Internal server error"

  /** `{ error: message }`. */
  function ErrorBody(message: string): Json {
    JObject([("error", JString(message))])
  }

  /** The value of the first member named `key` of an object document. */
  function Member(j: Json, key: string): Option<Json> {
    if j.JObject? then Lookup(j.members, key) else None
  }

  function Lookup(members: seq<(string, Json)>, key: string): Option<Json>
    decreases |members|
  {
    if members == [] then None
    else if members[0].0 == key then Some(members[0].1)
    else Lookup(members[1..], key)
  }

  /** The `error` string of an error envelope, if the document is one. */
  function ErrorText(j: Json): Option<string> {
    var m := Member(j, "error");
    if m.Some? && m.value.JString? then Some(m.value.s) else None
  }

  lemma ErrorBodyText(message: string)
    ensures ErrorText(ErrorBody(message)) == Some(message)
    ensures Member(ErrorBody(message), "details") == None
  {
    var members := [("error", JString(message))];
    assert "error"[0] != "details"[0];
    assert members[1..] == [];
    assert Lookup(members[1..], "details") == None;
  }
}
