/** The defensive barcode lookup proxy (api/productProxy.js): a stateless
    request handler that guards the `barcode` query parameter, makes one
    upstream lookup and turns its outcome into a status code and a JSON body.
    The upstream `fetch` is a parameter: the handler's reply depends on it only
    through the one address it looks up. */
module ProductProxy {
  import opened Common
  import opened Upstream
  import Decimal

  const BarcodeRequired := "Barcode is required"
  const FetchFailed := "Failed to fetch data from the API"
  const TimedOut := "Timeout while fetching data from the API"
  const NonJsonSuffix := " (Non-JSON response)"
  const JsonMediaType := "application/json"

  /** `!barcode`: the query parameter is absent or the empty string. */
  predicate IsMissing(barcode: Option<string>) {
    barcode.None? || barcode.value == ""
  }

  /** `contentType && contentType.includes("application/json")`: a present
      header that contains the JSON media type anywhere, case-sensitively. */
  predicate DeclaresJson(contentType: Option<string>) {
    contentType.Some? && Contains(contentType.value, JsonMediaType)
  }

  /** `API Error: ${response.status} ${response.statusText}`. */
  function ApiError(status: StatusCode, statusText: string): string {
    "API Error: " + Decimal.NatToString(status) + " " + statusText
  }

  /** The catch block: the tests are made in this order, so a TypeError
      mentioning both "Failed to fetch" and "timeout" is a fetch failure. */
  function Classify(e: Thrown): (r: Reply)
    ensures r.status == 500 || r.status == 504
    ensures r.status == 504 <==> e.cls != NotAnError && Contains(e.message, "timeout")
                                  && !(e.cls == TypeErrorClass && Contains(e.message, "Failed to fetch"))
    ensures ErrorText(r.body).Some?
  {
    ErrorBodyText(FetchFailed);
    ErrorBodyText(TimedOut);
    ErrorBodyText(InternalError);
    if e.cls == TypeErrorClass && Contains(e.message, "Failed to fetch") then
      Reply(500, ErrorBody(FetchFailed))
    else if e.cls != NotAnError && Contains(e.message, "timeout") then
      Reply(504, ErrorBody(TimedOut))
    else
      Reply(500, ErrorBody(InternalError))
  }

  /** Everything after the guard: one upstream outcome to one reply. */
  function Respond(o: Outcome): (r: Reply)
    ensures r.status in {200, 500, 504} || (o.Response? && !IsOk(o.status) && r.status == o.status)
    ensures r.status != 200 ==> ErrorText(r.body).Some?
  {
    match o
    case Threw(e) => Classify(e)
    case Response(status, statusText, contentType, body) =>
      if !IsOk(status) then
        if DeclaresJson(contentType) then
          match body
          case Parsed(details) =>
            Reply(status, JObject([("error", JString(ApiError(status, statusText))), ("details", details)]))
          case ParseFailed(e) => Classify(e)
        else
          ErrorBodyText(ApiError(status, statusText) + NonJsonSuffix);
          Reply(status, ErrorBody(ApiError(status, statusText) + NonJsonSuffix))
      else
        match body
        case Parsed(data) => Reply(200, data)
        case ParseFailed(e) => Classify(e)
  }

  /** `handler(req, res)` for a request whose `barcode` query parameter is
      `barcode`, against an upstream that answers address `u` with `fetch(u)`. */
  function Handle(barcode: Option<string>, fetch: string -> Outcome): (r: Reply)
    ensures r.status in {200, 400, 500, 504}
            || (!IsMissing(barcode) && fetch(LookupUrl(barcode.value)).Response?
                && !IsOk(fetch(LookupUrl(barcode.value)).status)
                && r.status == fetch(LookupUrl(barcode.value)).status)
    ensures r.status != 200 ==> ErrorText(r.body).Some?
  {
    if IsMissing(barcode) then
      ErrorBodyText(BarcodeRequired);
      Reply(400, ErrorBody(BarcodeRequired))
    else
      Respond(fetch(LookupUrl(barcode.value)))
  }

  // ---------------------------------------------------------------------------
  // The guard
  // ---------------------------------------------------------------------------

  /** A missing or empty barcode is answered 400 `{error: "Barcode is required"}`. */
  lemma MissingBarcodeRejected(barcode: Option<string>, fetch: string -> Outcome)
    requires IsMissing(barcode)
    ensures Handle(barcode, fetch) == Reply(400, ErrorBody(BarcodeRequired))
  {
  }

  /** ... and the upstream is not consulted: any two upstreams give the same reply. */
  lemma NoLookupWithoutBarcode(barcode: Option<string>, fetch: string -> Outcome, other: string -> Outcome)
    requires IsMissing(barcode)
    ensures Handle(barcode, fetch) == Handle(barcode, other)
  {
  }

  /** With a barcode, exactly one address is looked up: upstreams that agree
      on it give the same reply. */
  lemma OneLookupWithBarcode(barcode: string, fetch: string -> Outcome, other: string -> Outcome)
    requires barcode != "" && fetch(LookupUrl(barcode)) == other(LookupUrl(barcode))
    ensures Handle(Some(barcode), fetch) == Handle(Some(barcode), other)
  {
  }

  /** 400 is emitted exactly for a missing barcode or an upstream 400 whose
      reply is not replaced by a body parse failure. */
  lemma Status400Iff(barcode: Option<string>, fetch: string -> Outcome)
    ensures Handle(barcode, fetch).status == 400 <==>
            IsMissing(barcode) ||
            (var o := fetch(LookupUrl(barcode.value));
             o.Response? && o.status == 400 && !(DeclaresJson(o.contentType) && o.body.ParseFailed?))
  {
    if !IsMissing(barcode) {
      var o := fetch(LookupUrl(barcode.value));
      if o.Threw? {
        assert Handle(barcode, fetch) == Classify(o.error);
      }
    }
  }

  // ---------------------------------------------------------------------------
  // Upstream responses
  // ---------------------------------------------------------------------------

  /** An ok upstream response is passed through unchanged with status 200. */
  lemma OkPassesThrough(o: Outcome)
    requires o.Response? && IsOk(o.status) && o.body.Parsed?
    ensures Respond(o) == Reply(200, o.body.json)
  {
  }

  /** The reply is 200 exactly when the upstream answered ok with a parseable body. */
  lemma Status200Iff(o: Outcome)
    ensures Respond(o).status == 200 <==> o.Response? && IsOk(o.status) && o.body.Parsed?
  {
  }

  /** A non-ok JSON-typed response keeps its status and is answered exactly
      `{error, details}`, with its parsed body as `details`. */
  lemma JsonErrorWrapped(o: Outcome)
    requires o.Response? && !IsOk(o.status) && DeclaresJson(o.contentType) && o.body.Parsed?
    ensures Respond(o) == Reply(o.status, JObject([("error", JString(ApiError(o.status, o.statusText))),
                                                   ("details", o.body.json)]))
    ensures Respond(o).status == o.status
    ensures ErrorText(Respond(o).body) == Some(ApiError(o.status, o.statusText))
    ensures Member(Respond(o).body, "details") == Some(o.body.json)
  {
    var members := [("error", JString(ApiError(o.status, o.statusText))), ("details", o.body.json)];
    assert Respond(o).body == JObject(members);
    assert "error"[0] != "details"[0];
    assert members[1..] == [("details", o.body.json)];
    assert Lookup(members, "details") == Lookup(members[1..], "details") == Some(o.body.json);
  }

  /** A non-ok response without a JSON content type keeps its status, gets
      the generic message and no `details`, and its body is never read. */
  lemma NonJsonErrorGeneric(o: Outcome, otherBody: Body)
    requires o.Response? && !IsOk(o.status) && !DeclaresJson(o.contentType)
    ensures Respond(o) == Reply(o.status, ErrorBody(ApiError(o.status, o.statusText) + NonJsonSuffix))
    ensures Member(Respond(o).body, "details") == None
    ensures Respond(o.(body := otherBody)) == Respond(o)
  {
    ErrorBodyText(ApiError(o.status, o.statusText) + NonJsonSuffix);
  }

  /** The content-type test is a case-sensitive substring test: a parameter
      after the media type still counts, an upper-case spelling does not. */
  lemma ContentTypeExamples()
    ensures DeclaresJson(Some("application/json; charset=utf-8"))
    ensures !DeclaresJson(Some("Application/JSON"))
    ensures !DeclaresJson(Some("text/html"))
    ensures !DeclaresJson(None)
  {
    assert JsonMediaType <= "application/json; charset=utf-8";
    var upper := "Application/JSON";
    assert |upper| == |JsonMediaType|;
    assert !(JsonMediaType <= upper) by { assert upper[0] != JsonMediaType[0]; }
    assert upper[1..] == "pplication/JSON";
    ShorterDoesNotContain(upper[1..], JsonMediaType);
    ShorterDoesNotContain("text/html", JsonMediaType);
  }

  /** The status can be read back from the digits of an `API Error` message. */
  lemma ApiErrorNamesStatus(status: StatusCode, statusText: string)
    ensures var m := ApiError(status, statusText);
            |m| == 15 + |statusText| && m[..11] == "API Error: " && Decimal.AllDigits(m[11..14])
            && Decimal.ParseDecimal(m[11..14]) == status && m[14] == ' ' && m[15..] == statusText
  {
    var m := ApiError(status, statusText);
    Decimal.ThreeDigits(status);
    Decimal.ParseNatToString(status);
    assert m[11..14] == Decimal.NatToString(status);
  }

  // ---------------------------------------------------------------------------
  // Thrown errors, body parse failures included
  // ---------------------------------------------------------------------------

  /** A TypeError mentioning "Failed to fetch" is a 500 fetch failure, even if
      it also mentions "timeout": that test comes first. */
  lemma FetchFailureFirst(e: Thrown)
    requires e.cls == TypeErrorClass && Contains(e.message, "Failed to fetch")
    ensures Respond(Threw(e)) == Reply(500, ErrorBody(FetchFailed))
  {
  }

  /** Any other Error mentioning "timeout" is a 504. */
  lemma TimeoutIs504(e: Thrown)
    requires e.cls != NotAnError && Contains(e.message, "timeout")
    requires !(e.cls == TypeErrorClass && Contains(e.message, "Failed to fetch"))
    ensures Respond(Threw(e)) == Reply(504, ErrorBody(TimedOut))
  {
  }

  /** Everything else thrown is a 500 internal error. */
  lemma OtherwiseInternal(e: Thrown)
    requires !(e.cls == TypeErrorClass && Contains(e.message, "Failed to fetch"))
    requires !(e.cls != NotAnError && Contains(e.message, "timeout"))
    ensures Respond(Threw(e)) == Reply(500, ErrorBody(InternalError))
  {
  }

  /** A body that fails to parse goes through the same catch block: the reply
      is what throwing that error from `fetch` would give. */
  lemma ParseFailureCaught(o: Outcome)
    requires o.Response? && o.body.ParseFailed?
    requires IsOk(o.status) || DeclaresJson(o.contentType)
    ensures Respond(o) == Respond(Threw(o.body.error))
  {
  }

  /** A concrete TypeError whose message names both conditions is a fetch failure. */
  lemma BothWordsExample()
    ensures Respond(Threw(Thrown(TypeErrorClass, "Failed to fetch: timeout"))) == Reply(500, ErrorBody(FetchFailed))
  {
    assert "Failed to fetch" <= "Failed to fetch: timeout";
  }

  // ---------------------------------------------------------------------------
  // Concrete exchanges
  // ---------------------------------------------------------------------------

  /** Upstream 404 `application/json` `{message: "not found"}` is answered 404
      `{error: "API Error: 404 Not Found", details: {message: "not found"}}`. */
  lemma NotFoundJsonExample(barcode: string, fetch: string -> Outcome)
    requires barcode != ""
    requires fetch(LookupUrl(barcode)) ==
             Response(404, "Not Found", Some("application/json"), Parsed(JObject([("message", JString("not found"))])))
    ensures Handle(Some(barcode), fetch) ==
            Reply(404, JObject([("error", JString("API Error: 404 Not Found")),
                                ("details", JObject([("message", JString("not found"))]))]))
  {
    assert DeclaresJson(Some("application/json"));
    Decimal.ThreeDigits(404);
    assert Decimal.DigitChar(4) == '4' && Decimal.DigitChar(0) == '0';
    assert Decimal.NatToString(404) == "404";
    assert ApiError(404, "Not Found") == "API Error: 404 Not Found";
    var o := fetch(LookupUrl(barcode));
    assert DeclaresJson(o.contentType);
    assert !IsOk(o.status);
    var details := JObject([("message", JString("not found"))]);
    assert o.body == Parsed(details);
    assert Respond(o) == Reply(404, JObject([("error", JString(ApiError(404, "Not Found"))), ("details", details)]));
    assert Handle(Some(barcode), fetch) == Respond(o);
  }

  /** Upstream 502 `text/html` is answered 502
      `{error: "API Error: 502 Bad Gateway (Non-JSON response)"}` whatever its body. */
  lemma BadGatewayHtmlExample(barcode: string, fetch: string -> Outcome, body: Body)
    requires barcode != ""
    requires fetch(LookupUrl(barcode)) == Response(502, "Bad Gateway", Some("text/html"), body)
    ensures Handle(Some(barcode), fetch) == Reply(502, ErrorBody("API Error: 502 Bad Gateway" + NonJsonSuffix))
  {
    assert !DeclaresJson(Some("text/html")) by {
      ContentTypeExamples();
    }
    assert ApiError(502, "Bad Gateway") == "API Error: 502 Bad Gateway" by {
      Decimal.ThreeDigits(502);
      assert Decimal.DigitChar(5) == '5' && Decimal.DigitChar(0) == '0' && Decimal.DigitChar(2) == '2';
    }
  }
}
