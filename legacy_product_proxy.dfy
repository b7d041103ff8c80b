/** The earlier barcode lookup proxy (src/api/productProxy.js): no barcode
    guard, no content-type inspection, one catch-all for everything thrown.
    The lemmas at the end compare it with the defensive handler of module
    ProductProxy. */
module LegacyProductProxy {
  import opened Common
  import opened Upstream
  import ProductProxy

  /** `${barcode}`: an absent query parameter is interpolated as "undefined". */
  function QueryText(barcode: Option<string>): string {
    if barcode.Some? then barcode.value else "undefined"
  }

  /** `Failed to fetch product: ${response.statusText}`. */
  function FailedToFetch(statusText: string): string {
    "Failed to fetch product: " + statusText
  }

  /** Everything after the (absent) guard: one upstream outcome to one reply. */
  function Respond(o: Outcome): (r: Reply)
    ensures r.status == 200 || r.status == 500 || (o.Response? && !IsOk(o.status) && r.status == o.status)
    ensures r.status != 200 ==> ErrorText(r.body).Some?
  {
    ErrorBodyText(InternalError);
    match o
    case Threw(_) => Reply(500, ErrorBody(InternalError))
    case Response(status, statusText, _, body) =>
      if !IsOk(status) then
        ErrorBodyText(FailedToFetch(statusText));
        Reply(status, ErrorBody(FailedToFetch(statusText)))
      else
        match body
        case Parsed(data) => Reply(200, data)
        case ParseFailed(_) => Reply(500, ErrorBody(InternalError))
  }

  /** `handler(req, res)` for a request whose `barcode` query parameter is
      `barcode`, against an upstream that answers address `u` with `fetch(u)`. */
  function Handle(barcode: Option<string>, fetch: string -> Outcome): (r: Reply)
    ensures r.status == 200 || r.status == 500
            || (fetch(LookupUrl(QueryText(barcode))).Response?
                && !IsOk(fetch(LookupUrl(QueryText(barcode))).status)
                && r.status == fetch(LookupUrl(QueryText(barcode))).status)
  {
    Respond(fetch(LookupUrl(QueryText(barcode))))
  }

  /** Without a guard the upstream is always consulted: even with no barcode
      at all, the upstream's answer decides the reply. */
  lemma UpstreamAlwaysConsulted(barcode: Option<string>)
    ensures exists fetch: string -> Outcome, other: string -> Outcome :: Handle(barcode, fetch) != Handle(barcode, other)
  {
    var fetch: string -> Outcome := _ => Response(200, "OK", None, Parsed(JNull));
    var other: string -> Outcome := _ => Threw(Thrown(NotAnError, ""));
    assert Handle(barcode, fetch).status == 200;
    assert Handle(barcode, other).status == 500;
  }

  /** The handler never answers 400 of its own accord: a 400 is the upstream's. */
  lemma No400OfItsOwn(barcode: Option<string>, fetch: string -> Outcome)
    requires Handle(barcode, fetch).status == 400
    ensures fetch(LookupUrl(QueryText(barcode))).Response?
    ensures fetch(LookupUrl(QueryText(barcode))).status == 400
  {
  }

  /** A non-ok response keeps its status and names only the status text;
      content type and body are never looked at. */
  lemma NonOkGeneric(o: Outcome, contentType: Option<string>, body: Body)
    requires o.Response? && !IsOk(o.status)
    ensures Respond(o) == Reply(o.status, ErrorBody(FailedToFetch(o.statusText)))
    ensures Member(Respond(o).body, "details") == None
    ensures Respond(o.(contentType := contentType, body := body)) == Respond(o)
  {
    ErrorBodyText(FailedToFetch(o.statusText));
  }

  /** Anything thrown, a body parse failure included, is a 500 internal error. */
  lemma ThrownIsInternal(o: Outcome)
    requires o.Threw? || (o.Response? && IsOk(o.status) && o.body.ParseFailed?)
    ensures Respond(o) == Reply(500, ErrorBody(InternalError))
  {
  }

  // ---------------------------------------------------------------------------
  // The two variants side by side
  // ---------------------------------------------------------------------------

  /** Given the same barcode and upstream, both variants pass an ok body
      through unchanged with status 200. */
  lemma BothPassOkBodyThrough(barcode: string, fetch: string -> Outcome)
    requires barcode != ""
    requires fetch(LookupUrl(barcode)).Response? && IsOk(fetch(LookupUrl(barcode)).status)
    requires fetch(LookupUrl(barcode)).body.Parsed?
    ensures Handle(Some(barcode), fetch) == ProductProxy.Handle(Some(barcode), fetch)
    ensures Handle(Some(barcode), fetch) == Reply(200, fetch(LookupUrl(barcode)).body.json)
  {
  }

  /** With a barcode present the two variants agree on the status code, except
      where the defensive one reports a timeout (504) or wraps a JSON-typed
      error response whose body fails to parse. */
  lemma SameStatusOtherwise(barcode: string, fetch: string -> Outcome)
    requires barcode != ""
    requires var o := fetch(LookupUrl(barcode));
             !(o.Threw? && ProductProxy.Classify(o.error).status == 504)
    requires var o := fetch(LookupUrl(barcode));
             !(o.Response? && IsOk(o.status) && o.body.ParseFailed? && ProductProxy.Classify(o.body.error).status == 504)
    requires var o := fetch(LookupUrl(barcode));
             !(o.Response? && !IsOk(o.status) && ProductProxy.DeclaresJson(o.contentType) && o.body.ParseFailed?)
    ensures Handle(Some(barcode), fetch).status == ProductProxy.Handle(Some(barcode), fetch).status
  {
    var o := fetch(LookupUrl(barcode));
    if o.Threw? {
      assert ProductProxy.Handle(Some(barcode), fetch) == ProductProxy.Classify(o.error);
    } else if IsOk(o.status) && o.body.ParseFailed? {
      assert ProductProxy.Handle(Some(barcode), fetch) == ProductProxy.Classify(o.body.error);
    }
  }

  /** The exception to the agreement is real: a timeout is 504 in one variant
      and 500 in the other. */
  lemma TimeoutDisagrees(barcode: string, fetch: string -> Outcome)
    requires barcode != ""
    requires fetch(LookupUrl(barcode)) == Threw(Thrown(OtherErrorClass, "timeout"))
    ensures ProductProxy.Handle(Some(barcode), fetch).status == 504
    ensures Handle(Some(barcode), fetch).status == 500
  {
    assert "timeout" <= "timeout";
  }

  /** Without a barcode the defensive variant answers 400 and looks nothing up,
      while this one looks up "undefined". */
  lemma MissingBarcodeDiverges(fetch: string -> Outcome)
    ensures ProductProxy.Handle(None, fetch).status == 400
    ensures Handle(None, fetch) == Respond(fetch(UpstreamBase + "undefined"))
  {
  }
}
