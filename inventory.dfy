/** The inventory page (src/pages/dashboard/Inventory.jsx): a barcode, read
    from an uploaded image or typed into a dialog, is looked up through the
    product proxy and, when it is new, posted to the product database.

    The decision logic is the pure function Ingest over the page state;
    class InventoryPage holds the state fields and proves each handler
    against it. The results of the lookup, the POST, the barcode decoder and
    the dialogs are parameters. */
module Inventory {
  import opened Common
  import opened Upstream
  import Categories

  /** A product record of the database: `_id` (absent until the server has
      assigned one), material, barcode, description and category. */
  datatype Record = Record(id: Option<string>, material: string, barcode: string,
                           description: string, category: string)

  /** The `product` object of a lookup reply. */
  datatype LookupProduct = LookupProduct(material: string, barcode: string, description: string)

  /** What the lookup through the proxy yields: a failure (the request threw,
      the response was not ok, or its body did not parse), or the reply's
      `status` flag (as JavaScript truthiness) and its `product`, if any. */
  datatype LookupReply =
    | LookupFailed
    | LookupBody(status: bool, product: Option<LookupProduct>)

  /** What the POST of a new record yields: a thrown error or a status. */
  datatype PostReply = PostThrew | PostStatus(code: StatusCode)

  /** The alert shown to the user at the end of a lookup. */
  datatype Notice =
    | Silent           // no alert
    | AlreadyExists    // "Product already exists in the database."
    | Added            // "Product added successfully!"
    | NotFoundOrError  // "Product not found or server error."

  /** The state fields the lookup touches: `barcode`, `productsInDB` and
      `image` (a data URL, or None for `null`). */
  datatype Page = Page(barcode: string, productsInDB: seq<Record>, image: Option<string>)

  /** One lookup's effect: the new page, the alert, and the record POSTed, if any. */
  datatype Step = Step(page: Page, notice: Notice, posted: Option<Record>)

  /** The result of decoding an uploaded image. */
  datatype Decode = Decoded(text: string) | NotDetected | DecodeThrew

  /** `productsInDB.some(p => p.barcode === code)`. */
  function HasBarcode(db: seq<Record>, code: string): (r: bool)
    ensures r <==> exists i :: 0 <= i < |db| && db[i].barcode == code
    decreases |db|
  {
    if db == [] then false
    else db[0].barcode == code || (assert forall i :: 1 <= i < |db| ==> db[i] == db[1..][i - 1];
                                   HasBarcode(db[1..], code))
  }

  /** The record built for a looked-up product. */
  function NewRecord(p: LookupProduct): (r: Record)
    ensures r.material == p.material && r.barcode == p.barcode && r.description == p.description
    ensures r.category == Categories.Uncategorized && r.id.None?
  {
    Record(None, p.material, p.barcode, p.description, Categories.Uncategorized)
  }

  /** `setImage(null); setBarcode("")`. */
  function Cleared(page: Page): Page {
    page.(barcode := "", image := None)
  }

  /** `fetchProduct`: what one lookup does to the page. */
  function Ingest(page: Page, lookup: LookupReply, post: PostReply): (r: Step)
    ensures r.notice == Silent ==> r.page == page
    ensures r.notice != Silent ==> r.page.barcode == "" && r.page.image.None?
    ensures r.notice == Added <==> r.page.productsInDB != page.productsInDB
    ensures r.notice == Added ==> r.posted.Some? && r.page.productsInDB == page.productsInDB + [r.posted.value]
    ensures r.posted.Some? ==>
              lookup.LookupBody? && lookup.status && lookup.product.Some?
              && r.posted.value == NewRecord(lookup.product.value)
              && !HasBarcode(page.productsInDB, r.posted.value.barcode)
  {
    match lookup
    case LookupFailed => Step(Cleared(page), NotFoundOrError, None)
    case LookupBody(status, product) =>
      if !status || product.None? then Step(Cleared(page), NotFoundOrError, None)
      else if HasBarcode(page.productsInDB, product.value.barcode) then Step(Cleared(page), AlreadyExists, None)
      else
        var record := NewRecord(product.value);
        match post
        case PostThrew => Step(Cleared(page), NotFoundOrError, Some(record))
        case PostStatus(code) =>
          if code == 400 then Step(Cleared(page), AlreadyExists, Some(record))
          else if IsOk(code) then
            assert |page.productsInDB + [record]| != |page.productsInDB|;
            Step(Cleared(page.(productsInDB := page.productsInDB + [record])), Added, Some(record))
          else Step(page, Silent, Some(record))
  }

  /** `manualInputPrompt`: `entered` is the confirmed dialog value, or None if
      the dialog was dismissed. A non-empty value becomes the barcode and is
      looked up; anything else clears the barcode and the image. */
  function AfterPrompt(page: Page, entered: Option<string>, lookup: LookupReply, post: PostReply): (r: Step)
    ensures entered.None? || entered.value == "" ==> r == Step(Cleared(page), Silent, None)
    ensures entered.Some? && entered.value != "" && r.notice == Silent ==> r.page.barcode == entered.value
    ensures entered.Some? && entered.value != "" ==> r == Ingest(page.(barcode := entered.value), lookup, post)
  {
    if entered.Some? && entered.value != "" then Ingest(page.(barcode := entered.value), lookup, post)
    else Step(Cleared(page), Silent, None)
  }

  /** The file branch of `handleImageUpload` followed by `scanBarcode`: the
      image is shown, then a decoded barcode is looked up; otherwise the
      manual prompt is shown, and when nothing was detected the image is
      dropped before the prompt's answer arrives. */
  function AfterScan(page: Page, dataUrl: string, decoded: Decode, entered: Option<string>,
                     lookup: LookupReply, post: PostReply): Step
  {
    var shown := page.(image := Some(dataUrl));
    match decoded
    case Decoded(text) => Ingest(shown.(barcode := text), lookup, post)
    case NotDetected => AfterPrompt(shown.(image := None), entered, lookup, post)
    case DecodeThrew => AfterPrompt(shown, entered, lookup, post)
  }

  /** No two records share a barcode. */
  predicate DistinctBarcodes(db: seq<Record>) {
    forall i, j :: 0 <= i < j < |db| ==> db[i].barcode != db[j].barcode
  }

  // ---------------------------------------------------------------------------
  // Properties of one lookup
  // ---------------------------------------------------------------------------

  /** A failed lookup, or a reply without a product, clears the barcode and
      the image and leaves the database alone; nothing is POSTed. */
  lemma FailedLookupClears(page: Page, lookup: LookupReply, post: PostReply)
    requires lookup.LookupFailed? || !lookup.status || lookup.product.None?
    ensures Ingest(page, lookup, post) == Step(Cleared(page), NotFoundOrError, None)
  {
  }

  /** A barcode already in the database is refused without a POST. */
  lemma DuplicateNotPosted(page: Page, p: LookupProduct, post: PostReply)
    requires exists r :: r in page.productsInDB && r.barcode == p.barcode
    ensures Ingest(page, LookupBody(true, Some(p)), post) == Step(Cleared(page), AlreadyExists, None)
  {
    var r :| r in page.productsInDB && r.barcode == p.barcode;
    var i :| 0 <= i < |page.productsInDB| && page.productsInDB[i] == r;
  }

  /** A new barcode is POSTed as a fresh uncategorised record; the outcome of
      the POST decides the rest: 400 is a duplicate, an ok status appends the
      record, a thrown error is reported, and any other status changes
      nothing at all. */
  lemma NewBarcodePosted(page: Page, p: LookupProduct, post: PostReply)
    requires !HasBarcode(page.productsInDB, p.barcode)
    ensures Ingest(page, LookupBody(true, Some(p)), post).posted == Some(NewRecord(p))
    ensures post == PostStatus(400) ==>
              Ingest(page, LookupBody(true, Some(p)), post)
              == Step(Cleared(page), AlreadyExists, Some(NewRecord(p)))
    ensures post.PostStatus? && IsOk(post.code) ==>
              Ingest(page, LookupBody(true, Some(p)), post)
              == Step(Cleared(page).(productsInDB := page.productsInDB + [NewRecord(p)]), Added, Some(NewRecord(p)))
    ensures post.PostThrew? ==>
              Ingest(page, LookupBody(true, Some(p)), post)
              == Step(Cleared(page), NotFoundOrError, Some(NewRecord(p)))
    ensures post.PostStatus? && post.code != 400 && !IsOk(post.code) ==>
              Ingest(page, LookupBody(true, Some(p)), post) == Step(page, Silent, Some(NewRecord(p)))
  {
  }

  /** A lookup never introduces a second record with the same barcode. */
  lemma {:induction false} IngestKeepsBarcodesDistinct(page: Page, lookup: LookupReply, post: PostReply)
    requires DistinctBarcodes(page.productsInDB)
    ensures DistinctBarcodes(Ingest(page, lookup, post).page.productsInDB)
  {
    var r := Ingest(page, lookup, post);
    if r.notice == Added {
      var db := page.productsInDB;
      var rec := r.posted.value;
      assert !HasBarcode(db, rec.barcode);
      assert r.page.productsInDB == db + [rec];
    }
  }

  /** Looking the same product up again after it was added is refused as a
      duplicate, whatever the second POST would have answered. */
  lemma SecondLookupRefused(page: Page, p: LookupProduct, post: PostReply, again: PostReply)
    requires Ingest(page, LookupBody(true, Some(p)), post).notice == Added
    ensures var after := Ingest(page, LookupBody(true, Some(p)), post).page;
            Ingest(after, LookupBody(true, Some(p)), again) == Step(Cleared(after), AlreadyExists, None)
  {
    var after := Ingest(page, LookupBody(true, Some(p)), post).page;
    assert after.productsInDB[|after.productsInDB| - 1] == NewRecord(p);
    assert HasBarcode(after.productsInDB, p.barcode);
  }

  /** A confirmed manual entry of a barcode already in the database is
      refused without a POST, and barcode and image are cleared. */
  lemma ManualDuplicateRefused(page: Page, p: LookupProduct, post: PostReply)
    requires p.barcode != ""
    requires exists r :: r in page.productsInDB && r.barcode == p.barcode
    ensures AfterPrompt(page, Some(p.barcode), LookupBody(true, Some(p)), post)
            == Step(Cleared(page), AlreadyExists, None)
  {
    DuplicateNotPosted(page.(barcode := p.barcode), p, post);
  }

  /** Whichever way a scan ends, the barcode field is empty or holds the
      value that was looked up last. */
  lemma ScanEndsCleanOrLookedUp(page: Page, dataUrl: string, decoded: Decode, entered: Option<string>,
                                lookup: LookupReply, post: PostReply)
    ensures var r := AfterScan(page, dataUrl, decoded, entered, lookup, post);
            r.page.barcode == ""
            || (decoded.Decoded? && r.page.barcode == decoded.text)
            || (!decoded.Decoded? && entered.Some? && r.page.barcode == entered.value)
  {
  }

  /** A dismissed prompt after a failed scan leaves no image and no barcode. */
  lemma DismissedPromptClears(page: Page, dataUrl: string, decoded: Decode, lookup: LookupReply, post: PostReply)
    requires !decoded.Decoded?
    ensures AfterScan(page, dataUrl, decoded, None, lookup, post).page
            == page.(barcode := "", image := None)
  {
  }

  // ---------------------------------------------------------------------------
  // The component state
  // ---------------------------------------------------------------------------

  class InventoryPage {
    var barcode: string
    var productsInDB: seq<Record>
    var image: Option<string>

    function State(): Page
      reads this
    {
      Page(barcode, productsInDB, image)
    }

    /** The initial `useState` values. */
    constructor ()
      ensures State() == Page("", [], None)
    {
      barcode := "";
      productsInDB := [];
      image := None;
    }

    /** `fetchProduct(code)`: one lookup. `lookup` is the proxy's reply for
        `code`, and `post` the database's answer to the POST, if one is made;
        `code` itself only addresses the lookup. The page's Scan button calls
        it with the current `barcode` as `code`. */
    method FetchProduct(code: string, lookup: LookupReply, post: PostReply) returns (notice: Notice, posted: Option<Record>)
      modifies this
      ensures Step(State(), notice, posted) == Ingest(old(State()), lookup, post)
    {
      posted := None;
      if lookup.LookupFailed? || !lookup.status || lookup.product.None? {
        notice := NotFoundOrError;
        image := None;
        barcode := "";
        return;
      }
      var p := lookup.product.value;
      if HasBarcode(productsInDB, p.barcode) {
        notice := AlreadyExists;
        image := None;
        barcode := "";
        return;
      }
      var record := Record(None, p.material, p.barcode, p.description, Categories.Uncategorized);
      posted := Some(record);
      if post.PostThrew? {
        notice := NotFoundOrError;
        image := None;
        barcode := "";
        return;
      }
      if post.code == 400 {
        notice := AlreadyExists;
        image := None;
        barcode := "";
        return;
      }
      notice := Silent;
      if IsOk(post.code) {
        notice := Added;
        productsInDB := productsInDB + [record];
        image := None;
        barcode := "";
      }
    }

    /** `manualInputPrompt`, given the dialog's answer. */
    method ManualPrompt(entered: Option<string>, lookup: LookupReply, post: PostReply)
      returns (notice: Notice, posted: Option<Record>)
      modifies this
      ensures Step(State(), notice, posted) == AfterPrompt(old(State()), entered, lookup, post)
    {
      if entered.Some? && entered.value != "" {
        barcode := entered.value;
        notice, posted := FetchProduct(entered.value, lookup, post);
      } else {
        image := None;
        barcode := "";
        notice, posted := Silent, None;
      }
    }

    /** `handleImageUpload` with no file chosen. */
    method UploadNothing()
      modifies this
      ensures State() == Cleared(old(State()))
    {
      image := None;
      barcode := "";
    }

    /** `handleImageUpload` with a file read as `dataUrl`, then `scanBarcode`. */
    method UploadImage(dataUrl: string, decoded: Decode, entered: Option<string>, lookup: LookupReply, post: PostReply)
      returns (notice: Notice, posted: Option<Record>)
      modifies this
      ensures Step(State(), notice, posted) == AfterScan(old(State()), dataUrl, decoded, entered, lookup, post)
    {
      image := Some(dataUrl);
      match decoded
      case Decoded(text) =>
        barcode := text;
        notice, posted := FetchProduct(text, lookup, post);
      case NotDetected =>
        image := None;
        notice, posted := ManualPrompt(entered, lookup, post);
      case DecodeThrew =>
        notice, posted := ManualPrompt(entered, lookup, post);
    }

    /** The initial load and `fetchUpdatedProducts`: whatever body parses
        replaces the database list, whatever the response status, since
        `response.ok` is never checked; a refresh that throws (a network
        failure or an unparseable body) changes nothing. */
    method Refresh(fetched: Option<seq<Record>>)
      modifies this
      ensures fetched.Some? ==> State() == old(State()).(productsInDB := fetched.value)
      ensures fetched.None? ==> State() == old(State())
    {
      if fetched.Some? {
        productsInDB := fetched.value;
      }
    }
  }
}
