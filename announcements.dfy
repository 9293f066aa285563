/**
 * The announcements category: the API mapper of `_fetch_announcements_api`, which swallows
 * every failure into an empty list, the table extractor `_parse_announcements_table` with its
 * three-step table lookup, and the entry point `get_announcements_for_symbol`.
 */
module AnnouncementsScraper {
  import opened Wrappers
  import opened PyText
  import opened JsonValues
  import opened FieldPicker
  import opened HtmlModel
  import opened HtmlFetch
  import opened Tiers

  datatype AnnouncementRecord = AnnouncementRecord(
    symbol: string,
    company: string,
    subject: string,
    details: string,
    attachmentLink: string,
    xbrlLink: string,
    broadcastDatetime: string)

  // ---------------------------------------------------------------------------
  // API tier
  // ---------------------------------------------------------------------------

  /** One API item as a record; `symbol` falls back to the queried symbol. */
  function AnnouncementFromItem(item: seq<Member>, symbol: string): AnnouncementRecord {
    AnnouncementRecord(
      symbol := Pick(item, ["symbol", "SYMBOL"], symbol),
      company := Pick(item, ["sm_name", "company", "companyName"], ""),
      subject := Pick(item, ["desc", "subject", "purpose"], ""),
      details := Pick(item, ["details", "description", "attchmntText"], ""),
      attachmentLink := Pick(item, ["attachment", "attachmentUrl", "attchmntFile"], ""),
      xbrlLink := Pick(item, ["xbrl", "xbrlUrl", "seq_id"], ""),
      broadcastDatetime := Pick(item, ["an_dt", "broadcastDateTime", "broadcast_datetime"], ""))
  }

  /** `AnnouncementFromItem` for the queried symbol, as the mapping loop applies it. */
  function AnnouncementMaker(symbol: string): seq<Member> -> AnnouncementRecord {
    (item: seq<Member>) => AnnouncementFromItem(item, symbol)
  }

  /** The record list for items that are all objects, one per item in item order. */
  function AnnouncementsFromItems(items: seq<Json>, symbol: string): seq<AnnouncementRecord>
    requires AllObjects(items)
  {
    MapObjects(items, AnnouncementMaker(symbol))
  }

  /** `_fetch_announcements_api` with the item list read out of the payload by `read`: any
      failure along the way becomes `[]`. */
  function AnnouncementsApiWith(reply: ApiReply, symbol: string, read: Json -> Result<seq<Json>, ApiError>)
    : seq<AnnouncementRecord>
  {
    match reply
    case RequestFailed => []
    case Delivered(payload) =>
      match read(payload)
      case Failure(_) => []
      case Success(items) =>
        if AllObjects(items) then AnnouncementsFromItems(items, symbol) else []
  }

  /** What `_fetch_announcements_api` returns, the item list read as written. */
  function AnnouncementsApi(reply: ApiReply, symbol: string): seq<AnnouncementRecord> {
    AnnouncementsApiWith(reply, symbol, PayloadItemsAsWritten)
  }

  /** The same with a top-level list read as the item list, as evidently intended. */
  function AnnouncementsApiIntended(reply: ApiReply, symbol: string): seq<AnnouncementRecord> {
    AnnouncementsApiWith(reply, symbol, PayloadItems)
  }

  method FetchAnnouncementsApi(reply: ApiReply, symbol: string) returns (rows: seq<AnnouncementRecord>)
    ensures rows == AnnouncementsApi(reply, symbol)
  {
    if reply.RequestFailed? {
      return [];
    }
    var items := PayloadItemsAsWritten(reply.payload);
    if items.Failure? {
      return [];
    }
    var mapped := MapItems(items.value, AnnouncementMaker(symbol));
    rows := if mapped.Some? then mapped.value else [];
  }

  /** Either one record per item, in item order, or nothing at all: a failed request, an
      unusable payload or a single item that is not an object all give `[]`. */
  lemma AnnouncementsApiAllOrNothing(reply: ApiReply, symbol: string)
    ensures var out := AnnouncementsApi(reply, symbol);
            var items := if reply.Delivered? then PayloadItemsAsWritten(reply.payload) else Failure(RequestError);
            (items.Failure? ==> out == [])
            && (items.Success? && !AllObjects(items.value) ==> out == [])
            && (items.Success? && AllObjects(items.value) ==>
                  |out| == |items.value|
                  && forall k :: 0 <= k < |out| ==> out[k] == AnnouncementFromItem(items.value[k].members, symbol))
  {
  }

  /** A reply that is a top-level list yields nothing as written, so the entry point falls back
      to the page; read as intended, every element that is an object becomes a record. */
  lemma AnnouncementsListPayload(elems: seq<Json>, symbol: string)
    requires AllObjects(elems)
    ensures AnnouncementsApi(Delivered(JArray(elems)), symbol) == []
    ensures AnnouncementsApiIntended(Delivered(JArray(elems)), symbol) == AnnouncementsFromItems(elems, symbol)
    ensures |AnnouncementsFromItems(elems, symbol)| == |elems|
  {
    ArrayPayloadRejectedAsWritten(elems);
  }

  /** Away from a top-level list both readings agree. */
  lemma AnnouncementsApiAgreesOffLists(reply: ApiReply, symbol: string)
    requires reply.RequestFailed? || !reply.payload.JArray?
    ensures AnnouncementsApiIntended(reply, symbol) == AnnouncementsApi(reply, symbol)
  {
  }

  /** An item without any of the candidate keys gives the queried symbol and empty fields. */
  lemma AnnouncementFromBareItem(item: seq<Member>, symbol: string)
    requires forall i :: 0 <= i < |item| ==>
               item[i].name !in ["symbol", "SYMBOL", "sm_name", "company", "companyName", "desc", "subject",
                 "purpose", "details", "description", "attchmntText", "attachment", "attachmentUrl",
                 "attchmntFile", "xbrl", "xbrlUrl", "seq_id", "an_dt", "broadcastDateTime",
                 "broadcast_datetime"]
    ensures AnnouncementFromItem(item, symbol) == AnnouncementRecord(symbol, "", "", "", "", "", "")
  {
    PickMissingKeys(item, ["symbol", "SYMBOL"], symbol);
    PickMissingKeys(item, ["sm_name", "company", "companyName"], "");
    PickMissingKeys(item, ["desc", "subject", "purpose"], "");
    PickMissingKeys(item, ["details", "description", "attchmntText"], "");
    PickMissingKeys(item, ["attachment", "attachmentUrl", "attchmntFile"], "");
    PickMissingKeys(item, ["xbrl", "xbrlUrl", "seq_id"], "");
    PickMissingKeys(item, ["an_dt", "broadcastDateTime", "broadcast_datetime"], "");
  }

  // ---------------------------------------------------------------------------
  // HTML tier
  // ---------------------------------------------------------------------------

  const AnnouncementsTableId := "CFanncEquityTable"
  const AnnouncementsAltId := "CFanncEquity"
  const AnnouncementsMinCells: nat := 7

  /** The `class_` filter: some class of the table contains `annc` once lower-cased. A table
      without a class attribute never matches. */
  function HasAnncClass(): Table -> bool {
    (t: Table) => exists i :: 0 <= i < |t.classes| && Contains(Lower(t.classes[i]), "annc")
  }

  /** The table the extractor settles on: the first with the main id, else the first with the
      alternative id, else the first with an `annc` class. */
  function AnnouncementsTableFound(doc: Document): Option<Table> {
    var main := FindTable(doc, HasId(AnnouncementsTableId));
    if main.Some? then main
    else
      var alt := FindTable(doc, HasId(AnnouncementsAltId));
      if alt.Some? then alt else FindTable(doc, HasAnncClass())
  }

  /** The lookup order: a table with the main id wins wherever it stands in the document; the
      alternative id is used only when no table has the main one; the class filter only when
      neither id occurs; and nothing is found exactly when no table passes any of the three. */
  lemma AnnouncementsLookupOrder(doc: Document)
    ensures var found := AnnouncementsTableFound(doc);
            var mainAt := exists k :: 0 <= k < |doc| && doc[k].id == Some(AnnouncementsTableId);
            var altAt := exists k :: 0 <= k < |doc| && doc[k].id == Some(AnnouncementsAltId);
            (mainAt ==> found.Some? && found.value.id == Some(AnnouncementsTableId))
            && (!mainAt && altAt ==> found.Some? && found.value.id == Some(AnnouncementsAltId))
            && (!mainAt && !altAt ==> found == FindTable(doc, HasAnncClass()))
            && (found.None? <==>
                  forall k :: 0 <= k < |doc| ==>
                    doc[k].id != Some(AnnouncementsTableId) && doc[k].id != Some(AnnouncementsAltId)
                    && !HasAnncClass()(doc[k]))
  {
    var mainAt := exists k :: 0 <= k < |doc| && doc[k].id == Some(AnnouncementsTableId);
    var altAt := exists k :: 0 <= k < |doc| && doc[k].id == Some(AnnouncementsAltId);
    if mainAt {
      var k :| 0 <= k < |doc| && doc[k].id == Some(AnnouncementsTableId);
      assert HasId(AnnouncementsTableId)(doc[k]);
    } else if altAt {
      var k :| 0 <= k < |doc| && doc[k].id == Some(AnnouncementsAltId);
      assert HasId(AnnouncementsAltId)(doc[k]);
    }
  }

  /** An upper-case class such as `ANNC-TABLE` passes the class filter. */
  lemma AnncClassIgnoresCase(t: Table)
    requires |t.classes| > 0 && t.classes[0] == "ANNC-TABLE"
    ensures HasAnncClass()(t)
  {
    assert Lower(t.classes[0]) == "annc-table";
    assert "annc" <= Lower(t.classes[0])[0..];
  }

  /** The class filter ignores case: upper-casing every class of a table changes nothing. */
  lemma HasAnncClassIgnoresCase(t: Table, u: Table)
    requires |u.classes| == |t.classes|
    requires forall i :: 0 <= i < |t.classes| ==> u.classes[i] == Upper(t.classes[i])
    ensures HasAnncClass()(u) <==> HasAnncClass()(t)
  {
    forall i | 0 <= i < |t.classes|
      ensures Lower(u.classes[i]) == Lower(t.classes[i])
    {
      LowerOfUpper(t.classes[i]);
    }
  }

  /** The column rules for one row of at least seven cells. */
  function AnnouncementFromRow(tds: Row): AnnouncementRecord
    requires |tds| >= AnnouncementsMinCells
  {
    AnnouncementRecord(
      symbol := SymbolText(tds[0]),
      company := tds[1].text,
      subject := tds[2].text,
      details := RichText(tds[3]),
      attachmentLink := LinkTarget(tds[4]),
      xbrlLink := LinkTarget(tds[5]),
      broadcastDatetime := tds[6].text)
  }

  /** `AnnouncementFromRow` as the row loop applies it, defined on rows of at least seven cells. */
  function AnnouncementRowMaker(): Row --> AnnouncementRecord {
    (tds: Row) requires |tds| >= AnnouncementsMinCells => AnnouncementFromRow(tds)
  }

  /** Filter then map: one record per body row with at least seven cells, in body order. */
  function AnnouncementRecords(rows: seq<Row>): seq<AnnouncementRecord> {
    MapKept(rows, AnnouncementsMinCells, AnnouncementRowMaker())
  }

  /** What `_parse_announcements_table` returns for a document. */
  function AnnouncementsTable(doc: Document): seq<AnnouncementRecord> {
    match BodyRows(AnnouncementsTableFound(doc))
    case None => []
    case Some(rows) => AnnouncementRecords(rows)
  }

  method ParseAnnouncementsTable(doc: Document) returns (rows: seq<AnnouncementRecord>)
    ensures rows == AnnouncementsTable(doc)
  {
    var table := FindTable(doc, HasId(AnnouncementsTableId));
    if table.None? {
      table := FindTable(doc, HasId(AnnouncementsAltId));
      if table.None? {
        table := FindTable(doc, HasAnncClass());
      }
    }
    if table.None? || table.value.tbody.None? {
      return [];
    }
    rows := MapRows(table.value.tbody.value, AnnouncementsMinCells, AnnouncementRowMaker());
  }

  /** No table or no body gives `[]`; otherwise one record per row of at least seven cells,
      in body order, with the symbol, details and link column rules applied. */
  lemma AnnouncementsTableRows(doc: Document)
    ensures var body := BodyRows(AnnouncementsTableFound(doc));
            var out := AnnouncementsTable(doc);
            (body.None? ==> out == [])
            && (body.Some? ==>
                  var kept := Kept(body.value, AnnouncementsMinCells);
                  |out| == |kept| <= |body.value|
                  && (out == [] <==> forall r :: r in body.value ==> |r| < AnnouncementsMinCells)
                  && forall i :: 0 <= i < |kept| ==>
                       out[i].symbol == SymbolText(kept[i][0])
                       && out[i].company == kept[i][1].text
                       && out[i].subject == kept[i][2].text
                       && out[i].details == RichText(kept[i][3])
                       && out[i].attachmentLink == LinkTarget(kept[i][4])
                       && out[i].xbrlLink == LinkTarget(kept[i][5])
                       && out[i].broadcastDatetime == kept[i][6].text)
  {
    var body := BodyRows(AnnouncementsTableFound(doc));
    if body.Some? {
      KeptEmpty(body.value, AnnouncementsMinCells);
    }
  }

  /** A row whose XBRL cell has no anchor is still emitted, with an empty XBRL link; the
      other columns are unaffected. */
  lemma AnnouncementWithoutXbrl(tds: Row)
    requires |tds| >= AnnouncementsMinCells && tds[5].anchor.None?
    ensures AnnouncementRecords([tds]) == [AnnouncementFromRow(tds)]
    ensures AnnouncementFromRow(tds).xbrlLink == ""
    ensures AnnouncementFromRow(tds).attachmentLink == LinkTarget(tds[4])
  {
    MapKeptSnoc([], tds, AnnouncementsMinCells, AnnouncementRowMaker());
    assert [] + [tds] == [tds];
  }

  // ---------------------------------------------------------------------------
  // Entry point
  // ---------------------------------------------------------------------------

  /** `get_announcements_for_symbol`: the API answer if it has rows; otherwise the page is
      fetched and parsed, an empty parse being a successful `[]` and a failed fetch an error.
      `gets` and `primes` count the page GETs and re-primes of the HTML tier. */
  method GetAnnouncementsForSymbol(symbol: string, reply: ApiReply, script: seq<Response>)
    returns (r: Result<seq<AnnouncementRecord>, CategoryError>, gets: nat, primes: nat)
    requires |script| >= MaxRetries
    ensures var api := AnnouncementsApi(reply, NormalizeSymbol(symbol));
            api != [] ==> r == Success(api) && gets == 0 && primes == 0
    ensures var api := AnnouncementsApi(reply, NormalizeSymbol(symbol));
            var f := FetchHtmlSpec(script);
            api == [] ==>
              gets == f.gets && primes == f.primes
              && (f.result.Success? ==> r == Success(AnnouncementsTable(f.result.value)))
              && (f.result.Failure? ==> r == Failure(FetchFailed(Announcements, NormalizeSymbol(symbol), f.result.error)))
  {
    var sym := NormalizeSymbol(symbol);
    var api := FetchAnnouncementsApi(reply, sym);
    if api != [] {
      return Success(api), 0, 0;
    }
    var page;
    page, gets, primes := FetchHtml(script);
    if page.Failure? {
      return Failure(FetchFailed(Announcements, sym, page.error)), gets, primes;
    }
    var rows := ParseAnnouncementsTable(page.value);
    r := Success(rows);
  }
}
