/**
 * The event-calendar category: the API mapper of `_fetch_event_calendar_api`, the table
 * extractor `_parse_event_calendar_table` and the entry point `get_event_calendar_for_symbol`.
 */
module EventCalendarScraper {
  import opened Wrappers
  import opened JsonValues
  import opened FieldPicker
  import opened HtmlModel
  import opened HtmlFetch
  import opened Tiers

  datatype EventRecord = EventRecord(
    symbol: string,
    company: string,
    purpose: string,
    details: string,
    date: string)

  // ---------------------------------------------------------------------------
  // API tier
  // ---------------------------------------------------------------------------

  /** One API item as a record; `symbol` falls back to the queried symbol. */
  function EventFromItem(item: seq<Member>, symbol: string): EventRecord {
    EventRecord(
      symbol := Pick(item, ["symbol", "SYMBOL"], symbol),
      company := Pick(item, ["company", "companyName", "sm_name"], ""),
      purpose := Pick(item, ["purpose", "subject", "event"], ""),
      details := Pick(item, ["details", "description", "bmdesc", "eventDescription"], ""),
      date := Pick(item, ["date", "eventDate", "bm_date"], ""))
  }

  /** `EventFromItem` for the queried symbol, as the mapping loop applies it. */
  function EventMaker(symbol: string): seq<Member> -> EventRecord {
    (item: seq<Member>) => EventFromItem(item, symbol)
  }

  /** The record list for items that are all objects, one per item in item order. */
  function EventsFromItems(items: seq<Json>, symbol: string): seq<EventRecord>
    requires AllObjects(items)
  {
    MapObjects(items, EventMaker(symbol))
  }

  /** `_fetch_event_calendar_api` with the item list read out of the payload by `read`. */
  function EventCalendarApiWith(reply: ApiReply, symbol: string, read: Json -> Result<seq<Json>, ApiError>)
    : Result<seq<EventRecord>, ApiError>
  {
    match reply
    case RequestFailed => Failure(RequestError)
    case Delivered(payload) =>
      match read(payload)
      case Failure(e) => Failure(e)
      case Success(items) =>
        if AllObjects(items) then Success(EventsFromItems(items, symbol))
        else Failure(ItemNotAnObject)
  }

  /** What `_fetch_event_calendar_api` returns or raises, the item list read as written. */
  function EventCalendarApi(reply: ApiReply, symbol: string): Result<seq<EventRecord>, ApiError> {
    EventCalendarApiWith(reply, symbol, PayloadItemsAsWritten)
  }

  /** The same with a top-level list read as the item list, as evidently intended. */
  function EventCalendarApiIntended(reply: ApiReply, symbol: string): Result<seq<EventRecord>, ApiError> {
    EventCalendarApiWith(reply, symbol, PayloadItems)
  }

  method FetchEventCalendarApi(reply: ApiReply, symbol: string) returns (r: Result<seq<EventRecord>, ApiError>)
    ensures r == EventCalendarApi(reply, symbol)
  {
    if reply.RequestFailed? {
      return Failure(RequestError);
    }
    var items := PayloadItemsAsWritten(reply.payload);
    if items.Failure? {
      return Failure(items.error);
    }
    var rows := MapItems(items.value, EventMaker(symbol));
    r := if rows.Some? then Success(rows.value) else Failure(ItemNotAnObject);
  }

  /** One record per item, in item order; a failure when any item is not an object. */
  lemma EventCalendarApiOnePerItem(payload: Json, symbol: string)
    requires PayloadItemsAsWritten(payload).Success?
    ensures var items := PayloadItemsAsWritten(payload).value;
            var r := EventCalendarApi(Delivered(payload), symbol);
            (r.Success? <==> AllObjects(items))
            && (r.Success? ==>
                  |r.value| == |items|
                  && forall k :: 0 <= k < |items| ==> r.value[k] == EventFromItem(items[k].members, symbol))
  {
  }

  /** A reply that is a top-level list fails as written, so the entry point falls back to the
      page; read as intended, every element that is an object becomes a record. */
  lemma EventCalendarListPayload(elems: seq<Json>, symbol: string)
    requires AllObjects(elems)
    ensures EventCalendarApi(Delivered(JArray(elems)), symbol) == Failure(PayloadNotAnObject)
    ensures EventCalendarApiIntended(Delivered(JArray(elems)), symbol) == Success(EventsFromItems(elems, symbol))
    ensures |EventsFromItems(elems, symbol)| == |elems|
  {
    ArrayPayloadRejectedAsWritten(elems);
  }

  /** Away from a top-level list both readings agree. */
  lemma EventCalendarApiAgreesOffLists(reply: ApiReply, symbol: string)
    requires reply.RequestFailed? || !reply.payload.JArray?
    ensures EventCalendarApiIntended(reply, symbol) == EventCalendarApi(reply, symbol)
  {
  }

  /** An item without any of the candidate keys gives the queried symbol and empty fields. */
  lemma EventFromBareItem(item: seq<Member>, symbol: string)
    requires forall i :: 0 <= i < |item| ==>
               item[i].name !in ["symbol", "SYMBOL", "company", "companyName", "sm_name", "purpose", "subject",
                  "event", "details", "description", "bmdesc", "eventDescription", "date",
                 "eventDate", "bm_date"]
    ensures EventFromItem(item, symbol) == EventRecord(symbol, "", "", "", "")
  {
    PickMissingKeys(item, ["symbol", "SYMBOL"], symbol);
    PickMissingKeys(item, ["company", "companyName", "sm_name"], "");
    PickMissingKeys(item, ["purpose", "subject", "event"], "");
    PickMissingKeys(item, ["details", "description", "bmdesc", "eventDescription"], "");
    PickMissingKeys(item, ["date", "eventDate", "bm_date"], "");
  }

  // ---------------------------------------------------------------------------
  // HTML tier
  // ---------------------------------------------------------------------------

  const EventCalendarTableId := "CFeventCalendarTable"
  const EventCalendarMinCells: nat := 4

  /** The column rules for one row of at least four cells. */
  function EventFromRow(tds: Row): EventRecord
    requires |tds| >= EventCalendarMinCells
  {
    EventRecord(
      symbol := SymbolText(tds[0]),
      company := tds[1].text,
      purpose := tds[2].text,
      details := RichText(tds[3]),
      date := if |tds| >= 5 then tds[4].text else "")
  }

  /** `EventFromRow` as the row loop applies it, defined on rows of at least four cells. */
  function EventRowMaker(): Row --> EventRecord {
    (tds: Row) requires |tds| >= EventCalendarMinCells => EventFromRow(tds)
  }

  /** Filter then map: one record per body row with at least four cells, in body order. */
  function EventRecords(rows: seq<Row>): seq<EventRecord> {
    MapKept(rows, EventCalendarMinCells, EventRowMaker())
  }

  /** What `_parse_event_calendar_table` returns for a document. */
  function EventCalendarTable(doc: Document): seq<EventRecord> {
    match BodyRows(FindTable(doc, HasId(EventCalendarTableId)))
    case None => []
    case Some(rows) => EventRecords(rows)
  }

  method ParseEventCalendarTable(doc: Document) returns (rows: seq<EventRecord>)
    ensures rows == EventCalendarTable(doc)
  {
    var table := FindTable(doc, HasId(EventCalendarTableId));
    if table.None? || table.value.tbody.None? {
      return [];
    }
    rows := MapRows(table.value.tbody.value, EventCalendarMinCells, EventRowMaker());
  }

  /** No table or no body gives `[]`; otherwise one record per row of at least four cells,
      in body order, with the symbol, details and date column rules applied. */
  lemma EventCalendarTableRows(doc: Document)
    ensures var body := BodyRows(FindTable(doc, HasId(EventCalendarTableId)));
            var out := EventCalendarTable(doc);
            (body.None? ==> out == [])
            && (body.Some? ==>
                  var kept := Kept(body.value, EventCalendarMinCells);
                  |out| == |kept| <= |body.value|
                  && (out == [] <==> forall r :: r in body.value ==> |r| < EventCalendarMinCells)
                  && forall i :: 0 <= i < |kept| ==>
                       out[i].symbol == SymbolText(kept[i][0])
                       && out[i].company == kept[i][1].text
                       && out[i].purpose == kept[i][2].text
                       && out[i].details == RichText(kept[i][3])
                       && out[i].date == (if |kept[i]| == 4 then "" else kept[i][4].text))
  {
    var body := BodyRows(FindTable(doc, HasId(EventCalendarTableId)));
    if body.Some? {
      KeptEmpty(body.value, EventCalendarMinCells);
    }
  }

  // ---------------------------------------------------------------------------
  // Entry point
  // ---------------------------------------------------------------------------

  /** `get_event_calendar_for_symbol`: the API answer if it has rows; otherwise the page is
      fetched and parsed, an empty parse being a successful `[]` and a failed fetch an error.
      `gets` and `primes` count the page GETs and re-primes of the HTML tier. */
  method GetEventCalendarForSymbol(symbol: string, reply: ApiReply, script: seq<Response>)
    returns (r: Result<seq<EventRecord>, CategoryError>, gets: nat, primes: nat)
    requires |script| >= MaxRetries
    ensures var api := EventCalendarApi(reply, NormalizeSymbol(symbol));
            api.Success? && api.value != [] ==> r == Success(api.value) && gets == 0 && primes == 0
    ensures var api := EventCalendarApi(reply, NormalizeSymbol(symbol));
            var f := FetchHtmlSpec(script);
            !(api.Success? && api.value != []) ==>
              gets == f.gets && primes == f.primes
              && (f.result.Success? ==> r == Success(EventCalendarTable(f.result.value)))
              && (f.result.Failure? ==> r == Failure(FetchFailed(EventCalendar, NormalizeSymbol(symbol), f.result.error)))
  {
    var sym := NormalizeSymbol(symbol);
    var api := FetchEventCalendarApi(reply, sym);
    if api.Success? && api.value != [] {
      return Success(api.value), 0, 0;
    }
    var page;
    page, gets, primes := FetchHtml(script);
    if page.Failure? {
      return Failure(FetchFailed(EventCalendar, sym, page.error)), gets, primes;
    }
    var rows := ParseEventCalendarTable(page.value);
    r := Success(rows);
  }
}
