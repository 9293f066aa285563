/**
 * The board-meetings category: the API mapper of `_fetch_board_meetings_api`, the table
 * extractor `_parse_board_meetings_table` and the entry point `get_board_meetings_for_symbol`.
 */
module BoardMeetingsScraper {
  import opened Wrappers
  import opened JsonValues
  import opened FieldPicker
  import opened HtmlModel
  import opened HtmlFetch
  import opened Tiers

  datatype MeetingRecord = MeetingRecord(
    symbol: string,
    company: string,
    purpose: string,
    detailsLink: string,
    meetingDate: string,
    attachmentLink: string,
    broadcastDatetime: string)

  // ---------------------------------------------------------------------------
  // API tier
  // ---------------------------------------------------------------------------

  /** One API item as a record; `symbol` falls back to the queried symbol. */
  function MeetingFromItem(item: seq<Member>, symbol: string): MeetingRecord {
    MeetingRecord(
      symbol := Pick(item, ["symbol", "SYMBOL"], symbol),
      company := Pick(item, ["sm_name", "company", "companyName"], ""),
      purpose := Pick(item, ["bm_purpose", "purpose", "subject"], ""),
      detailsLink := Pick(item, ["detailsUrl", "details_link", "bm_details"], ""),
      meetingDate := Pick(item, ["bm_date", "meetingDate", "meeting_date"], ""),
      attachmentLink := Pick(item, ["attachment", "attachmentUrl", "pdfUrl", "xmlUrl"], ""),
      broadcastDatetime := Pick(item, ["bm_timestamp", "broadcastDateTime", "broadcast_time"], ""))
  }

  /** `MeetingFromItem` for the queried symbol, as the mapping loop applies it. */
  function MeetingMaker(symbol: string): seq<Member> -> MeetingRecord {
    (item: seq<Member>) => MeetingFromItem(item, symbol)
  }

  /** The record list for items that are all objects, one per item in item order. */
  function MeetingsFromItems(items: seq<Json>, symbol: string): seq<MeetingRecord>
    requires AllObjects(items)
  {
    MapObjects(items, MeetingMaker(symbol))
  }

  /** `_fetch_board_meetings_api` with the item list read out of the payload by `read`. */
  function BoardMeetingsApiWith(reply: ApiReply, symbol: string, read: Json -> Result<seq<Json>, ApiError>)
    : Result<seq<MeetingRecord>, ApiError>
  {
    match reply
    case RequestFailed => Failure(RequestError)
    case Delivered(payload) =>
      match read(payload)
      case Failure(e) => Failure(e)
      case Success(items) =>
        if AllObjects(items) then Success(MeetingsFromItems(items, symbol))
        else Failure(ItemNotAnObject)
  }

  /** What `_fetch_board_meetings_api` returns or raises, the item list read as written. */
  function BoardMeetingsApi(reply: ApiReply, symbol: string): Result<seq<MeetingRecord>, ApiError> {
    BoardMeetingsApiWith(reply, symbol, PayloadItemsAsWritten)
  }

  /** The same with a top-level list read as the item list, as evidently intended. */
  function BoardMeetingsApiIntended(reply: ApiReply, symbol: string): Result<seq<MeetingRecord>, ApiError> {
    BoardMeetingsApiWith(reply, symbol, PayloadItems)
  }

  method FetchBoardMeetingsApi(reply: ApiReply, symbol: string) returns (r: Result<seq<MeetingRecord>, ApiError>)
    ensures r == BoardMeetingsApi(reply, symbol)
  {
    if reply.RequestFailed? {
      return Failure(RequestError);
    }
    var items := PayloadItemsAsWritten(reply.payload);
    if items.Failure? {
      return Failure(items.error);
    }
    var rows := MapItems(items.value, MeetingMaker(symbol));
    r := if rows.Some? then Success(rows.value) else Failure(ItemNotAnObject);
  }

  /** One record per item, in item order; a failure when any item is not an object. */
  lemma BoardMeetingsApiOnePerItem(payload: Json, symbol: string)
    requires PayloadItemsAsWritten(payload).Success?
    ensures var items := PayloadItemsAsWritten(payload).value;
            var r := BoardMeetingsApi(Delivered(payload), symbol);
            (r.Success? <==> AllObjects(items))
            && (r.Success? ==>
                  |r.value| == |items|
                  && forall k :: 0 <= k < |items| ==> r.value[k] == MeetingFromItem(items[k].members, symbol))
  {
  }

  /** A reply that is a top-level list fails as written, so the entry point falls back to the
      page; read as intended, every element that is an object becomes a record. */
  lemma BoardMeetingsListPayload(elems: seq<Json>, symbol: string)
    requires AllObjects(elems)
    ensures BoardMeetingsApi(Delivered(JArray(elems)), symbol) == Failure(PayloadNotAnObject)
    ensures BoardMeetingsApiIntended(Delivered(JArray(elems)), symbol) == Success(MeetingsFromItems(elems, symbol))
    ensures |MeetingsFromItems(elems, symbol)| == |elems|
  {
    ArrayPayloadRejectedAsWritten(elems);
  }

  /** Away from a top-level list both readings agree. */
  lemma BoardMeetingsApiAgreesOffLists(reply: ApiReply, symbol: string)
    requires reply.RequestFailed? || !reply.payload.JArray?
    ensures BoardMeetingsApiIntended(reply, symbol) == BoardMeetingsApi(reply, symbol)
  {
  }

  /** An item without any of the candidate keys gives the queried symbol and empty fields. */
  lemma MeetingFromBareItem(item: seq<Member>, symbol: string)
    requires forall i :: 0 <= i < |item| ==>
               item[i].name !in ["symbol", "SYMBOL", "sm_name", "company", "companyName", "bm_purpose",
                 "purpose", "subject", "detailsUrl", "details_link", "bm_details", "bm_date",
                 "meetingDate", "meeting_date", "attachment", "attachmentUrl", "pdfUrl", "xmlUrl",
                 "bm_timestamp", "broadcastDateTime", "broadcast_time"]
    ensures MeetingFromItem(item, symbol) == MeetingRecord(symbol, "", "", "", "", "", "")
  {
    PickMissingKeys(item, ["symbol", "SYMBOL"], symbol);
    PickMissingKeys(item, ["sm_name", "company", "companyName"], "");
    PickMissingKeys(item, ["bm_purpose", "purpose", "subject"], "");
    PickMissingKeys(item, ["detailsUrl", "details_link", "bm_details"], "");
    PickMissingKeys(item, ["bm_date", "meetingDate", "meeting_date"], "");
    PickMissingKeys(item, ["attachment", "attachmentUrl", "pdfUrl", "xmlUrl"], "");
    PickMissingKeys(item, ["bm_timestamp", "broadcastDateTime", "broadcast_time"], "");
  }

  // ---------------------------------------------------------------------------
  // HTML tier
  // ---------------------------------------------------------------------------

  const BoardMeetingsTableId := "CFboardmeetingEquityTable"
  const BoardMeetingsMinCells: nat := 7

  /** The column rules for one row of at least seven cells. */
  function MeetingFromRow(tds: Row): MeetingRecord
    requires |tds| >= BoardMeetingsMinCells
  {
    MeetingRecord(
      symbol := SymbolText(tds[0]),
      company := tds[1].text,
      purpose := tds[2].text,
      detailsLink := LinkTarget(tds[3]),
      meetingDate := tds[4].text,
      attachmentLink := LinkTarget(tds[5]),
      broadcastDatetime := tds[6].text)
  }

  /** `MeetingFromRow` as the row loop applies it, defined on rows of at least seven cells. */
  function MeetingRowMaker(): Row --> MeetingRecord {
    (tds: Row) requires |tds| >= BoardMeetingsMinCells => MeetingFromRow(tds)
  }

  /** Filter then map: one record per body row with at least seven cells, in body order. */
  function MeetingRecords(rows: seq<Row>): seq<MeetingRecord> {
    MapKept(rows, BoardMeetingsMinCells, MeetingRowMaker())
  }

  /** What `_parse_board_meetings_table` returns for a document. */
  function BoardMeetingsTable(doc: Document): seq<MeetingRecord> {
    match BodyRows(FindTable(doc, HasId(BoardMeetingsTableId)))
    case None => []
    case Some(rows) => MeetingRecords(rows)
  }

  method ParseBoardMeetingsTable(doc: Document) returns (rows: seq<MeetingRecord>)
    ensures rows == BoardMeetingsTable(doc)
  {
    var table := FindTable(doc, HasId(BoardMeetingsTableId));
    if table.None? || table.value.tbody.None? {
      return [];
    }
    rows := MapRows(table.value.tbody.value, BoardMeetingsMinCells, MeetingRowMaker());
  }

  /** No table or no body gives `[]`; otherwise one record per row of at least seven cells,
      in body order, with the symbol and link column rules applied. */
  lemma BoardMeetingsTableRows(doc: Document)
    ensures var body := BodyRows(FindTable(doc, HasId(BoardMeetingsTableId)));
            var out := BoardMeetingsTable(doc);
            (body.None? ==> out == [])
            && (body.Some? ==>
                  var kept := Kept(body.value, BoardMeetingsMinCells);
                  |out| == |kept| <= |body.value|
                  && (out == [] <==> forall r :: r in body.value ==> |r| < BoardMeetingsMinCells)
                  && forall i :: 0 <= i < |kept| ==>
                       out[i].symbol == SymbolText(kept[i][0])
                       && out[i].company == kept[i][1].text
                       && out[i].purpose == kept[i][2].text
                       && out[i].detailsLink == LinkTarget(kept[i][3])
                       && out[i].meetingDate == kept[i][4].text
                       && out[i].attachmentLink == LinkTarget(kept[i][5])
                       && out[i].broadcastDatetime == kept[i][6].text)
  {
    var body := BodyRows(FindTable(doc, HasId(BoardMeetingsTableId)));
    if body.Some? {
      KeptEmpty(body.value, BoardMeetingsMinCells);
    }
  }

  /** A row whose link cells hold no anchor still yields a record, with empty links. */
  lemma MeetingWithoutLinks(tds: Row)
    requires |tds| >= BoardMeetingsMinCells
    requires tds[3].anchor.None? && tds[5].anchor.None?
    ensures MeetingFromRow(tds).detailsLink == "" && MeetingFromRow(tds).attachmentLink == ""
    ensures MeetingRecords([tds]) == [MeetingFromRow(tds)]
  {
    MapKeptSnoc([], tds, BoardMeetingsMinCells, MeetingRowMaker());
    assert [] + [tds] == [tds];
  }

  // ---------------------------------------------------------------------------
  // Entry point
  // ---------------------------------------------------------------------------

  /** `get_board_meetings_for_symbol`: the API answer if it has rows; otherwise the page is
      fetched and parsed, an empty parse being a successful `[]` and a failed fetch an error.
      `gets` and `primes` count the page GETs and re-primes of the HTML tier. */
  method GetBoardMeetingsForSymbol(symbol: string, reply: ApiReply, script: seq<Response>)
    returns (r: Result<seq<MeetingRecord>, CategoryError>, gets: nat, primes: nat)
    requires |script| >= MaxRetries
    ensures var api := BoardMeetingsApi(reply, NormalizeSymbol(symbol));
            api.Success? && api.value != [] ==> r == Success(api.value) && gets == 0 && primes == 0
    ensures var api := BoardMeetingsApi(reply, NormalizeSymbol(symbol));
            var f := FetchHtmlSpec(script);
            !(api.Success? && api.value != []) ==>
              gets == f.gets && primes == f.primes
              && (f.result.Success? ==> r == Success(BoardMeetingsTable(f.result.value)))
              && (f.result.Failure? ==> r == Failure(FetchFailed(BoardMeetings, NormalizeSymbol(symbol), f.result.error)))
  {
    var sym := NormalizeSymbol(symbol);
    var api := FetchBoardMeetingsApi(reply, sym);
    if api.Success? && api.value != [] {
      return Success(api.value), 0, 0;
    }
    var page;
    page, gets, primes := FetchHtml(script);
    if page.Failure? {
      return Failure(FetchFailed(BoardMeetings, sym, page.error)), gets, primes;
    }
    var rows := ParseBoardMeetingsTable(page.value);
    r := Success(rows);
  }
}
